/**
 * `NewsletterAggregator` (aggregator.py): run every fetcher, keep what each returns on
 * or after `since`, clean each item's content, and concatenate.  A fetcher's `fetch` is a
 * function of the fetcher and `since` that either raises or returns items.  The
 * aggregator's parser is injected; `clean` is its `clean_content`, which for a
 * `ContentParser` value `p` is `s => Cleaned(p, s)`.
 */
module Aggregator {
  import opened Wrappers
  import opened DateTime
  import opened Models
  import opened Config
  import opened ContentParser
  import opened Fetchers

  // ---------------------------------------------------------------------------
  // `_filter_by_date`

  /** The items dated on or after `since`, in input order. */
  function Kept(items: seq<NewsletterItem>, since: DateTime): (r: seq<NewsletterItem>)
    ensures |r| <= |items|
    decreases |items|
  {
    if items == [] then []
    else
      var last := items[|items| - 1];
      Kept(items[..|items| - 1], since) + (if OnOrAfter(last.publishedDate, since) then [last] else [])
  }

  method FilterByDate(items: seq<NewsletterItem>, since: DateTime) returns (filtered: seq<NewsletterItem>)
    ensures filtered == Kept(items, since)
  {
    filtered := [];
    var i := 0;
    while i < |items|
      invariant 0 <= i <= |items|
      invariant filtered == Kept(items[..i], since)
    {
      assert items[..i + 1][..i] == items[..i];
      var item := items[i];
      var (published, sinceCmp) := (item.publishedDate, since);
      if Aware(published) && !Aware(since) {
        published := Naive(published);
      } else if !Aware(published) && Aware(since) {
        sinceCmp := Naive(since);
      }
      if PyGe(published, sinceCmp) == Some(true) {
        filtered := filtered + [item];
      }
      i := i + 1;
    }
    assert items[..i] == items;
  }

  /** Exactly the input items whose adjusted date is on or after `since` survive. */
  lemma {:induction false} KeptMember(items: seq<NewsletterItem>, since: DateTime, x: NewsletterItem)
    ensures x in Kept(items, since) <==> x in items && OnOrAfter(x.publishedDate, since)
    decreases |items|
  {
    if items != [] {
      var init := items[..|items| - 1];
      KeptMember(init, since, x);
      assert items == init + [items[|items| - 1]];
    }
  }

  /** Filtering keeps the input order: it distributes over concatenation. */
  lemma {:induction false} KeptAppend(a: seq<NewsletterItem>, b: seq<NewsletterItem>, since: DateTime)
    ensures Kept(a + b, since) == Kept(a, since) + Kept(b, since)
    decreases |b|
  {
    if b == [] {
      assert a + b == a;
    } else {
      var b' := b[..|b| - 1];
      var last := b[|b| - 1];
      var tail := if OnOrAfter(last.publishedDate, since) then [last] else [];
      KeptAppend(a, b', since);
      assert (a + b)[..|a + b| - 1] == a + b' && (a + b)[|a + b| - 1] == last;
      assert Kept(a + b, since) == Kept(a + b', since) + tail;
      assert Kept(b, since) == Kept(b', since) + tail;
    }
  }

  /** When every item is recent enough, nothing is dropped. */
  lemma {:induction false} KeptAll(items: seq<NewsletterItem>, since: DateTime)
    requires forall i :: 0 <= i < |items| ==> OnOrAfter(items[i].publishedDate, since)
    ensures Kept(items, since) == items
    decreases |items|
  {
    if items != [] {
      var init := items[..|items| - 1];
      KeptAll(init, since);
      assert items == init + [items[|items| - 1]];
    }
  }

  // ---------------------------------------------------------------------------
  // `_normalize_item`

  /** A copy of the item whose content has been through `clean`. */
  function NormalizeItem(clean: string -> string, x: NewsletterItem): (r: NewsletterItem)
    ensures r.content == clean(x.content)
    ensures r.sourceName == x.sourceName && r.sourceType == x.sourceType && r.title == x.title
    ensures r.publishedDate == x.publishedDate && r.htmlContent == x.htmlContent
    ensures r.author == x.author && r.url == x.url
  {
    NewsletterItem(x.sourceName, x.sourceType, x.title, clean(x.content), x.publishedDate, x.htmlContent, x.author, x.url)
  }

  /** With a `ContentParser`, normalised content has the shape `clean_content`
      guarantees. */
  lemma NormalizeShaped(p: ContentParser, x: NewsletterItem)
    ensures Shaped(NormalizeItem(s => Cleaned(p, s), x).content)
  {
    CleanedShape(p, x.content);
  }

  /** Normalising twice is normalising once when the boilerplate pass leaves cleaned text
      alone. */
  lemma NormalizeIdempotent(p: ContentParser, x: NewsletterItem)
    requires p.removeBoilerplate(Cleaned(p, x.content)) == Cleaned(p, x.content)
    ensures var clean := s => Cleaned(p, s); NormalizeItem(clean, NormalizeItem(clean, x)) == NormalizeItem(clean, x)
  {
    CleanedIdempotent(p, x.content);
  }

  /** `[self._normalize_item(item) for item in items]`. */
  function Normalized(clean: string -> string, xs: seq<NewsletterItem>): (r: seq<NewsletterItem>)
    ensures |r| == |xs|
    decreases |xs|
  {
    if xs == [] then [] else Normalized(clean, xs[..|xs| - 1]) + [NormalizeItem(clean, xs[|xs| - 1])]
  }

  lemma {:induction false} NormalizedAt(clean: string -> string, xs: seq<NewsletterItem>, i: int)
    requires 0 <= i < |xs|
    ensures Normalized(clean, xs)[i] == NormalizeItem(clean, xs[i])
    decreases |xs|
  {
    if i < |xs| - 1 {
      NormalizedAt(clean, xs[..|xs| - 1], i);
    }
  }

  // ---------------------------------------------------------------------------
  // `_get_fetcher_name`

  /** `hasattr(config, a)` for the four attributes the code asks about, with their values. */
  datatype ConfigAttrs = ConfigAttrs(name: Option<string>, host: Option<string>, url: Option<string>, path: Option<string>)

  /** The name for a fetcher of class `typeName` whose `config` (when it has one) has the
      given attributes: the first of name, host, url and path, in parentheses. */
  function Describe(typeName: string, config: Option<ConfigAttrs>): (r: string)
    ensures config.None? ==> r == typeName
    ensures config.Some? ==>
      r == match FirstSome([config.value.name, config.value.host, config.value.url, config.value.path])
           case None => typeName
           case Some(v) => typeName + "(" + v + ")"
  {
    if config.None? then typeName
    else
      var c := config.value;
      FirstOfFour(c.name, c.host, c.url, c.path);
      if c.name.Some? then typeName + "(" + c.name.value + ")"
      else if c.host.Some? then typeName + "(" + c.host.value + ")"
      else if c.url.Some? then typeName + "(" + c.url.value + ")"
      else if c.path.Some? then typeName + "(" + c.path.value + ")"
      else typeName
  }

  lemma FirstOfFour<T>(w: Option<T>, x: Option<T>, y: Option<T>, z: Option<T>)
    ensures FirstSome([w, x, y, z]) == if w.Some? then w else FirstSome([x, y, z])
    ensures FirstSome([x, y, z]) == if x.Some? then x else if y.Some? then y else z
  {
    assert [w, x, y, z][1..] == [x, y, z];
    FirstOfThree(x, y, z);
  }

  function TypeName(f: SourceFetcher): string {
    match f
    case EmailFetcher(_) => "EmailFetcher"
    case RssFetcher(_) => "RSSFetcher"
    case FileFetcher(_) => "FileFetcher"
  }

  /** The attributes each configuration dataclass has. */
  function Attrs(f: SourceFetcher): ConfigAttrs {
    match f
    case EmailFetcher(c) => ConfigAttrs(None, Some(c.host), None, None)
    case RssFetcher(c) => ConfigAttrs(Some(c.name), None, Some(c.url), None)
    case FileFetcher(c) => ConfigAttrs(None, None, None, Some(c.path))
  }

  function FetcherName(f: SourceFetcher): string {
    Describe(TypeName(f), Some(Attrs(f)))
  }

  /** E-mail fetchers are named by host, feeds by name (which wins over their url), and
      file sources by path. */
  lemma FetcherNames(f: SourceFetcher)
    ensures f.EmailFetcher? ==> FetcherName(f) == "EmailFetcher(" + f.email.host + ")"
    ensures f.RssFetcher? ==> FetcherName(f) == "RSSFetcher(" + f.rss.name + ")"
    ensures f.FileFetcher? ==> FetcherName(f) == "FileFetcher(" + f.file.path + ")"
  {
    var c := Attrs(f);
    FirstOfFour(c.name, c.host, c.url, c.path);
  }

  // ---------------------------------------------------------------------------
  // `aggregate`

  /** What `fetcher.fetch(since)` did: raised, or returned items. */
  datatype Outcome = Failed | Fetched(items: seq<NewsletterItem>)

  /** The log line written for each fetcher. */
  datatype Report = FetchedFrom(name: string, count: nat) | FailedFrom(name: string)

  /** One fetcher's share of the result: nothing when it raised, else its recent items,
      normalised. */
  function Contribution(clean: string -> string, since: DateTime, o: Outcome): seq<NewsletterItem> {
    match o
    case Failed => []
    case Fetched(items) => Recent(clean, since, items)
  }

  /** The normalised items dated on or after `since`, in input order. */
  function Recent(clean: string -> string, since: DateTime, items: seq<NewsletterItem>): seq<NewsletterItem>
    decreases |items|
  {
    if items == [] then []
    else
      var last := items[|items| - 1];
      Recent(clean, since, items[..|items| - 1]) + (if OnOrAfter(last.publishedDate, since) then [NormalizeItem(clean, last)] else [])
  }

  /** Filtering and then normalising, as `aggregate` does, gives the recent items. */
  lemma {:induction false} RecentIsNormalizedKept(clean: string -> string, since: DateTime, items: seq<NewsletterItem>)
    ensures Normalized(clean, Kept(items, since)) == Recent(clean, since, items)
    decreases |items|
  {
    if items != [] {
      var init := items[..|items| - 1];
      var last := items[|items| - 1];
      RecentIsNormalizedKept(clean, since, init);
      if OnOrAfter(last.publishedDate, since) {
        var k := Kept(init, since) + [last];
        assert Kept(items, since) == k;
        assert k[..|k| - 1] == Kept(init, since);
      } else {
        assert Kept(items, since) == Kept(init, since);
      }
    }
  }

  function ReportOf(clean: string -> string, since: DateTime, f: SourceFetcher, o: Outcome): Report {
    match o
    case Failed => FailedFrom(FetcherName(f))
    case Fetched(_) => FetchedFrom(FetcherName(f), |Contribution(clean, since, o)|)
  }

  /** `all_items.extend(...)` over a sequence of lists. */
  function Flatten<T>(parts: seq<seq<T>>): seq<T>
    decreases |parts|
  {
    if parts == [] then [] else Flatten(parts[..|parts| - 1]) + parts[|parts| - 1]
  }

  lemma {:induction false} FlattenAppend<T>(a: seq<seq<T>>, b: seq<seq<T>>)
    ensures Flatten(a + b) == Flatten(a) + Flatten(b)
    decreases |b|
  {
    if b == [] {
      assert a + b == a;
    } else {
      var b' := b[..|b| - 1];
      var last := b[|b| - 1];
      FlattenAppend(a, b');
      assert (a + b)[..|a + b| - 1] == a + b' && (a + b)[|a + b| - 1] == last;
      assert Flatten(a + b) == Flatten(a + b') + last;
      assert Flatten(b) == Flatten(b') + last;
    }
  }

  lemma {:induction false} FlattenMember<T>(parts: seq<seq<T>>, x: T)
    ensures x in Flatten(parts) <==> exists i :: 0 <= i < |parts| && x in parts[i]
    decreases |parts|
  {
    if parts != [] {
      var n := |parts| - 1;
      FlattenMember(parts[..n], x);
      assert forall i :: 0 <= i < n ==> parts[..n][i] == parts[i];
    }
  }

  lemma {:induction false} FlattenEmpty<T>(parts: seq<seq<T>>)
    requires forall i :: 0 <= i < |parts| ==> parts[i] == []
    ensures Flatten(parts) == []
    decreases |parts|
  {
    if parts != [] {
      var n := |parts| - 1;
      assert forall i :: 0 <= i < n ==> parts[..n][i] == parts[i];
      FlattenEmpty(parts[..n]);
    }
  }

  /** What each fetcher contributes, in fetcher order. */
  function Contributions(clean: string -> string, since: DateTime, fetchers: seq<SourceFetcher>,
                         fetch: (SourceFetcher, DateTime) -> Outcome): (r: seq<seq<NewsletterItem>>)
    ensures |r| == |fetchers|
    ensures forall i :: 0 <= i < |fetchers| ==> r[i] == Contribution(clean, since, fetch(fetchers[i], since))
  {
    seq(|fetchers|, i requires 0 <= i < |fetchers| => Contribution(clean, since, fetch(fetchers[i], since)))
  }

  function Aggregated(clean: string -> string, since: DateTime, fetchers: seq<SourceFetcher>,
                      fetch: (SourceFetcher, DateTime) -> Outcome): seq<NewsletterItem>
  {
    Flatten(Contributions(clean, since, fetchers, fetch))
  }

  lemma ContributionsAppend(clean: string -> string, since: DateTime, a: seq<SourceFetcher>, b: seq<SourceFetcher>,
                            fetch: (SourceFetcher, DateTime) -> Outcome)
    ensures Contributions(clean, since, a + b, fetch) == Contributions(clean, since, a, fetch) + Contributions(clean, since, b, fetch)
  {
    var l := Contributions(clean, since, a + b, fetch);
    var r := Contributions(clean, since, a, fetch) + Contributions(clean, since, b, fetch);
    assert forall i :: 0 <= i < |a| ==> (a + b)[i] == a[i];
    assert forall i :: |a| <= i < |a + b| ==> (a + b)[i] == b[i - |a|];
    assert forall i :: 0 <= i < |l| ==> l[i] == r[i];
  }

  /** One log line per fetcher, in order. */
  function Reports(clean: string -> string, since: DateTime, fetchers: seq<SourceFetcher>,
                   fetch: (SourceFetcher, DateTime) -> Outcome): (r: seq<Report>)
    ensures |r| == |fetchers|
    ensures forall i :: 0 <= i < |fetchers| ==> r[i] == ReportOf(clean, since, fetchers[i], fetch(fetchers[i], since))
  {
    seq(|fetchers|, i requires 0 <= i < |fetchers| => ReportOf(clean, since, fetchers[i], fetch(fetchers[i], since)))
  }

  method Aggregate(clean: string -> string, fetchers: seq<SourceFetcher>, fetch: (SourceFetcher, DateTime) -> Outcome,
                   since: DateTime) returns (allItems: seq<NewsletterItem>, reports: seq<Report>)
    ensures allItems == Aggregated(clean, since, fetchers, fetch)
    ensures reports == Reports(clean, since, fetchers, fetch)
  {
    allItems, reports := [], [];
    var i := 0;
    while i < |fetchers|
      invariant 0 <= i <= |fetchers|
      invariant allItems == Aggregated(clean, since, fetchers[..i], fetch)
      invariant reports == Reports(clean, since, fetchers[..i], fetch)
    {
      var fetcher := fetchers[i];
      var items, report := FetchFrom(clean, fetcher, fetch(fetcher, since), since);
      AggregatedPrefix(clean, since, fetchers, fetch, i);
      ReportsPrefix(clean, since, fetchers, fetch, i);
      allItems := allItems + items;
      reports := reports + [report];
      i := i + 1;
    }
    assert fetchers[..i] == fetchers;
  }

  lemma ReportsPrefix(clean: string -> string, since: DateTime, fetchers: seq<SourceFetcher>,
                      fetch: (SourceFetcher, DateTime) -> Outcome, i: int)
    requires 0 <= i < |fetchers|
    ensures Reports(clean, since, fetchers[..i + 1], fetch) ==
      Reports(clean, since, fetchers[..i], fetch) + [ReportOf(clean, since, fetchers[i], fetch(fetchers[i], since))]
  {
    var r := Reports(clean, since, fetchers[..i + 1], fetch);
    var q := Reports(clean, since, fetchers[..i], fetch) + [ReportOf(clean, since, fetchers[i], fetch(fetchers[i], since))];
    assert forall j :: 0 <= j <= i ==> r[j] == q[j];
  }

  /** The body of the `try` for one fetcher, given what its `fetch` did. */
  method FetchFrom(clean: string -> string, fetcher: SourceFetcher, o: Outcome, since: DateTime)
    returns (items: seq<NewsletterItem>, report: Report)
    ensures items == Contribution(clean, since, o)
    ensures report == ReportOf(clean, since, fetcher, o)
  {
    match o {
      case Failed =>
        items := [];
        report := FailedFrom(FetcherName(fetcher));
      case Fetched(fetched) =>
        var filtered := FilterByDate(fetched, since);
        items := Normalized(clean, filtered);
        RecentIsNormalizedKept(clean, since, fetched);
        report := FetchedFrom(FetcherName(fetcher), |items|);
    }
  }

  lemma AggregatedPrefix(clean: string -> string, since: DateTime, fetchers: seq<SourceFetcher>,
                         fetch: (SourceFetcher, DateTime) -> Outcome, i: int)
    requires 0 <= i < |fetchers|
    ensures Aggregated(clean, since, fetchers[..i + 1], fetch) ==
      Aggregated(clean, since, fetchers[..i], fetch) + Contribution(clean, since, fetch(fetchers[i], since))
  {
    var parts := Contributions(clean, since, fetchers[..i + 1], fetch);
    assert parts[..i] == Contributions(clean, since, fetchers[..i], fetch);
  }

  /** The result is the in-order concatenation of the fetchers' contributions. */
  lemma AggregatedAppend(clean: string -> string, since: DateTime, a: seq<SourceFetcher>, b: seq<SourceFetcher>,
                         fetch: (SourceFetcher, DateTime) -> Outcome)
    ensures Aggregated(clean, since, a + b, fetch) == Aggregated(clean, since, a, fetch) + Aggregated(clean, since, b, fetch)
  {
    ContributionsAppend(clean, since, a, b, fetch);
    FlattenAppend(Contributions(clean, since, a, fetch), Contributions(clean, since, b, fetch));
  }

  /** A fetcher that raises contributes nothing and does not disturb the others. */
  lemma FailureIsolated(clean: string -> string, since: DateTime, a: seq<SourceFetcher>, f: SourceFetcher, b: seq<SourceFetcher>,
                        fetch: (SourceFetcher, DateTime) -> Outcome)
    requires fetch(f, since).Failed?
    ensures Aggregated(clean, since, a + [f] + b, fetch) == Aggregated(clean, since, a, fetch) + Aggregated(clean, since, b, fetch)
  {
    AggregatedAppend(clean, since, a + [f], b, fetch);
    AggregatedAppend(clean, since, a, [f], fetch);
    var single := Contributions(clean, since, [f], fetch);
    assert single[0] == [] && single[..0] == [];
    assert Aggregated(clean, since, [f], fetch) == Flatten(single[..0]) + single[0];
  }

  /** With no fetchers, or when all of them raise, the result is empty. */
  lemma AllFailed(clean: string -> string, since: DateTime, fetchers: seq<SourceFetcher>,
                  fetch: (SourceFetcher, DateTime) -> Outcome)
    requires forall i :: 0 <= i < |fetchers| ==> fetch(fetchers[i], since).Failed?
    ensures Aggregated(clean, since, fetchers, fetch) == []
  {
    FlattenEmpty(Contributions(clean, since, fetchers, fetch));
  }

  /** `x` came from fetcher output `o`: it is the normalisation of one of `o`'s items dated
      on or after `since`. */
  predicate FromOutcome(clean: string -> string, since: DateTime, o: Outcome, x: NewsletterItem) {
    o.Fetched? && exists y :: y in o.items && OnOrAfter(y.publishedDate, since) && x == NormalizeItem(clean, y)
  }

  lemma {:induction false} RecentMember(clean: string -> string, since: DateTime, items: seq<NewsletterItem>, x: NewsletterItem)
    ensures x in Recent(clean, since, items) <==> FromOutcome(clean, since, Fetched(items), x)
    decreases |items|
  {
    if items != [] {
      var init := items[..|items| - 1];
      var last := items[|items| - 1];
      RecentMember(clean, since, init, x);
      assert items == init + [last];
      if FromOutcome(clean, since, Fetched(items), x) {
        var y :| y in items && OnOrAfter(y.publishedDate, since) && x == NormalizeItem(clean, y);
        if y != last {
          assert y in init;
        }
      }
    }
  }

  lemma ContributionMember(clean: string -> string, since: DateTime, o: Outcome, x: NewsletterItem)
    ensures x in Contribution(clean, since, o) <==> FromOutcome(clean, since, o, x)
  {
    if o.Fetched? {
      RecentMember(clean, since, o.items, x);
    }
  }

  /** Every aggregated item is a cleaned, recent item of a fetcher that did not raise, and
      every such item is aggregated. */
  lemma AggregatedMember(clean: string -> string, since: DateTime, fetchers: seq<SourceFetcher>,
                         fetch: (SourceFetcher, DateTime) -> Outcome, x: NewsletterItem)
    ensures x in Aggregated(clean, since, fetchers, fetch) <==>
      exists i :: 0 <= i < |fetchers| && FromOutcome(clean, since, fetch(fetchers[i], since), x)
  {
    var parts := Contributions(clean, since, fetchers, fetch);
    FlattenMember(parts, x);
    forall i | 0 <= i < |fetchers|
      ensures x in parts[i] <==> FromOutcome(clean, since, fetch(fetchers[i], since), x)
    {
      ContributionMember(clean, since, fetch(fetchers[i], since), x);
    }
  }
}
