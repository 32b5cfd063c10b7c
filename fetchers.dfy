/**
 * The source fetchers of aggregator.py (`EmailFetcher`, `RSSFetcher`, `FileFetcher`) with
 * their network, feed-parser and file-system calls made abstract: each fetcher is
 * modelled from the point where those calls have produced plain values (a parsed feed
 * entry, a decoded e-mail, a file's text) to the `NewsletterItem` it builds.
 */
module Fetchers {
  import opened Wrappers
  import opened Text
  import opened DateTime
  import opened Models
  import opened Config
  import opened ContentParser

  /** A fetcher is its class together with the configuration it was built from. */
  datatype SourceFetcher =
    | EmailFetcher(email: EmailSourceConfig)
    | RssFetcher(rss: RssSourceConfig)
    | FileFetcher(file: FileSourceConfig)

  // ---------------------------------------------------------------------------
  // The date test every fetcher and the aggregator apply

  /** When exactly one of the two datetimes carries a timezone, that one has it dropped
      (`replace(tzinfo=None)`); otherwise both are compared as they are. */
  function Comparable(published: DateTime, since: DateTime): (r: (DateTime, DateTime))
    ensures Aware(r.0) == Aware(r.1)
    ensures Aware(published) == Aware(since) ==> r == (published, since)
    ensures Aware(published) != Aware(since) ==> r == (Naive(published), Naive(since))
  {
    if Aware(published) && !Aware(since) then (Naive(published), since)
    else if !Aware(published) && Aware(since) then (published, Naive(since))
    else (published, since)
  }

  /** `published >= since` after the timezone adjustment. */
  predicate OnOrAfter(published: DateTime, since: DateTime) {
    var (a, b) := Comparable(published, since);
    PyGe(a, b) == Some(true)
  }

  /** `published < since` after the timezone adjustment: the fetchers skip such items. */
  predicate Earlier(published: DateTime, since: DateTime) {
    var (a, b) := Comparable(published, since);
    PyLt(a, b) == Some(true)
  }

  /** The adjusted comparison never raises, and the fetchers' `<` skip and the
      aggregator's `>=` keep are complements. */
  lemma ComparisonDefined(published: DateTime, since: DateTime)
    ensures var (a, b) := Comparable(published, since); PyGe(a, b).Some? && PyLt(a, b).Some?
    ensures Earlier(published, since) <==> !OnOrAfter(published, since)
  {
    var (a, b) := Comparable(published, since);
    LtIsNotGe(a, b);
  }

  /** Read on the time line: two aware values compare by the instants they denote, and
      in every other case the wall clocks are compared. */
  lemma OnOrAfterTimeline(published: DateTime, since: DateTime)
    ensures Aware(published) && Aware(since) ==>
      (OnOrAfter(published, since) <==> UtcMicros(published) >= UtcMicros(since))
    ensures !(Aware(published) && Aware(since)) ==>
      (OnOrAfter(published, since) <==> WallMicros(published) >= WallMicros(since))
  {
    WallMicrosOrder(published, since);
    WallMicrosOrder(Naive(published), Naive(since));
    NaiveWall(published);
    NaiveWall(since);
  }

  lemma NaiveWall(d: DateTime)
    ensures WallMicros(Naive(d)) == WallMicros(d)
  {
    assert Ordinal(Naive(d)) == Ordinal(d);
    assert TimeOfDay(Naive(d)) == TimeOfDay(d);
  }

  /** An item dated exactly `since` is kept, whatever the two timezones. */
  lemma OnOrAfterSame(d: DateTime, since: DateTime)
    requires WallMicros(d) == WallMicros(since) && d.offset == since.offset
    ensures OnOrAfter(d, since)
  {
    OnOrAfterTimeline(d, since);
  }

  // ---------------------------------------------------------------------------
  // "The first field present, in a fixed order"

  function FirstSome<T>(xs: seq<Option<T>>): (r: Option<T>)
    ensures r.None? <==> forall i :: 0 <= i < |xs| ==> xs[i].None?
  {
    if xs == [] then None
    else if xs[0].Some? then xs[0]
    else
      assert forall i :: 1 <= i < |xs| ==> xs[i] == xs[1..][i - 1];
      FirstSome(xs[1..])
  }

  lemma FirstOfThree<T>(x: Option<T>, y: Option<T>, z: Option<T>)
    ensures FirstSome([x, y, z]) == if x.Some? then x else if y.Some? then y else z
  {
    assert [x, y, z][1..] == [y, z];
    assert [y, z][1..] == [z];
    assert [z][1..] == [];
    assert FirstSome([z]) == z;
    assert FirstSome([y, z]) == if y.Some? then y else z;
  }

  /** The result is the entry at the first present position. */
  lemma {:induction false} FirstSomeAt<T>(xs: seq<Option<T>>, k: int)
    requires 0 <= k < |xs| && xs[k].Some?
    requires forall j :: 0 <= j < k ==> xs[j].None?
    ensures FirstSome(xs) == xs[k]
  {
    if k > 0 {
      FirstSomeAt(xs[1..], k - 1);
    }
  }

  // ---------------------------------------------------------------------------
  // "The last matching part wins": the loops of `_extract_entry_content` and
  // `_get_email_body` overwrite an html and a text variable as they go.

  datatype Slot = HtmlSlot | TextSlot | NoSlot

  /** The pair (html, text) after walking `xs` from the left. */
  function LastWins<A>(xs: seq<A>, slot: A -> Slot, value: A -> string): (Option<string>, Option<string>)
    decreases |xs|
  {
    if xs == [] then (None, None)
    else
      var prev := LastWins(xs[..|xs| - 1], slot, value);
      var x := xs[|xs| - 1];
      match slot(x)
      case HtmlSlot => (Some(value(x)), prev.1)
      case TextSlot => (prev.0, Some(value(x)))
      case NoSlot => prev
  }

  function Picked(r: (Option<string>, Option<string>), s: Slot): Option<string> {
    if s == HtmlSlot then r.0 else r.1
  }

  /** Position `i` holds the last element of `xs` that goes to slot `s`. */
  predicate LastIn<A>(xs: seq<A>, slot: A -> Slot, s: Slot, i: int) {
    0 <= i < |xs| && slot(xs[i]) == s && forall j :: i < j < |xs| ==> slot(xs[j]) != s
  }

  /** A slot is filled exactly when some element goes to it, and then it holds the value of
      the last such element. */
  lemma {:induction false} LastWinsSpec<A>(xs: seq<A>, slot: A -> Slot, value: A -> string, s: Slot)
    requires s != NoSlot
    ensures Picked(LastWins(xs, slot, value), s).None? <==> forall i :: 0 <= i < |xs| ==> slot(xs[i]) != s
    ensures Picked(LastWins(xs, slot, value), s).Some? ==>
      exists i :: LastIn(xs, slot, s, i) && Picked(LastWins(xs, slot, value), s) == Some(value(xs[i]))
  {
    if xs != [] {
      var n := |xs| - 1;
      var init := xs[..n];
      LastWinsSpec(init, slot, value, s);
      LastWinsStep(xs, slot, value, s);
      assert forall i :: 0 <= i < n ==> xs[i] == init[i];
      if slot(xs[n]) == s {
        assert LastIn(xs, slot, s, n);
      } else if Picked(LastWins(init, slot, value), s).Some? {
        var i :| LastIn(init, slot, s, i) && Picked(LastWins(init, slot, value), s) == Some(value(init[i]));
        assert LastIn(xs, slot, s, i);
      }
    }
  }

  /** The effect of the last element on one slot. */
  lemma LastWinsStep<A>(xs: seq<A>, slot: A -> Slot, value: A -> string, s: Slot)
    requires s != NoSlot && xs != []
    ensures var x := xs[|xs| - 1];
      Picked(LastWins(xs, slot, value), s) ==
        if slot(x) == s then Some(value(x)) else Picked(LastWins(xs[..|xs| - 1], slot, value), s)
  {
  }

  /** An element that goes to no slot can be dropped without changing the outcome. */
  lemma {:induction false} LastWinsSkip<A>(a: seq<A>, x: A, b: seq<A>, slot: A -> Slot, value: A -> string)
    requires slot(x) == NoSlot
    ensures LastWins(a + [x] + b, slot, value) == LastWins(a + b, slot, value)
    decreases |b|
  {
    if b == [] {
      assert (a + [x] + b)[..|a + [x] + b| - 1] == a;
      assert a + b == a;
    } else {
      var b' := b[..|b| - 1];
      LastWinsSkip(a, x, b', slot, value);
      assert (a + [x] + b)[..|a + [x] + b| - 1] == a + [x] + b';
      assert (a + b)[..|a + b| - 1] == a + b';
    }
  }

  /** Python's truth value of `str | None`. */
  predicate Present(o: Option<string>) { o.Some? && o.value != "" }

  predicate LooksLikeHtml(s: string) { HasChar(s, '<') && HasChar(s, '>') }

  // ---------------------------------------------------------------------------
  // RSS entries, as the feed parser hands them over

  /** One element of `entry.content`, or `entry.summary_detail`; missing keys read as "". */
  datatype ContentItem = ContentItem(kind: string, value: string)

  /** The first element of `entry.authors`. */
  datatype AuthorEntry = AuthorDict(name: string) | AuthorText(text: string) | AuthorOther

  /** `time.struct_time` as produced by the feed parser. */
  datatype StructTime = StructTime(fields: seq<int>)

  /**
   * A feed entry.  String fields read through `entry.get(key, "")` hold "" when the key is
   * absent; a `None` summary or description is falsy and reads like "".  A `None` title is
   * not represented: `.strip()` raises on it and the per-entry handler skips the entry.
   * `summaryDetail` is `None` for a missing or empty dictionary and `authorDetailName` is ""
   * when `author_detail` or its name is missing.
   */
  datatype RssEntry = RssEntry(
    title: string,
    content: seq<ContentItem>,
    summaryDetail: Option<ContentItem>,
    description: string,
    summary: string,
    author: string,
    authorDetailName: string,
    authors: seq<AuthorEntry>,
    link: Option<string>,
    publishedParsed: Option<StructTime>,
    updatedParsed: Option<StructTime>,
    createdParsed: Option<StructTime>,
    published: string,
    updated: string,
    created: string)

  /** The two foreign date conversions: `utcfromtimestamp(timegm(t))` and
      `_parse_date_string`; `None` is a raised conversion error or no match. */
  datatype DateParsers = DateParsers(
    fromStruct: StructTime -> Option<DateTime>,
    fromString: string -> Option<DateTime>)

  // `_extract_entry_content`

  function ContentSlot(c: ContentItem): Slot {
    if Contains(Lower(c.kind), "html") then HtmlSlot
    else if Contains(Lower(c.kind), "text") || c.kind == "" then
      (if LooksLikeHtml(c.value) then HtmlSlot else TextSlot)
    else NoSlot
  }

  function ContentValue(c: ContentItem): string { c.value }

  /** Something was found: `html_content or text_content`. */
  predicate Found(r: (Option<string>, Option<string>)) { Present(r.0) || Present(r.1) }

  function SummaryDetailStep(r: (Option<string>, Option<string>), d: Option<ContentItem>): (Option<string>, Option<string>) {
    if d.None? || d.value.value == "" then r
    else if Contains(Lower(d.value.kind), "html") || LooksLikeHtml(d.value.value) then (Some(d.value.value), r.1)
    else (r.0, Some(d.value.value))
  }

  function DescriptionStep(r: (Option<string>, Option<string>), description: string): (Option<string>, Option<string>) {
    if description == "" then r
    else if LooksLikeHtml(description) then (Some(description), r.1)
    else (r.0, Some(description))
  }

  /** The (html, text) pair: the content list first, then `summary_detail`, then
      `description`, each consulted only when the earlier ones found nothing. */
  function EntryContent(e: RssEntry): (Option<string>, Option<string>) {
    var fromList := LastWins(e.content, ContentSlot, ContentValue);
    var fromSummary := if Found(fromList) then fromList else SummaryDetailStep(fromList, e.summaryDetail);
    if Found(fromSummary) then fromSummary else DescriptionStep(fromSummary, e.description)
  }

  method ExtractEntryContent(e: RssEntry) returns (html: Option<string>, text: Option<string>)
    ensures (html, text) == EntryContent(e)
  {
    html, text := None, None;
    var i := 0;
    while i < |e.content|
      invariant 0 <= i <= |e.content|
      invariant (html, text) == LastWins(e.content[..i], ContentSlot, ContentValue)
    {
      var item := e.content[i];
      assert e.content[..i + 1][..i] == e.content[..i];
      if Contains(Lower(item.kind), "html") {
        html := Some(item.value);
      } else if Contains(Lower(item.kind), "text") || item.kind == "" {
        if HasChar(item.value, '<') && HasChar(item.value, '>') {
          html := Some(item.value);
        } else {
          text := Some(item.value);
        }
      }
      i := i + 1;
    }
    assert e.content[..i] == e.content;
    if !Present(html) && !Present(text) {
      var d := e.summaryDetail;
      if d.Some? && d.value.value != "" {
        if Contains(Lower(d.value.kind), "html") || LooksLikeHtml(d.value.value) {
          html := Some(d.value.value);
        } else {
          text := Some(d.value.value);
        }
      }
    }
    if !Present(html) && !Present(text) {
      if e.description != "" {
        if LooksLikeHtml(e.description) {
          html := Some(e.description);
        } else {
          text := Some(e.description);
        }
      }
    }
  }

  /** An entry with no content list, summary detail or description gives `(None, None)`. */
  lemma EntryContentEmpty(e: RssEntry)
    requires e.content == [] && e.summaryDetail.None? && e.description == ""
    ensures EntryContent(e) == (None, None)
  {
  }

  /** When the content list yields html or text, the later fields are never consulted; the
      html slot then holds the last html-like element of the list. */
  lemma EntryContentFromList(e: RssEntry)
    requires Found(LastWins(e.content, ContentSlot, ContentValue))
    ensures EntryContent(e) == LastWins(e.content, ContentSlot, ContentValue)
    ensures EntryContent(e).0.Some? ==>
      exists i :: LastIn(e.content, ContentSlot, HtmlSlot, i) && EntryContent(e).0 == Some(e.content[i].value)
  {
    LastWinsSpec(e.content, ContentSlot, ContentValue, HtmlSlot);
  }

  /** A content list with no html- or text-typed element leaves the choice to
      `summary_detail` and `description`, in that order. */
  lemma EntryContentFallback(e: RssEntry)
    requires forall i :: 0 <= i < |e.content| ==> ContentSlot(e.content[i]) == NoSlot
    ensures e.summaryDetail.Some? && e.summaryDetail.value.value != "" ==>
      EntryContent(e) == SummaryDetailStep((None, None), e.summaryDetail)
    ensures (e.summaryDetail.None? || e.summaryDetail.value.value == "") ==>
      EntryContent(e) == DescriptionStep((None, None), e.description)
  {
    LastWinsSpec(e.content, ContentSlot, ContentValue, HtmlSlot);
    LastWinsSpec(e.content, ContentSlot, ContentValue, TextSlot);
  }

  // `_extract_author`

  function AuthorField(s: string): Option<string> {
    if s != "" then Some(Strip(s)) else None
  }

  function AuthorListField(authors: seq<AuthorEntry>): Option<string> {
    if authors == [] then None
    else match authors[0]
      case AuthorDict(name) => AuthorField(name)
      case AuthorText(t) => Some(Strip(t))
      case AuthorOther => None
  }

  /** `author`, then `author_detail.name`, then the first of `authors`, each stripped. */
  function ExtractAuthor(e: RssEntry): (r: Option<string>)
    ensures r == FirstSome([AuthorField(e.author), AuthorField(e.authorDetailName), AuthorListField(e.authors)])
    ensures r.Some? ==> Stripped(r.value)
    ensures e.author == "" && e.authorDetailName == "" && e.authors == [] ==> r == None
  {
    FirstOfThree(AuthorField(e.author), AuthorField(e.authorDetailName), AuthorListField(e.authors));
    if e.author != "" then StripIsStripped(e.author); Some(Strip(e.author))
    else if e.authorDetailName != "" then StripIsStripped(e.authorDetailName); Some(Strip(e.authorDetailName))
    else if e.authors != [] then
      match e.authors[0]
      case AuthorDict(name) => if name != "" then StripIsStripped(name); Some(Strip(name)) else None
      case AuthorText(t) => StripIsStripped(t); Some(Strip(t))
      case AuthorOther => None
    else None
  }

  lemma StripIsStripped(s: string)
    ensures Stripped(Strip(s))
  {
    var _, _ := StripIsSlice(s);
  }

  // `_parse_entry_date`

  function StructAttempt(t: Option<StructTime>, parsers: DateParsers): Option<DateTime> {
    if t.None? then None else parsers.fromStruct(t.value)
  }

  function StringAttempt(s: string, parsers: DateParsers): Option<DateTime> {
    if s == "" then None else parsers.fromString(s)
  }

  /** The six attempts in the order the code makes them. */
  function DateAttempts(e: RssEntry, parsers: DateParsers): (xs: seq<Option<DateTime>>)
    ensures |xs| == 6
  {
    [StructAttempt(e.publishedParsed, parsers), StructAttempt(e.updatedParsed, parsers),
     StructAttempt(e.createdParsed, parsers), StringAttempt(e.published, parsers),
     StringAttempt(e.updated, parsers), StringAttempt(e.created, parsers)]
  }

  function ParseEntryDate(e: RssEntry, parsers: DateParsers): (r: Option<DateTime>)
    ensures r.None? <==> forall i :: 0 <= i < 6 ==> DateAttempts(e, parsers)[i].None?
  {
    FirstSome(DateAttempts(e, parsers))
  }

  /** A struct-time field that converts takes precedence over everything after it, and
      the string fields are consulted only when every struct-time field is missing or
      fails to convert. */
  lemma ParseEntryDateOrder(e: RssEntry, parsers: DateParsers, k: int)
    requires 0 <= k < 6 && DateAttempts(e, parsers)[k].Some?
    requires forall j :: 0 <= j < k ==> DateAttempts(e, parsers)[j].None?
    ensures ParseEntryDate(e, parsers) == DateAttempts(e, parsers)[k]
  {
    FirstSomeAt(DateAttempts(e, parsers), k);
  }

  lemma PublishedParsedWins(e: RssEntry, parsers: DateParsers, d: DateTime)
    requires e.publishedParsed.Some? && parsers.fromStruct(e.publishedParsed.value) == Some(d)
    ensures ParseEntryDate(e, parsers) == Some(d)
  {
    ParseEntryDateOrder(e, parsers, 0);
  }

  lemma StringFallback(e: RssEntry, parsers: DateParsers, d: DateTime)
    requires e.publishedParsed.None? && e.updatedParsed.None? && e.createdParsed.None?
    requires e.published != "" && parsers.fromString(e.published) == Some(d)
    ensures ParseEntryDate(e, parsers) == Some(d)
  {
    ParseEntryDateOrder(e, parsers, 3);
  }

  // The RSS item

  /** `entry.get("title", "").strip() or "(No Title)"`. */
  function RssTitle(raw: string): (t: string)
    ensures t != ""
    ensures Strip(raw) != "" ==> t == Strip(raw)
    ensures Blank(raw) ==> t == "(No Title)"
  {
    StripEmpty(raw);
    var s := Strip(raw);
    if s == "" then "(No Title)" else s
  }

  /** The item's (content, html_content): html is extracted and cleaned, plain text is
      cleaned, and with neither the summary is extracted and kept as html when it holds a
      `<`. */
  function RssContent(p: ContentParser, html: Option<string>, text: Option<string>, summary: string): (r: (string, Option<string>))
    ensures Shaped(r.0)
    ensures Present(html) ==> r == (Cleaned(p, ExtractText(p, html.value)), html)
    ensures !Present(html) && Present(text) ==> r == (Cleaned(p, text.value), html)
    ensures !Present(html) && !Present(text) && summary == "" ==> r == ("", html)
    ensures !Present(html) && !Present(text) && summary != "" ==>
      r == (Cleaned(p, ExtractText(p, summary)), if HasChar(summary, '<') then Some(summary) else None)
  {
    if Present(html) then
      CleanedShape(p, ExtractText(p, html.value));
      (Cleaned(p, ExtractText(p, html.value)), html)
    else if Present(text) then
      CleanedShape(p, text.value);
      (Cleaned(p, text.value), html)
    else if summary != "" then
      CleanedShape(p, ExtractText(p, summary));
      (Cleaned(p, ExtractText(p, summary)), if HasChar(summary, '<') then Some(summary) else None)
    else
      CleanedShape(p, "");
      assert Cleaned(p, "") == "";
      ("", html)
  }

  /** One feed entry; `None` when it is dated before `since`.  An entry without a usable
      date takes `now`. */
  function RssItem(p: ContentParser, parsers: DateParsers, config: RssSourceConfig,
                   now: DateTime, since: DateTime, e: RssEntry): (r: Option<NewsletterItem>)
    ensures r.None? <==> Earlier(ParseEntryDate(e, parsers).GetOr(now), since)
    ensures r.Some? ==> r.value.sourceType == "rss" && r.value.sourceName == config.name
    ensures r.Some? ==> r.value.title != "" && Shaped(r.value.content)
    ensures r.Some? ==> r.value.author == ExtractAuthor(e) && r.value.url == e.link
    ensures r.Some? ==> r.value.publishedDate == ParseEntryDate(e, parsers).GetOr(now) && r.value.title == RssTitle(e.title)
    ensures r.Some? ==>
      (r.value.content, r.value.htmlContent) == RssContent(p, EntryContent(e).0, EntryContent(e).1, e.summary)
  {
    var published := ParseEntryDate(e, parsers).GetOr(now);
    if Earlier(published, since) then None
    else
      var (html, text) := EntryContent(e);
      var (content, htmlOut) := RssContent(p, html, text, e.summary);
      Some(NewsletterItem(config.name, "rss", RssTitle(e.title), content, published, htmlOut, ExtractAuthor(e), e.link))
  }

  // ---------------------------------------------------------------------------
  // E-mail: `_get_email_body`

  /** One part of `message.walk()`, with its decoded payload (`None` when there is none). */
  datatype MimePart = MimePart(contentType: string, disposition: string, payload: Option<string>)

  datatype EmailMessage =
    | Multipart(parts: seq<MimePart>)
    | Singlepart(contentType: string, payload: Option<string>)

  function PartSlot(part: MimePart): Slot {
    if Contains(part.disposition, "attachment") || part.payload.None? then NoSlot
    else if part.contentType == "text/html" then HtmlSlot
    else if part.contentType == "text/plain" then TextSlot
    else NoSlot
  }

  function PartText(part: MimePart): string { part.payload.GetOr("") }

  /** (html, text) of a message: the last html and the last plain part that is not an
      attachment; a single-part message is html exactly when its type says so. */
  function EmailBody(m: EmailMessage): (Option<string>, Option<string>) {
    match m
    case Multipart(parts) => LastWins(parts, PartSlot, PartText)
    case Singlepart(t, payload) =>
      if payload.None? then (None, None)
      else if t == "text/html" then (payload, None)
      else (None, payload)
  }

  method GetEmailBody(m: EmailMessage) returns (html: Option<string>, text: Option<string>)
    ensures (html, text) == EmailBody(m)
  {
    html, text := None, None;
    match m
    case Multipart(parts) =>
      var i := 0;
      while i < |parts|
        invariant 0 <= i <= |parts|
        invariant (html, text) == LastWins(parts[..i], PartSlot, PartText)
      {
        var part := parts[i];
        assert parts[..i + 1][..i] == parts[..i];
        if !Contains(part.disposition, "attachment") && part.payload.Some? {
          if part.contentType == "text/html" {
            html := part.payload;
          } else if part.contentType == "text/plain" {
            text := part.payload;
          }
        }
        i := i + 1;
      }
      assert parts[..i] == parts;
    case Singlepart(t, payload) =>
      if payload.Some? {
        if t == "text/html" {
          html := payload;
        } else {
          text := payload;
        }
      }
  }

  /** A multipart message's html (and likewise its text) is present exactly when some
      non-attachment html part has a payload, and is then the last such part's. */
  lemma EmailBodyLastPart(parts: seq<MimePart>, s: Slot)
    requires s != NoSlot
    ensures Picked(EmailBody(Multipart(parts)), s).None? <==> forall i :: 0 <= i < |parts| ==> PartSlot(parts[i]) != s
    ensures Picked(EmailBody(Multipart(parts)), s).Some? ==>
      exists i :: LastIn(parts, PartSlot, s, i) && Picked(EmailBody(Multipart(parts)), s) == parts[i].payload
  {
    LastWinsSpec(parts, PartSlot, PartText, s);
  }

  /** Attachments are ignored wherever they sit. */
  lemma EmailAttachmentIgnored(a: seq<MimePart>, att: MimePart, b: seq<MimePart>)
    requires Contains(att.disposition, "attachment")
    ensures EmailBody(Multipart(a + [att] + b)) == EmailBody(Multipart(a + b))
  {
    LastWinsSkip(a, att, b, PartSlot, PartText);
  }

  /** An e-mail after the IMAP fetch: decoded subject and sender, the parsed `Date` header
      (`None` when it does not parse) and the message. */
  datatype RawEmail = RawEmail(subject: string, fromAddr: string, date: Option<DateTime>, message: EmailMessage)

  /** The e-mail item: html bodies are extracted and cleaned, otherwise the plain text (or
      "") is cleaned. */
  function EmailItem(p: ContentParser, config: EmailSourceConfig, now: DateTime, since: DateTime, m: RawEmail): (r: Option<NewsletterItem>)
    ensures r.None? <==> Earlier(m.date.GetOr(now), since)
    ensures r.Some? ==> r.value.sourceName == "Email: " + config.host && r.value.sourceType == "email"
    ensures r.Some? ==> r.value.title != "" && r.value.url.None? && Shaped(r.value.content)
    ensures r.Some? ==> (r.value.htmlContent.Some? <==> Present(EmailBody(m.message).0))
    ensures r.Some? ==> (r.value.author.None? <==> m.fromAddr == "")
    ensures r.Some? ==> r.value.publishedDate == m.date.GetOr(now)
    ensures r.Some? ==> r.value.title == (if m.subject == "" then "(No Subject)" else m.subject)
    ensures r.Some? ==> m.fromAddr != "" ==> r.value.author == Some(m.fromAddr)
    ensures r.Some? && Present(EmailBody(m.message).0) ==>
      var html := EmailBody(m.message).0.value;
      r.value.content == Cleaned(p, ExtractText(p, html)) && r.value.htmlContent == Some(html)
    ensures r.Some? && !Present(EmailBody(m.message).0) ==>
      r.value.content == Cleaned(p, EmailBody(m.message).1.GetOr("")) && r.value.htmlContent.None?
  {
    var published := m.date.GetOr(now);
    if Earlier(published, since) then None
    else
      var (bodyHtml, bodyText) := EmailBody(m.message);
      var content := if Present(bodyHtml) then Cleaned(p, ExtractText(p, bodyHtml.value)) else Cleaned(p, bodyText.GetOr(""));
      CleanedShape(p, ExtractText(p, bodyHtml.GetOr("")));
      CleanedShape(p, bodyText.GetOr(""));
      Some(NewsletterItem(
        "Email: " + config.host, "email",
        if m.subject == "" then "(No Subject)" else m.subject,
        content, published,
        if Present(bodyHtml) then bodyHtml else None,
        if m.fromAddr == "" then None else Some(m.fromAddr),
        None))
  }

  // ---------------------------------------------------------------------------
  // Files: `FileFetcher._read_file` and the item built from it

  predicate IsHtmlSuffix(suffix: string) {
    Lower(suffix) == ".html" || Lower(suffix) == ".htm"
  }

  /** (content, html_content) of a file with the given suffix and text; `None` is a file
      that could not be read. */
  function ReadFile(p: ContentParser, suffix: string, raw: Option<string>): (r: (string, Option<string>))
    ensures raw.None? || Blank(raw.value) ==> r == ("", None)
    ensures raw.Some? && !Blank(raw.value) ==> (r.1.Some? <==> IsHtmlSuffix(suffix))
    ensures r.1.Some? ==> r.1 == raw && r.0 == Cleaned(p, ExtractText(p, raw.value))
    ensures raw.Some? && !IsHtmlSuffix(suffix) ==> r.0 == Cleaned(p, raw.value)
  {
    if raw.None? then ("", None)
    else
      StripEmpty(raw.value);
      if |Strip(raw.value)| == 0 then ("", None)
      else if IsHtmlSuffix(suffix) then (Cleaned(p, ExtractText(p, raw.value)), raw)
      else (Cleaned(p, raw.value), None)
  }

  /** Whatever the file, its content has the shape `clean_content` guarantees. */
  lemma ReadFileShaped(p: ContentParser, suffix: string, raw: Option<string>)
    ensures Shaped(ReadFile(p, suffix, raw).0)
  {
    CleanedShape(p, "");
    assert Cleaned(p, "") == "";
    if raw.Some? {
      CleanedShape(p, raw.value);
      CleanedShape(p, ExtractText(p, raw.value));
    }
  }

  /** A path matched by the glob, with what `stat` and `read_text` said about it. */
  datatype FileEntry = FileEntry(
    isDir: bool, stem: string, suffix: string, absolutePath: string,
    mtime: DateTime, raw: Option<string>)

  /** A matched path becomes an item unless it is a directory, is older than `since`, or
      yields neither content nor html. */
  function FileItem(p: ContentParser, config: FileSourceConfig, since: DateTime, f: FileEntry): (r: Option<NewsletterItem>)
    ensures r.None? <==> f.isDir || Earlier(f.mtime, since) || ReadFile(p, f.suffix, f.raw) == ("", None)
    ensures r.Some? ==> r.value.sourceName == "File: " + config.path && r.value.sourceType == "file"
    ensures r.Some? ==> r.value.title == f.stem && r.value.url == Some(f.absolutePath) && r.value.author.None?
    ensures r.Some? ==> (r.value.content, r.value.htmlContent) == ReadFile(p, f.suffix, f.raw)
    ensures r.Some? ==> r.value.publishedDate == f.mtime
  {
    if f.isDir || Earlier(f.mtime, since) then None
    else
      var (content, html) := ReadFile(p, f.suffix, f.raw);
      if content == "" && html.None? then None
      else Some(NewsletterItem("File: " + config.path, "file", f.stem, content, f.mtime, html, None, Some(f.absolutePath)))
  }

  /** A readable file with non-blank text always yields an item when it is recent enough,
      unless it is a plain-text file whose text cleans away to nothing. */
  lemma FileKept(p: ContentParser, config: FileSourceConfig, since: DateTime, f: FileEntry)
    requires !f.isDir && !Earlier(f.mtime, since) && f.raw.Some? && !Blank(f.raw.value)
    ensures FileItem(p, config, since, f).Some? <==> IsHtmlSuffix(f.suffix) || Cleaned(p, f.raw.value) != ""
  {
  }

  // ---------------------------------------------------------------------------
  // The loop each `fetch` runs over its entries

  /** The items of the entries that produce one, in order. */
  function Collected<A>(xs: seq<A>, toItem: A -> Option<NewsletterItem>): (r: seq<NewsletterItem>)
    ensures |r| <= |xs|
    decreases |xs|
  {
    if xs == [] then []
    else
      var last := toItem(xs[|xs| - 1]);
      Collected(xs[..|xs| - 1], toItem) + (if last.Some? then [last.value] else [])
  }

  method Collect<A>(xs: seq<A>, toItem: A -> Option<NewsletterItem>) returns (items: seq<NewsletterItem>)
    ensures items == Collected(xs, toItem)
  {
    items := [];
    var i := 0;
    while i < |xs|
      invariant 0 <= i <= |xs|
      invariant items == Collected(xs[..i], toItem)
    {
      assert xs[..i + 1][..i] == xs[..i];
      var item := toItem(xs[i]);
      if item.Some? {
        items := items + [item.value];
      }
      i := i + 1;
    }
    assert xs[..i] == xs;
  }

  /** An item is collected exactly when some entry produces it. */
  lemma {:induction false} CollectedMember<A>(xs: seq<A>, toItem: A -> Option<NewsletterItem>, y: NewsletterItem)
    ensures y in Collected(xs, toItem) <==> exists i :: 0 <= i < |xs| && toItem(xs[i]) == Some(y)
    decreases |xs|
  {
    if xs != [] {
      var init := xs[..|xs| - 1];
      CollectedMember(init, toItem, y);
      assert forall i :: 0 <= i < |init| ==> xs[i] == init[i];
      if exists i :: 0 <= i < |xs| && toItem(xs[i]) == Some(y) {
        var i :| 0 <= i < |xs| && toItem(xs[i]) == Some(y);
        if i < |init| {
          assert toItem(init[i]) == Some(y);
        }
      }
    }
  }
}
