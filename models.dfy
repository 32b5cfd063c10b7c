/**
 * The data model (models.py) with its `to_dict` / `from_dict` pairs.  Datetimes travel
 * as `isoformat` strings.
 */
module Models {
  import opened Wrappers
  import opened Json
  import opened DateTime

  /** `datetime.fromisoformat(data[key])`. */
  function GetDate(d: Dict, key: string): (r: Result<DateTime, DecodeError>)
    ensures key !in d ==> r == Err(MissingKey(key))
    ensures r.Ok? ==> key in d && d[key].JStr? && FromIsoFormat(d[key].s) == Some(r.value)
  {
    var s :- GetStr(d, key);
    match FromIsoFormat(s)
    case None => Err(BadValue(key))
    case Some(t) => Ok(t)
  }

  lemma GetDateOf(d: Dict, key: string, t: DateTime)
    requires key in d && d[key] == JStr(IsoFormat(t))
    ensures GetDate(d, key) == Ok(t)
  {
    IsoRoundTrip(t);
  }

  // ---------------------------------------------------------------------------
  // NewsletterItem

  datatype NewsletterItem = NewsletterItem(
    sourceName: string,
    sourceType: string,
    title: string,
    content: string,
    publishedDate: DateTime,
    htmlContent: Option<string>,
    author: Option<string>,
    url: Option<string>)
  {
    function ToDict(): Dict {
      map[
        "source_name" := JStr(sourceName),
        "source_type" := JStr(sourceType),
        "title" := JStr(title),
        "content" := JStr(content),
        "published_date" := JStr(IsoFormat(publishedDate)),
        "html_content" := OptStr(htmlContent),
        "author" := OptStr(author),
        "url" := OptStr(url)]
    }

    /** The five required keys must be present; the three optional ones default to `None`. */
    static function FromDict(d: Dict): (r: Result<NewsletterItem, DecodeError>)
      ensures "source_name" !in d ==> r == Err(MissingKey("source_name"))
      ensures r.Ok? ==> {"source_name", "source_type", "title", "content", "published_date"} <= d.Keys
      ensures r.Ok? && "html_content" !in d ==> r.value.htmlContent == None
      ensures r.Ok? && "author" !in d ==> r.value.author == None
      ensures r.Ok? && "url" !in d ==> r.value.url == None
    {
      var sourceName :- GetStr(d, "source_name");
      var sourceType :- GetStr(d, "source_type");
      var title :- GetStr(d, "title");
      var content :- GetStr(d, "content");
      var publishedDate :- GetDate(d, "published_date");
      var htmlContent :- GetOptStr(d, "html_content");
      var author :- GetOptStr(d, "author");
      var url :- GetOptStr(d, "url");
      Ok(NewsletterItem(sourceName, sourceType, title, content, publishedDate, htmlContent, author, url))
    }
  }

  lemma GetOptStrOf(d: Dict, key: string, o: Option<string>)
    requires key in d && d[key] == OptStr(o)
    ensures GetOptStr(d, key) == Ok(o)
  {
  }

  /** `NewsletterItem.from_dict(item.to_dict()) == item`. */
  lemma ItemRoundTrip(x: NewsletterItem)
    ensures NewsletterItem.FromDict(x.ToDict()) == Ok(x)
  {
    var d := x.ToDict();
    assert GetStr(d, "source_name") == Ok(x.sourceName);
    assert GetStr(d, "source_type") == Ok(x.sourceType);
    assert GetStr(d, "title") == Ok(x.title);
    assert GetStr(d, "content") == Ok(x.content);
    GetDateOf(d, "published_date", x.publishedDate);
    GetOptStrOf(d, "html_content", x.htmlContent);
    GetOptStrOf(d, "author", x.author);
    GetOptStrOf(d, "url", x.url);
  }

  function ItemToDict(x: NewsletterItem): Dict { x.ToDict() }

  function ItemFromDict(d: Dict): Result<NewsletterItem, DecodeError> { NewsletterItem.FromDict(d) }

  lemma ItemsRoundTrip(xs: seq<NewsletterItem>, key: string)
    ensures DecodeList(EncodeList(xs, ItemToDict), key, ItemFromDict) == Ok(xs)
  {
    forall i | 0 <= i < |xs| ensures ItemFromDict(ItemToDict(xs[i])) == Ok(xs[i]) {
      ItemRoundTrip(xs[i]);
    }
    DecodeEncodeList(xs, key, ItemToDict, ItemFromDict);
  }

  // ---------------------------------------------------------------------------
  // TopicGroup

  datatype TopicGroup = TopicGroup(
    topic: string,
    description: string,
    items: seq<NewsletterItem>,
    keyPoints: seq<string>)
  {
    function ToDict(): Dict {
      map[
        "topic" := JStr(topic),
        "description" := JStr(description),
        "items" := EncodeList(items, ItemToDict),
        "key_points" := StrList(keyPoints)]
    }

    static function FromDict(d: Dict): (r: Result<TopicGroup, DecodeError>)
      ensures r.Ok? ==> {"topic", "description", "items", "key_points"} <= d.Keys
      ensures r.Ok? ==> d["items"].JList? && |r.value.items| == |d["items"].items|
    {
      var topic :- GetStr(d, "topic");
      var description :- GetStr(d, "description");
      if "items" !in d then Err(MissingKey("items"))
      else
        var items :- DecodeList(d["items"], "items", ItemFromDict);
        var keyPoints :- GetStrList(d, "key_points");
        Ok(TopicGroup(topic, description, items, keyPoints))
    }
  }

  /** A topic group round-trips together with its items and key points. */
  lemma TopicRoundTrip(x: TopicGroup)
    ensures TopicGroup.FromDict(x.ToDict()) == Ok(x)
  {
    ItemsRoundTrip(x.items, "items");
    AsStrListOf(x.keyPoints, "key_points");
  }

  function TopicToDict(x: TopicGroup): Dict { x.ToDict() }

  function TopicFromDict(d: Dict): Result<TopicGroup, DecodeError> { TopicGroup.FromDict(d) }

  // ---------------------------------------------------------------------------
  // SynthesizedContent

  datatype SynthesizedContent = SynthesizedContent(
    topics: seq<TopicGroup>,
    overallSummary: string,
    trendingThemes: seq<string>,
    sourceCount: int,
    dateRange: (DateTime, DateTime))
  {
    function ToDict(): Dict {
      map[
        "topics" := EncodeList(topics, TopicToDict),
        "overall_summary" := JStr(overallSummary),
        "trending_themes" := StrList(trendingThemes),
        "source_count" := JInt(sourceCount),
        "date_range" := JList([JStr(IsoFormat(dateRange.0)), JStr(IsoFormat(dateRange.1))])]
    }

    static function FromDict(d: Dict): (r: Result<SynthesizedContent, DecodeError>)
      ensures r.Ok? ==> {"topics", "overall_summary", "trending_themes", "source_count", "date_range"} <= d.Keys
      ensures r.Ok? ==> d["date_range"].JList? && |d["date_range"].items| >= 2
    {
      if "topics" !in d then Err(MissingKey("topics"))
      else
        var topics :- DecodeList(d["topics"], "topics", TopicFromDict);
        var overallSummary :- GetStr(d, "overall_summary");
        var trendingThemes :- GetStrList(d, "trending_themes");
        var sourceCount :- GetInt(d, "source_count");
        var dateRange :- GetDateRange(d);
        Ok(SynthesizedContent(topics, overallSummary, trendingThemes, sourceCount, dateRange))
    }
  }

  /** `(fromisoformat(data["date_range"][0]), fromisoformat(data["date_range"][1]))`,
      evaluated left to right: element 0 is read and parsed before element 1 is indexed,
      and elements past the second are never looked at. */
  function GetDateRange(d: Dict): (r: Result<(DateTime, DateTime), DecodeError>)
    ensures r.Ok? <==> (
      && "date_range" in d && d["date_range"].JList? && |d["date_range"].items| >= 2
      && d["date_range"].items[0].JStr? && FromIsoFormat(d["date_range"].items[0].s).Some?
      && d["date_range"].items[1].JStr? && FromIsoFormat(d["date_range"].items[1].s).Some?)
    ensures r.Ok? ==> (
      && Some(r.value.0) == FromIsoFormat(d["date_range"].items[0].s)
      && Some(r.value.1) == FromIsoFormat(d["date_range"].items[1].s))
    ensures "date_range" in d && d["date_range"].JList? && |d["date_range"].items| >= 1 ==>
      var x := d["date_range"].items[0];
      (!x.JStr? ==> r == Err(WrongType("date_range"))) &&
      (x.JStr? && FromIsoFormat(x.s).None? ==> r == Err(BadValue("date_range")))
  {
    var key := "date_range";
    if key !in d then Err(MissingKey(key))
    else match d[key]
      case JList(xs) =>
        if |xs| == 0 then Err(BadIndex(key))
        else if !xs[0].JStr? then Err(WrongType(key))
        else if FromIsoFormat(xs[0].s).None? then Err(BadValue(key))
        else if |xs| == 1 then Err(BadIndex(key))
        else if !xs[1].JStr? then Err(WrongType(key))
        else if FromIsoFormat(xs[1].s).None? then Err(BadValue(key))
        else Ok((FromIsoFormat(xs[0].s).value, FromIsoFormat(xs[1].s).value))
      // A string's first element is one character, which never parses as a datetime.
      case JStr(s) => if |s| == 0 then Err(BadIndex(key)) else Err(BadValue(key))
      case JObject(_) => Err(MissingKey(key))
      case _ => Err(WrongType(key))
  }

  /** The topics of synthesized content decode back from their encoding. */
  lemma SynthesizedTopics(x: SynthesizedContent)
    ensures "topics" in x.ToDict() && DecodeList(x.ToDict()["topics"], "topics", TopicFromDict) == Ok(x.topics)
  {
    var d := x.ToDict();
    assert d["topics"] == EncodeList(x.topics, TopicToDict);
    forall i | 0 <= i < |x.topics| ensures TopicFromDict(TopicToDict(x.topics[i])) == Ok(x.topics[i]) {
      TopicRoundTrip(x.topics[i]);
    }
    DecodeEncodeList(x.topics, "topics", TopicToDict, TopicFromDict);
  }

  /** The other fields of synthesized content read back as written. */
  lemma SynthesizedFields(x: SynthesizedContent)
    ensures GetStr(x.ToDict(), "overall_summary") == Ok(x.overallSummary)
    ensures GetStrList(x.ToDict(), "trending_themes") == Ok(x.trendingThemes)
    ensures GetInt(x.ToDict(), "source_count") == Ok(x.sourceCount)
  {
    var d := x.ToDict();
    assert d["trending_themes"] == StrList(x.trendingThemes);
    AsStrListOf(x.trendingThemes, "trending_themes");
  }

  /** The date range reads back as written. */
  lemma SynthesizedDateRange(x: SynthesizedContent)
    ensures GetDateRange(x.ToDict()) == Ok(x.dateRange)
  {
    var xs := [JStr(IsoFormat(x.dateRange.0)), JStr(IsoFormat(x.dateRange.1))];
    assert x.ToDict()["date_range"] == JList(xs);
    IsoRoundTrip(x.dateRange.0);
    IsoRoundTrip(x.dateRange.1);
    assert xs[0].s == IsoFormat(x.dateRange.0) && xs[1].s == IsoFormat(x.dateRange.1);
  }

  /** Synthesized content round-trips with its nested topics and items; the date range
      is written as the two-element list `[start, end]`. */
  lemma SynthesizedRoundTrip(x: SynthesizedContent)
    ensures SynthesizedContent.FromDict(x.ToDict()) == Ok(x)
    ensures x.ToDict()["date_range"].items == [JStr(IsoFormat(x.dateRange.0)), JStr(IsoFormat(x.dateRange.1))]
  {
    SynthesizedTopics(x);
    SynthesizedFields(x);
    SynthesizedDateRange(x);
  }

  /** Extra elements after the first two in `date_range` are ignored. */
  lemma DateRangeIgnoresExtra(d: Dict, extra: seq<Json>)
    requires "date_range" in d && d["date_range"].JList? && |d["date_range"].items| >= 2
    ensures GetDateRange(d["date_range" := JList(d["date_range"].items + extra)]) == GetDateRange(d)
  {
    var xs := d["date_range"].items;
    assert (xs + extra)[0] == xs[0] && (xs + extra)[1] == xs[1];
  }

  // ---------------------------------------------------------------------------
  // BlogPost

  datatype BlogPost = BlogPost(
    title: string,
    content: string,
    wordCount: int,
    sources: seq<string>,
    generatedAt: DateTime)
  {
    function ToDict(): Dict {
      map[
        "title" := JStr(title),
        "content" := JStr(content),
        "word_count" := JInt(wordCount),
        "sources" := StrList(sources),
        "generated_at" := JStr(IsoFormat(generatedAt))]
    }

    static function FromDict(d: Dict): (r: Result<BlogPost, DecodeError>)
      ensures r.Ok? ==> {"title", "content", "word_count", "sources", "generated_at"} <= d.Keys
    {
      var title :- GetStr(d, "title");
      var content :- GetStr(d, "content");
      var wordCount :- GetInt(d, "word_count");
      var sources :- GetStrList(d, "sources");
      var generatedAt :- GetDate(d, "generated_at");
      Ok(BlogPost(title, content, wordCount, sources, generatedAt))
    }
  }

  lemma BlogPostRoundTrip(x: BlogPost)
    ensures BlogPost.FromDict(x.ToDict()) == Ok(x)
  {
    AsStrListOf(x.sources, "sources");
    GetDateOf(x.ToDict(), "generated_at", x.generatedAt);
  }

  // ---------------------------------------------------------------------------
  // TikTokScript

  datatype TikTokScript = TikTokScript(
    title: string,
    hook: string,
    mainPoints: seq<string>,
    callToAction: string,
    visualCues: Option<seq<string>>,
    durationSeconds: int,
    fullScript: string,
    generatedAt: DateTime)
  {
    function ToDict(): Dict {
      map[
        "title" := JStr(title),
        "hook" := JStr(hook),
        "main_points" := StrList(mainPoints),
        "call_to_action" := JStr(callToAction),
        "visual_cues" := (match visualCues case None => JNull case Some(v) => StrList(v)),
        "duration_seconds" := JInt(durationSeconds),
        "full_script" := JStr(fullScript),
        "generated_at" := JStr(IsoFormat(generatedAt))]
    }

    /** `visual_cues` is read with `.get`: a missing key gives `None`. */
    static function FromDict(d: Dict): (r: Result<TikTokScript, DecodeError>)
      ensures r.Ok? ==> {"title", "hook", "main_points", "call_to_action", "duration_seconds",
                         "full_script", "generated_at"} <= d.Keys
      ensures r.Ok? && "visual_cues" !in d ==> r.value.visualCues == None
    {
      var title :- GetStr(d, "title");
      var hook :- GetStr(d, "hook");
      var mainPoints :- GetStrList(d, "main_points");
      var callToAction :- GetStr(d, "call_to_action");
      var visualCues :- GetOptStrList(d, "visual_cues");
      var durationSeconds :- GetInt(d, "duration_seconds");
      var fullScript :- GetStr(d, "full_script");
      var generatedAt :- GetDate(d, "generated_at");
      Ok(TikTokScript(title, hook, mainPoints, callToAction, visualCues, durationSeconds, fullScript, generatedAt))
    }
  }

  /** `data.get(key)` for an optional list of strings. */
  function GetOptStrList(d: Dict, key: string): (r: Result<Option<seq<string>>, DecodeError>)
    ensures r == Ok(None) <==> key !in d || d[key] == JNull
    ensures r.Ok? && r.value.Some? ==> d[key] == StrList(r.value.value)
  {
    if key !in d || d[key] == JNull then Ok(None)
    else
      var xs :- AsStrList(d[key], key);
      Ok(Some(xs))
  }

  lemma TikTokRoundTrip(x: TikTokScript)
    ensures TikTokScript.FromDict(x.ToDict()) == Ok(x)
  {
    var d := x.ToDict();
    assert GetStr(d, "title") == Ok(x.title);
    assert GetStr(d, "hook") == Ok(x.hook);
    AsStrListOf(x.mainPoints, "main_points");
    assert GetStrList(d, "main_points") == Ok(x.mainPoints);
    assert GetStr(d, "call_to_action") == Ok(x.callToAction);
    if x.visualCues.Some? {
      AsStrListOf(x.visualCues.value, "visual_cues");
    }
    assert GetOptStrList(d, "visual_cues") == Ok(x.visualCues);
    assert GetInt(d, "duration_seconds") == Ok(x.durationSeconds);
    assert GetStr(d, "full_script") == Ok(x.fullScript);
    GetDateOf(d, "generated_at", x.generatedAt);
  }

  // ---------------------------------------------------------------------------
  // ExportResult

  datatype ExportResult = ExportResult(
    success: bool,
    folder: string,
    noteId: Option<string>,
    error: Option<string>,
    fallbackPath: Option<string>)
  {
    function ToDict(): Dict {
      map[
        "success" := JBool(success),
        "folder" := JStr(folder),
        "note_id" := OptStr(noteId),
        "error" := OptStr(error),
        "fallback_path" := OptStr(fallbackPath)]
    }

    /** `note_id`, `error` and `fallback_path` are read with `.get`. */
    static function FromDict(d: Dict): (r: Result<ExportResult, DecodeError>)
      ensures r.Ok? ==> {"success", "folder"} <= d.Keys
      ensures r.Ok? && "note_id" !in d ==> r.value.noteId == None
      ensures r.Ok? && "error" !in d ==> r.value.error == None
      ensures r.Ok? && "fallback_path" !in d ==> r.value.fallbackPath == None
    {
      var success :- GetBool(d, "success");
      var folder :- GetStr(d, "folder");
      var noteId :- GetOptStr(d, "note_id");
      var error :- GetOptStr(d, "error");
      var fallbackPath :- GetOptStr(d, "fallback_path");
      Ok(ExportResult(success, folder, noteId, error, fallbackPath))
    }
  }

  lemma ExportRoundTrip(x: ExportResult)
    ensures ExportResult.FromDict(x.ToDict()) == Ok(x)
  {
    var d := x.ToDict();
    GetOptStrOf(d, "note_id", x.noteId);
    GetOptStrOf(d, "error", x.error);
    GetOptStrOf(d, "fallback_path", x.fallbackPath);
  }

  // ---------------------------------------------------------------------------
  // ExecutionResult

  datatype ExecutionResult = ExecutionResult(
    success: bool,
    newslettersProcessed: int,
    errors: seq<string>,
    dryRun: bool,
    blogExported: Option<ExportResult>,
    tiktokExported: Option<ExportResult>,
    blogContent: Option<BlogPost>,
    tiktokContent: Option<TikTokScript>)
  {
    /** The generated contents are not serialised.  An export result is an object
        without `__bool__`, so it is always truthy. */
    function ToDict(): Dict {
      map[
        "success" := JBool(success),
        "newsletters_processed" := JInt(newslettersProcessed),
        "errors" := StrList(errors),
        "dry_run" := JBool(dryRun),
        "blog_exported" := ExportToJson(blogExported),
        "tiktok_exported" := ExportToJson(tiktokExported)]
    }

    static function FromDict(d: Dict): (r: Result<ExecutionResult, DecodeError>)
      ensures r.Ok? ==> r.value.blogContent == None && r.value.tiktokContent == None
      ensures r.Ok? ==> {"success", "newsletters_processed", "errors", "dry_run"} <= d.Keys
      ensures r.Ok? && ("blog_exported" !in d || !Truthy(d["blog_exported"])) ==> r.value.blogExported == None
      ensures r.Ok? && ("tiktok_exported" !in d || !Truthy(d["tiktok_exported"])) ==> r.value.tiktokExported == None
    {
      var success :- GetBool(d, "success");
      var newslettersProcessed :- GetInt(d, "newsletters_processed");
      var errors :- GetStrList(d, "errors");
      var dryRun :- GetBool(d, "dry_run");
      var blogExported :- GetExport(d, "blog_exported");
      var tiktokExported :- GetExport(d, "tiktok_exported");
      Ok(ExecutionResult(success, newslettersProcessed, errors, dryRun, blogExported, tiktokExported, None, None))
    }
  }

  function ExportToJson(e: Option<ExportResult>): Json {
    match e
    case None => JNull
    case Some(x) => JObject(x.ToDict())
  }

  /** `ExportResult.from_dict(data[key]) if data.get(key) else None`: a missing key, `None`
      and any other falsy value (such as an empty dictionary) give `None`. */
  function GetExport(d: Dict, key: string): (r: Result<Option<ExportResult>, DecodeError>)
    ensures key !in d || !Truthy(d[key]) ==> r == Ok(None)
    ensures r.Ok? && r.value.Some? ==> d[key].JObject? && ExportResult.FromDict(d[key].fields) == Ok(r.value.value)
  {
    if key !in d || !Truthy(d[key]) then Ok(None)
    else if !d[key].JObject? then Err(WrongType(key))
    else
      var e :- ExportResult.FromDict(d[key].fields);
      Ok(Some(e))
  }

  lemma GetExportOf(d: Dict, key: string, e: Option<ExportResult>)
    requires key in d && d[key] == ExportToJson(e)
    ensures GetExport(d, key) == Ok(e)
  {
    if e.Some? {
      ExportRoundTrip(e.value);
      assert "success" in e.value.ToDict();
    }
  }

  /** An execution result comes back with both generated contents dropped. */
  lemma ExecutionRoundTrip(x: ExecutionResult)
    ensures ExecutionResult.FromDict(x.ToDict()) == Ok(x.(blogContent := None, tiktokContent := None))
  {
    var d := x.ToDict();
    AsStrListOf(x.errors, "errors");
    GetExportOf(d, "blog_exported", x.blogExported);
    GetExportOf(d, "tiktok_exported", x.tiktokExported);
  }

  /** The round trip is the identity exactly when neither content is set. */
  lemma ExecutionRoundTripIdentity(x: ExecutionResult)
    ensures ExecutionResult.FromDict(x.ToDict()) == Ok(x) <==> x.blogContent == None && x.tiktokContent == None
  {
    ExecutionRoundTrip(x);
  }
}
