/**
 * `NewsletterContentGenerator` (orchestrator.py): build the fetchers from the
 * configuration, then run aggregation, synthesis, the two generators and the two exports,
 * collecting error messages and progress reports.
 *
 * The synthesizer, the generators and the exporter are abstract: each is a function that
 * returns its result or raises, `Err(m)` standing for an exception whose `str` is `m`.
 * The fetchers' own I/O is the `fetch` function of the aggregator model.
 */
module Orchestrator {
  import opened Wrappers
  import opened Text
  import opened DateTime
  import opened Models
  import opened Config
  import opened ContentParser
  import opened Fetchers
  import opened Aggregator

  /** The components `_setup_components` builds, as far as `run` can observe them. */
  datatype Components = Components(
    parser: ContentParser,
    fetch: (SourceFetcher, DateTime) -> Outcome,
    synthesize: seq<NewsletterItem> -> Result<SynthesizedContent, string>,
    generateBlog: SynthesizedContent -> Result<BlogPost, string>,
    generateTikTok: SynthesizedContent -> Result<TikTokScript, string>,
    exportBlog: BlogPost -> Result<ExportResult, string>,
    exportTikTok: TikTokScript -> Result<ExportResult, string>)

  /** The component calls `run` makes, in the order it makes them. */
  datatype Stage = Aggregation | Synthesis | BlogGeneration | TikTokGeneration | BlogExport | TikTokExport

  // ---------------------------------------------------------------------------
  // `_setup_components`: one fetcher per configured source, e-mail first, then feeds,
  // then files

  function EmailFetchers(cs: seq<EmailSourceConfig>): (r: seq<SourceFetcher>)
    ensures |r| == |cs| && forall i :: 0 <= i < |cs| ==> r[i] == EmailFetcher(cs[i])
  {
    seq(|cs|, i requires 0 <= i < |cs| => EmailFetcher(cs[i]))
  }

  function RssFetchers(cs: seq<RssSourceConfig>): (r: seq<SourceFetcher>)
    ensures |r| == |cs| && forall i :: 0 <= i < |cs| ==> r[i] == RssFetcher(cs[i])
  {
    seq(|cs|, i requires 0 <= i < |cs| => RssFetcher(cs[i]))
  }

  function FileFetchers(cs: seq<FileSourceConfig>): (r: seq<SourceFetcher>)
    ensures |r| == |cs| && forall i :: 0 <= i < |cs| ==> r[i] == FileFetcher(cs[i])
  {
    seq(|cs|, i requires 0 <= i < |cs| => FileFetcher(cs[i]))
  }

  function FetchersFor(config: AppConfig): seq<SourceFetcher> {
    EmailFetchers(config.emailSources) + RssFetchers(config.rssSources) + FileFetchers(config.fileSources)
  }

  /** The fetcher list has one entry per source, laid out e-mail, feed, file. */
  lemma FetchersLayout(config: AppConfig)
    ensures var fs := FetchersFor(config);
      var e, r := |config.emailSources|, |config.rssSources|;
      && |fs| == e + r + |config.fileSources|
      && (forall i :: 0 <= i < e ==> fs[i] == EmailFetcher(config.emailSources[i]))
      && (forall i :: 0 <= i < r ==> fs[e + i] == RssFetcher(config.rssSources[i]))
      && (forall i :: 0 <= i < |config.fileSources| ==> fs[e + r + i] == FileFetcher(config.fileSources[i]))
  {
  }

  // ---------------------------------------------------------------------------
  // Messages

  const NoItemsMessage := "No newsletters found in the configured date range"

  function PipelineFailed(m: string): (r: string)
    ensures StartsWith(r, "Pipeline failed: ")
  {
    StartsWithConcat("Pipeline failed: ", m);
    "Pipeline failed: " + m
  }

  /** `f"{x}"` for an optional string: `None` prints as "None". */
  function Show(o: Option<string>): string { if o.Some? then o.value else "None" }

  /** The error recorded for a failed export; the fallback path is mentioned only when
      there is one. */
  function ExportError(kind: string, e: ExportResult): string {
    kind + " export failed: " + Show(e.error) +
    (if e.fallbackPath.Some? && e.fallbackPath.value != "" then " (saved to " + e.fallbackPath.value + ")" else "")
  }

  /** The errors an export adds: none when it succeeded, its message when it did not. */
  function ExportErrors(kind: string, e: ExportResult): seq<string> {
    if e.success then [] else [ExportError(kind, e)]
  }

  predicate EndsWith(s: string, suffix: string) {
    |suffix| <= |s| && s[|s| - |suffix|..] == suffix
  }

  /** What an export that returned `e` adds to the errors, and how its message reads:
      the kind and the error (or "None"), then the fallback path when there is one. */
  lemma ExportErrorsText(kind: string, e: ExportResult)
    ensures e.success ==> ExportErrors(kind, e) == []
    ensures !e.success ==>
      && |ExportErrors(kind, e)| == 1
      && StartsWith(ExportErrors(kind, e)[0], kind + " export failed: " + Show(e.error))
      && (e.fallbackPath.Some? && e.fallbackPath.value != "" ==>
            EndsWith(ExportErrors(kind, e)[0], " (saved to " + e.fallbackPath.value + ")"))
      && (e.fallbackPath.None? || e.fallbackPath.value == "" ==>
            ExportErrors(kind, e)[0] == kind + " export failed: " + Show(e.error))
  {
    if !e.success {
      var head := kind + " export failed: " + Show(e.error);
      var tail := if e.fallbackPath.Some? && e.fallbackPath.value != "" then " (saved to " + e.fallbackPath.value + ")" else "";
      assert ExportError(kind, e) == head + tail;
      StartsWithConcat(head, tail);
      if tail != "" {
        assert (head + tail)[|head + tail| - |tail|..] == tail;
      }
    }
  }

  /** The export result a dry run records: a success without a note. */
  function DryRunExport(folder: string): ExportResult {
    ExportResult(true, folder, None, None, None)
  }

  function Clean(c: Components): string -> string {
    s => Cleaned(c.parser, s)
  }

  /** The progress reports `run` makes; `StageOf` and `MessageOf` give the stage name and
      the text passed to the log and the callback. */
  datatype Progress =
    | FetchingNewsletters | FetchedItems(count: int) | NoNewsletters
    | SynthesizingContent | IdentifiedTopics(topics: int, themes: int)
    | GeneratingBlog | GeneratedBlog(title: string, words: int)
    | GeneratingScript | GeneratedScript(title: string, seconds: int)
    | SkippingExport | ExportingBlog | BlogSaved(folder: string)
    | ExportingScript | ScriptSaved(folder: string) | ExportFailed(message: string)
    | PipelineComplete(count: int) | PipelineError(message: string)

  function StageOf(p: Progress): string {
    match p
    case FetchingNewsletters | FetchedItems(_) | NoNewsletters => "aggregation"
    case SynthesizingContent | IdentifiedTopics(_, _) => "synthesis"
    case GeneratingBlog | GeneratedBlog(_, _) | GeneratingScript | GeneratedScript(_, _) => "generation"
    case SkippingExport | ExportingBlog | BlogSaved(_) | ExportingScript | ScriptSaved(_) | ExportFailed(_) => "export"
    case PipelineComplete(_) => "complete"
    case PipelineError(_) => "error"
  }

  function MessageOf(p: Progress): string {
    match p
    case FetchingNewsletters => "Fetching newsletters from configured sources..."
    case FetchedItems(n) => "Fetched " + IntToString(n) + " newsletter items"
    case NoNewsletters => "No newsletters found in date range"
    case SynthesizingContent => "Synthesizing newsletter content..."
    case IdentifiedTopics(t, th) => "Identified " + IntToString(t) + " topics, " + IntToString(th) + " trending themes"
    case GeneratingBlog => "Generating blog post..."
    case GeneratedBlog(title, words) => "Generated blog post: '" + title + "' (" + IntToString(words) + " words)"
    case GeneratingScript => "Generating TikTok script..."
    case GeneratedScript(title, seconds) => "Generated TikTok script: '" + title + "' (" + IntToString(seconds) + "s)"
    case SkippingExport => "Dry-run mode: skipping Apple Notes export"
    case ExportingBlog => "Exporting blog post to Apple Notes..."
    case BlogSaved(folder) => "Blog post saved to '" + folder + "'"
    case ExportingScript => "Exporting TikTok script to Apple Notes..."
    case ScriptSaved(folder) => "TikTok script saved to '" + folder + "'"
    case ExportFailed(m) => m
    case PipelineComplete(n) => "Pipeline complete. Processed " + IntToString(n) + " newsletters."
    case PipelineError(m) => m
  }

  /** The report after the blog export: where it was saved, or the error recorded. */
  function BlogExportReport(e: ExportResult): Progress {
    if e.success then BlogSaved(e.folder) else ExportFailed(ExportError("Blog", e))
  }

  function ScriptExportReport(e: ExportResult): Progress {
    if e.success then ScriptSaved(e.folder) else ExportFailed(ExportError("TikTok", e))
  }

  // ---------------------------------------------------------------------------
  // `run`, stage by stage.  Each stage's trace holds only what that stage and the ones
  // after it report and call; `Then` puts a stage's own reports and calls in front.

  /** Everything a run produces: its result, its progress reports, and the component calls
      made. */
  datatype Trace = Trace(result: ExecutionResult, progress: seq<Progress>, invoked: seq<Stage>)

  function Then(progress: seq<Progress>, invoked: seq<Stage>, t: Trace): Trace {
    Trace(t.result, progress + t.progress, invoked + t.invoked)
  }

  /** The `except` branch: the message is appended to the errors collected so far, and the
      count and export results computed so far are kept. */
  function FailedRun(m: string, processed: int, errors: seq<string>, dryRun: bool,
                     blog: Option<ExportResult>, tiktok: Option<ExportResult>): Trace {
    Trace(ExecutionResult(false, processed, errors + [PipelineFailed(m)], dryRun, blog, tiktok, None, None),
          [PipelineError(PipelineFailed(m))], [])
  }

  function CompletedRun(processed: int, errors: seq<string>, dryRun: bool,
                        blog: Option<ExportResult>, tiktok: Option<ExportResult>): Trace {
    Trace(ExecutionResult(processed > 0, processed, errors, dryRun, blog, tiktok, None, None),
          [PipelineComplete(processed)], [])
  }

  /** Where a run has got to after aggregation returned items. */
  datatype Step =
    | SynthesisStep(items: seq<NewsletterItem>)
    | GenerationStep(n: int, s: SynthesizedContent)
    | ExportStep(n: int, blog: BlogPost, script: TikTokScript)
    | ScriptExportStep(n: int, errors: seq<string>, b: ExportResult, script: TikTokScript)

  /** The item count a step carries. */
  function StepCount(step: Step): int {
    match step
    case SynthesisStep(items) => |items|
    case GenerationStep(n, _) => n
    case ExportStep(n, _, _) => n
    case ScriptExportStep(n, _, _, _) => n
  }

  function StepsLeft(step: Step): nat {
    match step
    case SynthesisStep(_) => 3
    case GenerationStep(_, _) => 2
    case ExportStep(_, _, _) => 1
    case ScriptExportStep(_, _, _, _) => 0
  }

  /** The rest of a run from `step` on. */
  function Continue(config: AppConfig, c: Components, dryRun: bool, step: Step): Trace
    decreases StepsLeft(step)
  {
    match step
    case SynthesisStep(items) =>
      Then([SynthesizingContent], [Synthesis],
           match c.synthesize(items)
           case Err(m) => FailedRun(m, |items|, [], dryRun, None, None)
           case Ok(s) =>
             Then([IdentifiedTopics(|s.topics|, |s.trendingThemes|)], [],
                  Continue(config, c, dryRun, GenerationStep(|items|, s))))
    case GenerationStep(n, s) =>
      Then([GeneratingBlog], [BlogGeneration],
           match c.generateBlog(s)
           case Err(m) => FailedRun(m, n, [], dryRun, None, None)
           case Ok(blog) =>
             Then([GeneratedBlog(blog.title, blog.wordCount), GeneratingScript], [TikTokGeneration],
                  match c.generateTikTok(s)
                  case Err(m) => FailedRun(m, n, [], dryRun, None, None)
                  case Ok(script) =>
                    Then([GeneratedScript(script.title, script.durationSeconds)], [],
                         Continue(config, c, dryRun, ExportStep(n, blog, script)))))
    case ExportStep(n, blog, script) =>
      if dryRun then
        Then([SkippingExport], [],
             CompletedRun(n, [], dryRun, Some(DryRunExport(config.notes.blogFolder)), Some(DryRunExport(config.notes.tiktokFolder))))
      else
        Then([ExportingBlog], [BlogExport],
             match c.exportBlog(blog)
             case Err(m) => FailedRun(m, n, [], dryRun, None, None)
             case Ok(b) =>
               Then([BlogExportReport(b), ExportingScript], [TikTokExport],
                    Continue(config, c, dryRun, ScriptExportStep(n, ExportErrors("Blog", b), b, script))))
    case ScriptExportStep(n, errors, b, script) =>
      match c.exportTikTok(script)
      case Err(m) => FailedRun(m, n, errors, dryRun, Some(b), None)
      case Ok(e) =>
        Then([ScriptExportReport(e)], [], CompletedRun(n, errors + ExportErrors("TikTok", e), dryRun, Some(b), Some(e)))
  }

  /** The items aggregation returns, or the message of the `OverflowError` raised while
      computing `since`. */
  function AggregatedItems(config: AppConfig, fetchers: seq<SourceFetcher>, c: Components, now: DateTime): Result<seq<NewsletterItem>, string> {
    match MinusDays(now, config.dateRangeDays)
    case Err(m) => Err(m)
    case Ok(since) => Ok(Aggregated(Clean(c), since, fetchers, c.fetch))
  }

  /** What `run` does once aggregation has returned `items`. */
  function AfterAggregation(config: AppConfig, c: Components, items: seq<NewsletterItem>, dryRun: bool): Trace {
    Then([FetchedItems(|items|)], [Aggregation],
         if items == [] then
           Trace(ExecutionResult(true, 0, [NoItemsMessage], dryRun, None, None, None, None), [NoNewsletters], [])
         else Continue(config, c, dryRun, SynthesisStep(items)))
  }

  /** What `run(dry_run)` does once aggregation has returned `aggregated` (`Err(m)`: the
      start date could not be computed, and `m` is what was raised). */
  function RunSpec(config: AppConfig, c: Components, aggregated: Result<seq<NewsletterItem>, string>, dryRun: bool): Trace {
    Then([FetchingNewsletters], [],
         match aggregated
         case Err(m) => FailedRun(m, 0, [], dryRun, None, None)
         case Ok(items) => AfterAggregation(config, c, items, dryRun))
  }

  /** A state that grew by `p` and then by `q` grew by `p + q`. */
  lemma SeqThen<T>(r0: seq<T>, p: seq<T>, r1: seq<T>, r2: seq<T>, q: seq<T>)
    requires r1 == r0 + p && r2 == r1 + q
    ensures r2 == r0 + (p + q)
  {
  }

  // ---------------------------------------------------------------------------
  // The object

  // `Continue` from the generation step, one case per way the two generators can end.

  lemma BlogGenerationRaises(config: AppConfig, c: Components, dryRun: bool, n: int, s: SynthesizedContent)
    requires c.generateBlog(s).Err?
    ensures Continue(config, c, dryRun, GenerationStep(n, s)) ==
      Then([GeneratingBlog], [BlogGeneration], FailedRun(c.generateBlog(s).error, n, [], dryRun, None, None))
  {
  }

  lemma ScriptGenerationRaises(config: AppConfig, c: Components, dryRun: bool, n: int, s: SynthesizedContent, blog: BlogPost)
    requires c.generateBlog(s) == Ok(blog) && c.generateTikTok(s).Err?
    ensures Continue(config, c, dryRun, GenerationStep(n, s)) ==
      Then([GeneratingBlog], [BlogGeneration],
           Then([GeneratedBlog(blog.title, blog.wordCount), GeneratingScript], [TikTokGeneration],
                FailedRun(c.generateTikTok(s).error, n, [], dryRun, None, None)))
  {
  }

  lemma GenerationReturns(config: AppConfig, c: Components, dryRun: bool, n: int, s: SynthesizedContent,
                          blog: BlogPost, script: TikTokScript)
    requires c.generateBlog(s) == Ok(blog) && c.generateTikTok(s) == Ok(script)
    ensures Continue(config, c, dryRun, GenerationStep(n, s)) ==
      Then([GeneratingBlog], [BlogGeneration],
           Then([GeneratedBlog(blog.title, blog.wordCount), GeneratingScript], [TikTokGeneration],
                Then([GeneratedScript(script.title, script.durationSeconds)], [],
                     Continue(config, c, dryRun, ExportStep(n, blog, script)))))
  {
  }

  class NewsletterContentGenerator {
    const config: AppConfig
    /** The progress callback; its result says whether it returned (true) or raised. */
    const progressCallback: Option<(string, string) -> bool>
    const components: Components
    /** The fetchers handed to the aggregator. */
    var fetchers: seq<SourceFetcher>
    /** Every report passed to `_report_progress`. */
    var reported: seq<Progress>
    /** The component calls made. */
    var invoked: seq<Stage>

    constructor(config: AppConfig, progressCallback: Option<(string, string) -> bool>, components: Components)
      ensures this.config == config && this.progressCallback == progressCallback && this.components == components
      ensures fetchers == FetchersFor(config) && reported == [] && invoked == []
    {
      this.config := config;
      this.progressCallback := progressCallback;
      this.components := components;
      fetchers := [];
      reported := [];
      invoked := [];
      new;
      SetupComponents();
    }

    method SetupComponents()
      modifies this
      ensures fetchers == FetchersFor(config)
      ensures reported == old(reported) && invoked == old(invoked)
    {
      var fs: seq<SourceFetcher> := [];
      var i := 0;
      while i < |config.emailSources|
        invariant 0 <= i <= |config.emailSources|
        invariant fs == EmailFetchers(config.emailSources[..i])
      {
        fs := fs + [EmailFetcher(config.emailSources[i])];
        i := i + 1;
      }
      assert config.emailSources[..i] == config.emailSources;
      var emails := fs;
      i := 0;
      while i < |config.rssSources|
        invariant 0 <= i <= |config.rssSources|
        invariant fs == emails + RssFetchers(config.rssSources[..i])
      {
        fs := fs + [RssFetcher(config.rssSources[i])];
        i := i + 1;
      }
      assert config.rssSources[..i] == config.rssSources;
      var feeds := fs;
      i := 0;
      while i < |config.fileSources|
        invariant 0 <= i <= |config.fileSources|
        invariant fs == feeds + FileFetchers(config.fileSources[..i])
      {
        fs := fs + [FileFetcher(config.fileSources[i])];
        i := i + 1;
      }
      assert config.fileSources[..i] == config.fileSources;
      fetchers := fs;
    }

    /** Log the report and pass its stage and message to the callback; a callback that
        raises is logged and otherwise ignored, so reporting always returns normally. */
    method ReportProgress(p: Progress)
      modifies this
      ensures reported == old(reported) + [p]
      ensures fetchers == old(fetchers) && invoked == old(invoked)
    {
      reported := reported + [p];
      if progressCallback.Some? {
        var returned := progressCallback.value(StageOf(p), MessageOf(p));
      }
    }

    method Fail(m: string, processed: int, errors: seq<string>, dryRun: bool,
                blog: Option<ExportResult>, tiktok: Option<ExportResult>) returns (result: ExecutionResult)
      modifies this
      ensures var t := FailedRun(m, processed, errors, dryRun, blog, tiktok);
        result == t.result && reported == old(reported) + t.progress && invoked == old(invoked) + t.invoked
      ensures fetchers == old(fetchers)
    {
      var errorMsg := PipelineFailed(m);
      ReportProgress(PipelineError(errorMsg));
      result := ExecutionResult(false, processed, errors + [errorMsg], dryRun, blog, tiktok, None, None);
    }

    method Complete(processed: int, errors: seq<string>, dryRun: bool,
                    blog: Option<ExportResult>, tiktok: Option<ExportResult>) returns (result: ExecutionResult)
      modifies this
      ensures var t := CompletedRun(processed, errors, dryRun, blog, tiktok);
        result == t.result && reported == old(reported) + t.progress && invoked == old(invoked) + t.invoked
      ensures fetchers == old(fetchers)
    {
      var success := processed > 0;
      ReportProgress(PipelineComplete(processed));
      result := ExecutionResult(success, processed, errors, dryRun, blog, tiktok, None, None);
    }

    /** The TikTok half of a real export, after the blog export returned `b`. */
    method ExportScript(processed: int, errors: seq<string>, b: ExportResult, tiktokScript: TikTokScript)
      returns (result: ExecutionResult)
      modifies this
      ensures var t := Continue(config, components, false, ScriptExportStep(processed, errors, b, tiktokScript));
        result == t.result && reported == old(reported) + t.progress && invoked == old(invoked) + t.invoked
      ensures fetchers == old(fetchers)
    {
      var errs := errors;
      var e := components.exportTikTok(tiktokScript);
      if e.Err? {
        result := Fail(e.error, processed, errs, false, Some(b), None);
        return;
      }
      var tiktokExported := e.value;
      if tiktokExported.success {
        ReportProgress(ScriptSaved(tiktokExported.folder));
      } else {
        var errorMsg := ExportError("TikTok", tiktokExported);
        errs := errs + [errorMsg];
        ReportProgress(ExportFailed(errorMsg));
      }
      result := Complete(processed, errs, false, Some(b), Some(tiktokExported));
    }

    method Export(dryRun: bool, processed: int, blogPost: BlogPost, tiktokScript: TikTokScript)
      returns (result: ExecutionResult)
      modifies this
      ensures var t := Continue(config, components, dryRun, ExportStep(processed, blogPost, tiktokScript));
        result == t.result && reported == old(reported) + t.progress && invoked == old(invoked) + t.invoked
      ensures fetchers == old(fetchers)
    {
      if dryRun {
        ReportProgress(SkippingExport);
        var blogExported := DryRunExport(config.notes.blogFolder);
        var tiktokExported := DryRunExport(config.notes.tiktokFolder);
        result := Complete(processed, [], dryRun, Some(blogExported), Some(tiktokExported));
        return;
      }
      ghost var r0, i0 := reported, invoked;
      ReportProgress(ExportingBlog);
      invoked := invoked + [BlogExport];
      var b := components.exportBlog(blogPost);
      if b.Err? {
        ghost var r1 := reported;
        result := Fail(b.error, processed, [], dryRun, None, None);
        ghost var t := FailedRun(b.error, processed, [], dryRun, None, None);
        SeqThen(r0, [ExportingBlog], r1, reported, t.progress);
        assert Continue(config, components, dryRun, ExportStep(processed, blogPost, tiktokScript)) == Then([ExportingBlog], [BlogExport], t);
        return;
      }
      var blogExported := b.value;
      var errors: seq<string> := [];
      if blogExported.success {
        ReportProgress(BlogSaved(blogExported.folder));
      } else {
        var errorMsg := ExportError("Blog", blogExported);
        errors := errors + [errorMsg];
        ReportProgress(ExportFailed(errorMsg));
      }
      ReportProgress(ExportingScript);
      invoked := invoked + [TikTokExport];
      ghost var r1, i1 := reported, invoked;
      assert errors == ExportErrors("Blog", blogExported);
      ghost var p := [ExportingBlog, BlogExportReport(blogExported), ExportingScript];
      assert r1 == r0 + p;
      result := ExportScript(processed, errors, blogExported, tiktokScript);
      ghost var t := Continue(config, components, false, ScriptExportStep(processed, errors, blogExported, tiktokScript));
      SeqThen(r0, p, r1, reported, t.progress);
      SeqThen(i0, [BlogExport, TikTokExport], i1, invoked, t.invoked);
      assert Continue(config, components, dryRun, ExportStep(processed, blogPost, tiktokScript)) ==
        Then([ExportingBlog], [BlogExport], Then([BlogExportReport(blogExported), ExportingScript], [TikTokExport], t));
    }

    method Generate(dryRun: bool, processed: int, s: SynthesizedContent) returns (result: ExecutionResult)
      modifies this
      ensures var t := Continue(config, components, dryRun, GenerationStep(processed, s));
        result == t.result && reported == old(reported) + t.progress && invoked == old(invoked) + t.invoked
      ensures fetchers == old(fetchers)
    {
      ghost var r0, i0 := reported, invoked;
      ReportProgress(GeneratingBlog);
      invoked := invoked + [BlogGeneration];
      var blogResult := components.generateBlog(s);
      if blogResult.Err? {
        ghost var r1 := reported;
        result := Fail(blogResult.error, processed, [], dryRun, None, None);
        ghost var t := FailedRun(blogResult.error, processed, [], dryRun, None, None);
        SeqThen(r0, [GeneratingBlog], r1, reported, t.progress);
        BlogGenerationRaises(config, components, dryRun, processed, s);
        return;
      }
      var blogPost := blogResult.value;
      ReportProgress(GeneratedBlog(blogPost.title, blogPost.wordCount));
      ReportProgress(GeneratingScript);
      invoked := invoked + [TikTokGeneration];
      ghost var p := [GeneratingBlog, GeneratedBlog(blogPost.title, blogPost.wordCount), GeneratingScript];
      assert reported == r0 + p;
      var scriptResult := components.generateTikTok(s);
      if scriptResult.Err? {
        ghost var r1 := reported;
        result := Fail(scriptResult.error, processed, [], dryRun, None, None);
        ghost var t := FailedRun(scriptResult.error, processed, [], dryRun, None, None);
        SeqThen(r0, p, r1, reported, t.progress);
        ScriptGenerationRaises(config, components, dryRun, processed, s, blogPost);
        return;
      }
      var tiktokScript := scriptResult.value;
      ReportProgress(GeneratedScript(tiktokScript.title, tiktokScript.durationSeconds));
      ghost var r1, i1 := reported, invoked;
      ghost var q := p + [GeneratedScript(tiktokScript.title, tiktokScript.durationSeconds)];
      assert r1 == r0 + q;
      result := Export(dryRun, processed, blogPost, tiktokScript);
      ghost var t := Continue(config, components, dryRun, ExportStep(processed, blogPost, tiktokScript));
      SeqThen(r0, q, r1, reported, t.progress);
      SeqThen(i0, [BlogGeneration, TikTokGeneration], i1, invoked, t.invoked);
      GenerationReturns(config, components, dryRun, processed, s, blogPost, tiktokScript);
    }

    method Synthesize(dryRun: bool, items: seq<NewsletterItem>) returns (result: ExecutionResult)
      modifies this
      ensures var t := Continue(config, components, dryRun, SynthesisStep(items));
        result == t.result && reported == old(reported) + t.progress && invoked == old(invoked) + t.invoked
      ensures fetchers == old(fetchers)
    {
      ReportProgress(SynthesizingContent);
      invoked := invoked + [Synthesis];
      var synthesized := components.synthesize(items);
      if synthesized.Err? {
        result := Fail(synthesized.error, |items|, [], dryRun, None, None);
        return;
      }
      var s := synthesized.value;
      ReportProgress(IdentifiedTopics(|s.topics|, |s.trendingThemes|));
      result := Generate(dryRun, |items|, s);
    }

    /** Aggregation from `since` and everything after it. */
    method AggregateSince(dryRun: bool, since: DateTime) returns (result: ExecutionResult)
      modifies this
      ensures var t := AfterAggregation(config, components, Aggregated(Clean(components), since, old(fetchers), components.fetch), dryRun);
        result == t.result && reported == old(reported) + t.progress && invoked == old(invoked) + t.invoked
      ensures fetchers == old(fetchers)
    {
      ghost var r0, i0 := reported, invoked;
      invoked := invoked + [Aggregation];
      var items, _ := Aggregate(Clean(components), fetchers, components.fetch, since);
      ReportProgress(FetchedItems(|items|));
      if items == [] {
        ReportProgress(NoNewsletters);
        result := ExecutionResult(true, 0, [NoItemsMessage], dryRun, None, None, None, None);
        return;
      }
      ghost var r1, i1 := reported, invoked;
      result := Synthesize(dryRun, items);
      ghost var t := Continue(config, components, dryRun, SynthesisStep(items));
      SeqThen(r0, [FetchedItems(|items|)], r1, reported, t.progress);
      SeqThen(i0, [Aggregation], i1, invoked, t.invoked);
    }

    /** `run(dry_run)` started at `now`.  The result and the reports do not depend on the
        progress callback. */
    method Run(dryRun: bool, now: DateTime) returns (result: ExecutionResult)
      modifies this
      ensures var t := RunSpec(config, components, AggregatedItems(config, old(fetchers), components, now), dryRun);
        result == t.result && reported == old(reported) + t.progress && invoked == old(invoked) + t.invoked
      ensures fetchers == old(fetchers)
    {
      ghost var r0 := reported;
      ReportProgress(FetchingNewsletters);
      ghost var r1 := reported;
      var since := MinusDays(now, config.dateRangeDays);
      if since.Err? {
        result := Fail(since.error, 0, [], dryRun, None, None);
        SeqThen(r0, [FetchingNewsletters], r1, reported, FailedRun(since.error, 0, [], dryRun, None, None).progress);
        return;
      }
      result := AggregateSince(dryRun, since.value);
      ghost var items := Aggregated(Clean(components), since.value, old(fetchers), components.fetch);
      SeqThen(r0, [FetchingNewsletters], r1, reported, AfterAggregation(config, components, items, dryRun).progress);
    }
  }

  // ---------------------------------------------------------------------------
  // Properties of a run

  /** How a run that raised ends: unsuccessful, "Pipeline failed: ..." as the last error
      and as the last report, with the count computed before the failure. */
  predicate FailedEnd(t: Trace, n: int) {
    && !t.result.success && t.result.newslettersProcessed == n
    && |t.result.errors| > 0 && StartsWith(t.result.errors[|t.result.errors| - 1], "Pipeline failed: ")
    && |t.progress| > 0 && t.progress[|t.progress| - 1] == PipelineError(t.result.errors[|t.result.errors| - 1])
  }

  /** How a run that reached the end ends: it succeeds exactly when it processed something. */
  predicate CompletedEnd(t: Trace, n: int) {
    && t.result.success == (n > 0) && t.result.newslettersProcessed == n
    && |t.progress| > 0 && t.progress[|t.progress| - 1] == PipelineComplete(n)
  }

  lemma ThenKeepsEnd(p: seq<Progress>, inv: seq<Stage>, t: Trace, n: int)
    ensures FailedEnd(t, n) ==> FailedEnd(Then(p, inv, t), n)
    ensures CompletedEnd(t, n) ==> CompletedEnd(Then(p, inv, t), n)
  {
    if |t.progress| > 0 {
      assert Then(p, inv, t).progress[|p + t.progress| - 1] == t.progress[|t.progress| - 1];
    }
  }

  /** From any step on, the run either raises or reaches the end, with the count fixed at
      aggregation. */
  lemma {:induction false} ContinueEnds(config: AppConfig, c: Components, dryRun: bool, step: Step)
    ensures var t := Continue(config, c, dryRun, step); FailedEnd(t, StepCount(step)) || CompletedEnd(t, StepCount(step))
    decreases StepsLeft(step)
  {
    var n := StepCount(step);
    match step
    case SynthesisStep(items) =>
      var rest := match c.synthesize(items)
        case Err(m) => FailedRun(m, n, [], dryRun, None, None)
        case Ok(s) => Then([IdentifiedTopics(|s.topics|, |s.trendingThemes|)], [], Continue(config, c, dryRun, GenerationStep(n, s)));
      if c.synthesize(items).Ok? {
        var s := c.synthesize(items).value;
        ContinueEnds(config, c, dryRun, GenerationStep(n, s));
        ThenKeepsEnd([IdentifiedTopics(|s.topics|, |s.trendingThemes|)], [], Continue(config, c, dryRun, GenerationStep(n, s)), n);
      }
      ThenKeepsEnd([SynthesizingContent], [Synthesis], rest, n);
    case GenerationStep(_, s) =>
      var rest := match c.generateBlog(s)
        case Err(m) => FailedRun(m, n, [], dryRun, None, None)
        case Ok(blog) =>
          Then([GeneratedBlog(blog.title, blog.wordCount), GeneratingScript], [TikTokGeneration],
               match c.generateTikTok(s)
               case Err(m) => FailedRun(m, n, [], dryRun, None, None)
               case Ok(script) => Then([GeneratedScript(script.title, script.durationSeconds)], [], Continue(config, c, dryRun, ExportStep(n, blog, script))));
      if c.generateBlog(s).Ok? {
        var blog := c.generateBlog(s).value;
        var afterScript := match c.generateTikTok(s)
          case Err(m) => FailedRun(m, n, [], dryRun, None, None)
          case Ok(script) => Then([GeneratedScript(script.title, script.durationSeconds)], [], Continue(config, c, dryRun, ExportStep(n, blog, script)));
        if c.generateTikTok(s).Ok? {
          var script := c.generateTikTok(s).value;
          ContinueEnds(config, c, dryRun, ExportStep(n, blog, script));
          ThenKeepsEnd([GeneratedScript(script.title, script.durationSeconds)], [], Continue(config, c, dryRun, ExportStep(n, blog, script)), n);
        }
        ThenKeepsEnd([GeneratedBlog(blog.title, blog.wordCount), GeneratingScript], [TikTokGeneration], afterScript, n);
      }
      ThenKeepsEnd([GeneratingBlog], [BlogGeneration], rest, n);
    case ExportStep(_, blog, script) =>
      if dryRun {
        ThenKeepsEnd([SkippingExport], [],
                     CompletedRun(n, [], dryRun, Some(DryRunExport(config.notes.blogFolder)), Some(DryRunExport(config.notes.tiktokFolder))), n);
      } else {
        var rest := match c.exportBlog(blog)
          case Err(m) => FailedRun(m, n, [], dryRun, None, None)
          case Ok(b) => Then([BlogExportReport(b), ExportingScript], [TikTokExport], Continue(config, c, dryRun, ScriptExportStep(n, ExportErrors("Blog", b), b, script)));
        if c.exportBlog(blog).Ok? {
          var b := c.exportBlog(blog).value;
          ContinueEnds(config, c, dryRun, ScriptExportStep(n, ExportErrors("Blog", b), b, script));
          ThenKeepsEnd([BlogExportReport(b), ExportingScript], [TikTokExport], Continue(config, c, dryRun, ScriptExportStep(n, ExportErrors("Blog", b), b, script)), n);
        }
        ThenKeepsEnd([ExportingBlog], [BlogExport], rest, n);
      }
    case ScriptExportStep(_, errors, b, script) =>
      if c.exportTikTok(script).Ok? {
        var e := c.exportTikTok(script).value;
        ThenKeepsEnd([ScriptExportReport(e)], [], CompletedRun(n, errors + ExportErrors("TikTok", e), dryRun, Some(b), Some(e)), n);
      }
  }

  /** Every run ends in one of three ways: it raised (before aggregation, with count 0, or
      after it, with the number of items), it found no items, or it reached the end. */
  lemma RunEnds(config: AppConfig, c: Components, aggregated: Result<seq<NewsletterItem>, string>, dryRun: bool)
    ensures var t := RunSpec(config, c, aggregated, dryRun);
      match aggregated
      case Err(_) => FailedEnd(t, 0)
      case Ok(items) =>
        if items == [] then t.result.success && t.progress[|t.progress| - 1] == NoNewsletters
        else FailedEnd(t, |items|) || CompletedEnd(t, |items|)
  {
    match aggregated
    case Err(m) =>
      ThenKeepsEnd([FetchingNewsletters], [], FailedRun(m, 0, [], dryRun, None, None), 0);
    case Ok(items) =>
      if items != [] {
        ContinueEnds(config, c, dryRun, SynthesisStep(items));
        ThenKeepsEnd([FetchedItems(|items|)], [Aggregation], Continue(config, c, dryRun, SynthesisStep(items)), |items|);
        ThenKeepsEnd([FetchingNewsletters], [], Then([FetchedItems(|items|)], [Aggregation], Continue(config, c, dryRun, SynthesisStep(items))), |items|);
      }
  }

  /** No items: success with count 0 and the one fixed message, no export results, and
      nothing after aggregation is called. */
  lemma NoItemsRun(config: AppConfig, c: Components, dryRun: bool)
    ensures var t := RunSpec(config, c, Ok([]), dryRun);
      && t.result == ExecutionResult(true, 0, [NoItemsMessage], dryRun, None, None, None, None)
      && t.invoked == [Aggregation]
      && t.progress == [FetchingNewsletters, FetchedItems(0), NoNewsletters]
  {
  }

  /** A `date_range_days` too large for `timedelta`, or one that takes `since` off the
      calendar, fails the run before any fetcher is called; the one error names what was
      raised, and a day count within `MaxDeltaDays` can only fail on the calendar. */
  lemma SinceOverflowRun(config: AppConfig, c: Components, fetchers: seq<SourceFetcher>, now: DateTime, dryRun: bool)
    requires MinusDays(now, config.dateRangeDays).Err?
    ensures var t := RunSpec(config, c, AggregatedItems(config, fetchers, c, now), dryRun);
      var n := config.dateRangeDays;
      && t.result.errors == [PipelineFailed(MinusDays(now, n).error)]
      && !t.result.success && t.result.newslettersProcessed == 0 && t.invoked == []
      && (CIntMin <= n <= CIntMax && MaxDeltaDays < n ==>
            t.result.errors == ["Pipeline failed: " + DeltaMagnitudeMessage(n)])
      && (-MaxDeltaDays <= n <= MaxDeltaDays ==>
            t.result.errors == ["Pipeline failed: " + DateOverflowMessage])
  {
    MinusDaysErrors(now, config.dateRangeDays);
  }

  /** A stage that raises ends the run unsuccessfully with "Pipeline failed: ..." as the
      last error and the last report, keeping the count computed before it. */
  lemma FailureKeepsProgress(config: AppConfig, c: Components, aggregated: Result<seq<NewsletterItem>, string>, dryRun: bool)
    ensures var t := RunSpec(config, c, aggregated, dryRun);
      !t.result.success ==>
        FailedEnd(t, match aggregated case Err(_) => 0 case Ok(items) => |items|)
  {
    RunEnds(config, c, aggregated, dryRun);
  }

  /** A run that reaches the end succeeds, having processed the aggregated items, of which
      there is at least one. */
  lemma SuccessRule(config: AppConfig, c: Components, aggregated: Result<seq<NewsletterItem>, string>, dryRun: bool)
    ensures var t := RunSpec(config, c, aggregated, dryRun);
      t.progress[|t.progress| - 1].PipelineComplete? ==>
        && t.result.success
        && aggregated.Ok?
        && t.result.newslettersProcessed == |aggregated.value| > 0
  {
    RunEnds(config, c, aggregated, dryRun);
  }

  /** From any step a dry run can reach, it calls no exporter, and an export result it
      records is a successful one without a note, into the configured folder. */
  lemma {:induction false} DryContinue(config: AppConfig, c: Components, step: Step)
    requires !step.ScriptExportStep?
    ensures var t := Continue(config, c, true, step);
      && BlogExport !in t.invoked && TikTokExport !in t.invoked
      && (t.result.blogExported.Some? ==>
            && t.result.success == (StepCount(step) > 0) && t.result.errors == []
            && t.result.blogExported == Some(DryRunExport(config.notes.blogFolder))
            && t.result.tiktokExported == Some(DryRunExport(config.notes.tiktokFolder)))
    decreases StepsLeft(step)
  {
    match step
    case SynthesisStep(items) =>
      if c.synthesize(items).Ok? {
        DryContinue(config, c, GenerationStep(|items|, c.synthesize(items).value));
      }
    case GenerationStep(n, s) =>
      if c.generateBlog(s).Ok? && c.generateTikTok(s).Ok? {
        DryContinue(config, c, ExportStep(n, c.generateBlog(s).value, c.generateTikTok(s).value));
      }
    case ExportStep(_, _, _) =>
  }

  /** A dry run never calls the exporter, and when it gets as far as exporting it records
      two successful exports without a note, into the configured folders. */
  lemma DryRunNeverExports(config: AppConfig, c: Components, aggregated: Result<seq<NewsletterItem>, string>)
    ensures var t := RunSpec(config, c, aggregated, true);
      && BlogExport !in t.invoked && TikTokExport !in t.invoked
      && (t.result.blogExported.Some? ==>
            && t.result.success && t.result.errors == []
            && t.result.blogExported == Some(DryRunExport(config.notes.blogFolder))
            && t.result.tiktokExported == Some(DryRunExport(config.notes.tiktokFolder)))
  {
    if aggregated.Ok? && aggregated.value != [] {
      DryContinue(config, c, SynthesisStep(aggregated.value));
    }
  }

  /** When every stage returns, a real run records exactly the failed exports' messages,
      and succeeds with the number of aggregated items. */
  lemma ExportErrorsRecorded(config: AppConfig, c: Components, items: seq<NewsletterItem>, s: SynthesizedContent,
                             blog: BlogPost, script: TikTokScript, b: ExportResult, e: ExportResult)
    requires items != []
    requires c.synthesize(items) == Ok(s) && c.generateBlog(s) == Ok(blog) && c.generateTikTok(s) == Ok(script)
    requires c.exportBlog(blog) == Ok(b) && c.exportTikTok(script) == Ok(e)
    ensures var t := RunSpec(config, c, Ok(items), false);
      && t.result == ExecutionResult(true, |items|, ExportErrors("Blog", b) + ExportErrors("TikTok", e), false, Some(b), Some(e), None, None)
      && t.invoked == [Aggregation, Synthesis, BlogGeneration, TikTokGeneration, BlogExport, TikTokExport]
  {
    var n := |items|;
    var t3 := Continue(config, c, false, ScriptExportStep(n, ExportErrors("Blog", b), b, script));
    assert t3.result == ExecutionResult(true, n, ExportErrors("Blog", b) + ExportErrors("TikTok", e), false, Some(b), Some(e), None, None);
    assert t3.invoked == [];
    var t2 := Continue(config, c, false, ExportStep(n, blog, script));
    assert t2.result == t3.result && t2.invoked == [BlogExport, TikTokExport];
    var t1 := Continue(config, c, false, GenerationStep(n, s));
    assert t1.result == t2.result && t1.invoked == [BlogGeneration, TikTokGeneration] + t2.invoked;
    var t0 := Continue(config, c, false, SynthesisStep(items));
    assert t0.result == t1.result && t0.invoked == [Synthesis] + t1.invoked;
  }

  /** The TikTok export raising after the blog export returned keeps the blog export's
      result and message. */
  lemma TikTokExportRaises(config: AppConfig, c: Components, items: seq<NewsletterItem>, s: SynthesizedContent,
                           blog: BlogPost, script: TikTokScript, b: ExportResult, m: string)
    requires items != []
    requires c.synthesize(items) == Ok(s) && c.generateBlog(s) == Ok(blog) && c.generateTikTok(s) == Ok(script)
    requires c.exportBlog(blog) == Ok(b) && c.exportTikTok(script) == Err(m)
    ensures RunSpec(config, c, Ok(items), false).result ==
      ExecutionResult(false, |items|, ExportErrors("Blog", b) + [PipelineFailed(m)], false, Some(b), None, None, None)
  {
    var n := |items|;
    var t3 := Continue(config, c, false, ScriptExportStep(n, ExportErrors("Blog", b), b, script));
    assert t3.result == ExecutionResult(false, n, ExportErrors("Blog", b) + [PipelineFailed(m)], false, Some(b), None, None, None);
    var t2 := Continue(config, c, false, ExportStep(n, blog, script));
    assert t2.result == t3.result;
    var t1 := Continue(config, c, false, GenerationStep(n, s));
    assert t1.result == t2.result;
    assert Continue(config, c, false, SynthesisStep(items)).result == t1.result;
  }

  // ---------------------------------------------------------------------------
  // The generated content in the result: the docstring of `run` says a dry run's
  // content "will still be available in the ExecutionResult", but `run` never sets
  // `blog_content` or `tiktok_content`.

  /** What the two generators returned during a run that reached them. */
  function GeneratedContent(c: Components, aggregated: Result<seq<NewsletterItem>, string>): (Option<BlogPost>, Option<TikTokScript>) {
    if aggregated.Err? || aggregated.value == [] then (None, None)
    else match c.synthesize(aggregated.value)
      case Err(_) => (None, None)
      case Ok(s) =>
        match c.generateBlog(s)
        case Err(_) => (None, None)
        case Ok(blog) => (Some(blog), match c.generateTikTok(s) case Err(_) => None case Ok(script) => Some(script))
  }

  /** As written: no step of a run fills in the generated content. */
  lemma {:induction false} ContinueLeavesContent(config: AppConfig, c: Components, dryRun: bool, step: Step)
    ensures var r := Continue(config, c, dryRun, step).result; r.blogContent.None? && r.tiktokContent.None?
    decreases StepsLeft(step)
  {
    match step
    case SynthesisStep(items) =>
      if c.synthesize(items).Ok? {
        ContinueLeavesContent(config, c, dryRun, GenerationStep(|items|, c.synthesize(items).value));
      }
    case GenerationStep(n, s) =>
      if c.generateBlog(s).Ok? && c.generateTikTok(s).Ok? {
        ContinueLeavesContent(config, c, dryRun, ExportStep(n, c.generateBlog(s).value, c.generateTikTok(s).value));
      }
    case ExportStep(n, blog, script) =>
      if !dryRun && c.exportBlog(blog).Ok? {
        var b := c.exportBlog(blog).value;
        ContinueLeavesContent(config, c, dryRun, ScriptExportStep(n, ExportErrors("Blog", b), b, script));
      }
    case ScriptExportStep(_, _, _, _) =>
  }

  /** As written: every result of `run` has `blog_content` and `tiktok_content` unset. */
  lemma RunLeavesContent(config: AppConfig, c: Components, aggregated: Result<seq<NewsletterItem>, string>, dryRun: bool)
    ensures var r := RunSpec(config, c, aggregated, dryRun).result; r.blogContent.None? && r.tiktokContent.None?
  {
    if aggregated.Ok? && aggregated.value != [] {
      ContinueLeavesContent(config, c, dryRun, SynthesisStep(aggregated.value));
    }
  }

  /** The discrepancy: a dry run whose generators both returned succeeds, yet its result
      carries neither the blog post nor the script. */
  lemma DryRunDropsContent(config: AppConfig, c: Components, items: seq<NewsletterItem>, s: SynthesizedContent,
                           blog: BlogPost, script: TikTokScript)
    requires items != []
    requires c.synthesize(items) == Ok(s) && c.generateBlog(s) == Ok(blog) && c.generateTikTok(s) == Ok(script)
    ensures var r := RunSpec(config, c, Ok(items), true).result;
      r.success && r.blogContent == None && r.tiktokContent == None
      && GeneratedContent(c, Ok(items)) == (Some(blog), Some(script))
  {
    RunLeavesContent(config, c, Ok(items), true);
    var n := |items|;
    assert Continue(config, c, true, ExportStep(n, blog, script)).result.success;
    assert Continue(config, c, true, GenerationStep(n, s)).result.success;
    assert Continue(config, c, true, SynthesisStep(items)).result.success;
  }

  /** The result the docstring describes: `run`'s result with what the generators
      returned attached to it. */
  function IntendedRunResult(config: AppConfig, c: Components, aggregated: Result<seq<NewsletterItem>, string>, dryRun: bool): (r: ExecutionResult)
    ensures r.(blogContent := None, tiktokContent := None) == RunSpec(config, c, aggregated, dryRun).result
  {
    RunLeavesContent(config, c, aggregated, dryRun);
    var (blog, script) := GeneratedContent(c, aggregated);
    RunSpec(config, c, aggregated, dryRun).result.(blogContent := blog, tiktokContent := script)
  }

  /** Corrected: a dry run whose generators both returned succeeds with the blog post and
      the script in its result, and with the dry-run export results. */
  lemma DryRunKeepsContent(config: AppConfig, c: Components, items: seq<NewsletterItem>, s: SynthesizedContent,
                           blog: BlogPost, script: TikTokScript)
    requires items != []
    requires c.synthesize(items) == Ok(s) && c.generateBlog(s) == Ok(blog) && c.generateTikTok(s) == Ok(script)
    ensures var r := IntendedRunResult(config, c, Ok(items), true);
      && r.success && r.newslettersProcessed == |items| && r.errors == []
      && r.blogContent == Some(blog) && r.tiktokContent == Some(script)
      && r.blogExported == Some(DryRunExport(config.notes.blogFolder))
      && r.tiktokExported == Some(DryRunExport(config.notes.tiktokFolder))
  {
    var n := |items|;
    var t2 := Continue(config, c, true, ExportStep(n, blog, script));
    assert t2.result == ExecutionResult(true, n, [], true, Some(DryRunExport(config.notes.blogFolder)),
                                        Some(DryRunExport(config.notes.tiktokFolder)), None, None);
    assert Continue(config, c, true, GenerationStep(n, s)).result == t2.result;
    assert Continue(config, c, true, SynthesisStep(items)).result == t2.result;
  }
}
