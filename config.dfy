/**
 * Configuration (config.py): the configuration records with their `to_dict` /
 * `from_dict` pairs and defaults, `ConfigManager.validate`, the `${NAME}` recogniser and
 * `ConfigManager.resolve_env_vars`.  `_is_valid_url` (which rests on `urlparse`) is a
 * parameter; the process environment is a map.
 */
module Config {
  import opened Wrappers
  import opened Text
  import opened Json

  // ---------------------------------------------------------------------------
  // Configuration records

  datatype EmailSourceConfig = EmailSourceConfig(
    host: string, port: int, username: string, password: string, folder: string, useSsl: bool)
  {
    function ToDict(): Dict {
      map["host" := JStr(host), "port" := JInt(port), "username" := JStr(username),
          "password" := JStr(password), "folder" := JStr(folder), "use_ssl" := JBool(useSsl)]
    }

    /** `use_ssl` defaults to true. */
    static function FromDict(d: Dict): (r: Result<EmailSourceConfig, DecodeError>)
      ensures r.Ok? ==> {"host", "port", "username", "password", "folder"} <= d.Keys
      ensures r.Ok? && "use_ssl" !in d ==> r.value.useSsl
    {
      var host :- GetStr(d, "host");
      var port :- GetInt(d, "port");
      var username :- GetStr(d, "username");
      var password :- GetStr(d, "password");
      var folder :- GetStr(d, "folder");
      var useSsl :- GetBoolOr(d, "use_ssl", true);
      Ok(EmailSourceConfig(host, port, username, password, folder, useSsl))
    }
  }

  datatype RssSourceConfig = RssSourceConfig(url: string, name: string)
  {
    function ToDict(): Dict {
      map["url" := JStr(url), "name" := JStr(name)]
    }

    static function FromDict(d: Dict): (r: Result<RssSourceConfig, DecodeError>)
      ensures r.Ok? <==> "url" in d && d["url"].JStr? && "name" in d && d["name"].JStr?
    {
      var url :- GetStr(d, "url");
      var name :- GetStr(d, "name");
      Ok(RssSourceConfig(url, name))
    }
  }

  datatype FileSourceConfig = FileSourceConfig(path: string, pattern: string)
  {
    function ToDict(): Dict {
      map["path" := JStr(path), "pattern" := JStr(pattern)]
    }

    static function FromDict(d: Dict): (r: Result<FileSourceConfig, DecodeError>)
      ensures r.Ok? <==> "path" in d && d["path"].JStr? && "pattern" in d && d["pattern"].JStr?
    {
      var path :- GetStr(d, "path");
      var pattern :- GetStr(d, "pattern");
      Ok(FileSourceConfig(path, pattern))
    }
  }

  datatype LlmConfig = LlmConfig(provider: string, model: string, apiKeyEnv: string, maxTokens: int)
  {
    function ToDict(): Dict {
      map["provider" := JStr(provider), "model" := JStr(model), "api_key_env" := JStr(apiKeyEnv),
          "max_tokens" := JInt(maxTokens)]
    }

    /** `max_tokens` defaults to 4096. */
    static function FromDict(d: Dict): (r: Result<LlmConfig, DecodeError>)
      ensures r.Ok? ==> {"provider", "model", "api_key_env"} <= d.Keys
      ensures r.Ok? && "max_tokens" !in d ==> r.value.maxTokens == 4096
    {
      var provider :- GetStr(d, "provider");
      var model :- GetStr(d, "model");
      var apiKeyEnv :- GetStr(d, "api_key_env");
      var maxTokens :- GetIntOr(d, "max_tokens", 4096);
      Ok(LlmConfig(provider, model, apiKeyEnv, maxTokens))
    }
  }

  datatype BlogConfig = BlogConfig(format: string, targetWords: int, includeSources: bool)
  {
    function ToDict(): Dict {
      map["format" := JStr(format), "target_words" := JInt(targetWords),
          "include_sources" := JBool(includeSources)]
    }

    /** `include_sources` defaults to true. */
    static function FromDict(d: Dict): (r: Result<BlogConfig, DecodeError>)
      ensures r.Ok? ==> {"format", "target_words"} <= d.Keys
      ensures r.Ok? && "include_sources" !in d ==> r.value.includeSources
    {
      var format :- GetStr(d, "format");
      var targetWords :- GetInt(d, "target_words");
      var includeSources :- GetBoolOr(d, "include_sources", true);
      Ok(BlogConfig(format, targetWords, includeSources))
    }
  }

  datatype TikTokConfig = TikTokConfig(duration: int, includeVisualCues: bool, style: string)
  {
    function ToDict(): Dict {
      map["duration" := JInt(duration), "include_visual_cues" := JBool(includeVisualCues),
          "style" := JStr(style)]
    }

    /** `include_visual_cues` defaults to true and `style` to "educational". */
    static function FromDict(d: Dict): (r: Result<TikTokConfig, DecodeError>)
      ensures r.Ok? ==> "duration" in d
      ensures r.Ok? && "include_visual_cues" !in d ==> r.value.includeVisualCues
      ensures r.Ok? && "style" !in d ==> r.value.style == "educational"
    {
      var duration :- GetInt(d, "duration");
      var includeVisualCues :- GetBoolOr(d, "include_visual_cues", true);
      var style :- GetStrOr(d, "style", "educational");
      Ok(TikTokConfig(duration, includeVisualCues, style))
    }
  }

  datatype NotesConfig = NotesConfig(account: string, blogFolder: string, tiktokFolder: string)
  {
    function ToDict(): Dict {
      map["account" := JStr(account), "blog_folder" := JStr(blogFolder),
          "tiktok_folder" := JStr(tiktokFolder)]
    }

    static function FromDict(d: Dict): (r: Result<NotesConfig, DecodeError>)
      ensures r.Ok? <==> (
        && "account" in d && d["account"].JStr?
        && "blog_folder" in d && d["blog_folder"].JStr?
        && "tiktok_folder" in d && d["tiktok_folder"].JStr?)
    {
      var account :- GetStr(d, "account");
      var blogFolder :- GetStr(d, "blog_folder");
      var tiktokFolder :- GetStr(d, "tiktok_folder");
      Ok(NotesConfig(account, blogFolder, tiktokFolder))
    }
  }

  datatype AppConfig = AppConfig(
    llm: LlmConfig,
    blog: BlogConfig,
    tiktok: TikTokConfig,
    notes: NotesConfig,
    emailSources: seq<EmailSourceConfig>,
    rssSources: seq<RssSourceConfig>,
    fileSources: seq<FileSourceConfig>,
    dateRangeDays: int)
  {
    function ToDict(): Dict {
      map[
        "llm" := JObject(llm.ToDict()),
        "blog" := JObject(blog.ToDict()),
        "tiktok" := JObject(tiktok.ToDict()),
        "notes" := JObject(notes.ToDict()),
        "email_sources" := EncodeList(emailSources, EmailToDict),
        "rss_sources" := EncodeList(rssSources, RssToDict),
        "file_sources" := EncodeList(fileSources, FileToDict),
        "date_range_days" := JInt(dateRangeDays)]
    }

    /** The three source lists default to empty and `date_range_days` to 7. */
    static function FromDict(d: Dict): (r: Result<AppConfig, DecodeError>)
      ensures r.Ok? ==> {"llm", "blog", "tiktok", "notes"} <= d.Keys
      ensures r.Ok? && "email_sources" !in d ==> r.value.emailSources == []
      ensures r.Ok? && "rss_sources" !in d ==> r.value.rssSources == []
      ensures r.Ok? && "file_sources" !in d ==> r.value.fileSources == []
      ensures r.Ok? && "date_range_days" !in d ==> r.value.dateRangeDays == 7
    {
      var llmD :- GetDict(d, "llm");
      var llm :- LlmConfig.FromDict(llmD);
      var blogD :- GetDict(d, "blog");
      var blog :- BlogConfig.FromDict(blogD);
      var tiktokD :- GetDict(d, "tiktok");
      var tiktok :- TikTokConfig.FromDict(tiktokD);
      var notesD :- GetDict(d, "notes");
      var notes :- NotesConfig.FromDict(notesD);
      var emailSources :- GetListOr(d, "email_sources", EmailFromDict);
      var rssSources :- GetListOr(d, "rss_sources", RssFromDict);
      var fileSources :- GetListOr(d, "file_sources", FileFromDict);
      var dateRangeDays :- GetIntOr(d, "date_range_days", 7);
      Ok(AppConfig(llm, blog, tiktok, notes, emailSources, rssSources, fileSources, dateRangeDays))
    }
  }

  function EmailToDict(x: EmailSourceConfig): Dict { x.ToDict() }
  function EmailFromDict(d: Dict): Result<EmailSourceConfig, DecodeError> { EmailSourceConfig.FromDict(d) }
  function RssToDict(x: RssSourceConfig): Dict { x.ToDict() }
  function RssFromDict(d: Dict): Result<RssSourceConfig, DecodeError> { RssSourceConfig.FromDict(d) }
  function FileToDict(x: FileSourceConfig): Dict { x.ToDict() }
  function FileFromDict(d: Dict): Result<FileSourceConfig, DecodeError> { FileSourceConfig.FromDict(d) }

  /** `[T.from_dict(x) for x in data.get(key, [])]`. */
  function GetListOr<T>(d: Dict, key: string, dec: Dict -> Result<T, DecodeError>): (r: Result<seq<T>, DecodeError>)
    ensures key !in d ==> r == Ok([])
  {
    if key !in d then Ok([]) else DecodeList(d[key], key, dec)
  }

  lemma EmailRoundTrip(x: EmailSourceConfig)
    ensures EmailSourceConfig.FromDict(x.ToDict()) == Ok(x)
  {
  }

  lemma {:induction false} EmailListRoundTrip(xs: seq<EmailSourceConfig>)
    ensures DecodeList(EncodeList(xs, EmailToDict), "email_sources", EmailFromDict) == Ok(xs)
  {
    forall i | 0 <= i < |xs|
      ensures EmailFromDict(EmailToDict(xs[i])) == Ok(xs[i])
    {
      EmailRoundTrip(xs[i]);
    }
    DecodeEncodeList(xs, "email_sources", EmailToDict, EmailFromDict);
  }

  lemma {:induction false} RssListRoundTrip(xs: seq<RssSourceConfig>)
    ensures DecodeList(EncodeList(xs, RssToDict), "rss_sources", RssFromDict) == Ok(xs)
  {
    DecodeEncodeList(xs, "rss_sources", RssToDict, RssFromDict);
  }

  lemma {:induction false} FileListRoundTrip(xs: seq<FileSourceConfig>)
    ensures DecodeList(EncodeList(xs, FileToDict), "file_sources", FileFromDict) == Ok(xs)
  {
    DecodeEncodeList(xs, "file_sources", FileToDict, FileFromDict);
  }

  lemma SectionsRoundTrip(c: AppConfig)
    ensures LlmConfig.FromDict(c.llm.ToDict()) == Ok(c.llm)
    ensures BlogConfig.FromDict(c.blog.ToDict()) == Ok(c.blog)
    ensures TikTokConfig.FromDict(c.tiktok.ToDict()) == Ok(c.tiktok)
    ensures NotesConfig.FromDict(c.notes.ToDict()) == Ok(c.notes)
  {
  }

  /** The entries of `c.to_dict()`. */
  lemma ToDictEntries(c: AppConfig)
    ensures GetDict(c.ToDict(), "llm") == Ok(c.llm.ToDict())
    ensures GetDict(c.ToDict(), "blog") == Ok(c.blog.ToDict())
    ensures GetDict(c.ToDict(), "tiktok") == Ok(c.tiktok.ToDict())
    ensures GetDict(c.ToDict(), "notes") == Ok(c.notes.ToDict())
    ensures GetIntOr(c.ToDict(), "date_range_days", 7) == Ok(c.dateRangeDays)
  {
  }

  lemma ToDictSources(c: AppConfig)
    ensures GetListOr(c.ToDict(), "email_sources", EmailFromDict) == Ok(c.emailSources)
    ensures GetListOr(c.ToDict(), "rss_sources", RssFromDict) == Ok(c.rssSources)
    ensures GetListOr(c.ToDict(), "file_sources", FileFromDict) == Ok(c.fileSources)
  {
    EmailListRoundTrip(c.emailSources);
    RssListRoundTrip(c.rssSources);
    FileListRoundTrip(c.fileSources);
  }

  /** `AppConfig.from_dict(c.to_dict()) == c`, field for field and source for source. */
  lemma {:induction false} AppConfigRoundTrip(c: AppConfig)
    ensures AppConfig.FromDict(c.ToDict()) == Ok(c)
  {
    ToDictEntries(c);
    ToDictSources(c);
    SectionsRoundTrip(c);
  }

  // ---------------------------------------------------------------------------
  // validate

  const ValidBlogFormats: set<string> := {"long-form", "summary", "listicle"}
  const ValidTikTokDurations: set<int> := {15, 30, 60}
  const ValidTikTokStyles: set<string> := {"educational", "entertaining", "news"}

  /** `', '.join(sorted(...))` of the three sets above. */
  const BlogFormatOptions := "listicle, long-form, summary"
  const DurationOptions := "15, 30, 60"
  const StyleOptions := "educational, entertaining, news"

  const NoSourcesMessage := "At least one newsletter source must be configured (email_sources, rss_sources, or file_sources)"

  /** One failed rule of `validate`, with what its message mentions; `i` is the position
      of the source in its list. */
  datatype Issue =
    | NoSources
    | HostRequired(i: nat)
    | UsernameRequired(i: nat)
    | PasswordRequired(i: nat)
    | FolderRequired(i: nat)
    | PortOutOfRange(i: nat, port: int)
    | UrlRequired(i: nat)
    | UrlInvalid(i: nat, url: string)
    | NameRequired(i: nat)
    | PathRequired(i: nat)
    | PatternRequired(i: nat)
    | ProviderRequired
    | ModelRequired
    | ApiKeyEnvRequired
    | FormatInvalid(format: string)
    | TargetWordsInvalid(words: int)
    | DurationInvalid(duration: int)
    | StyleInvalid(style: string)
    | AccountRequired
    | BlogFolderRequired
    | TikTokFolderRequired

  function EmailPrefix(i: nat): string { "email_sources[" + NatToString(i) + "]" }
  function RssPrefix(i: nat): string { "rss_sources[" + NatToString(i) + "]" }
  function FilePrefix(i: nat): string { "file_sources[" + NatToString(i) + "]" }

  /** The field an issue is reported under. */
  function Field(e: Issue): string
    requires !e.NoSources?
  {
    match e
    case HostRequired(i) => EmailPrefix(i) + ".host"
    case UsernameRequired(i) => EmailPrefix(i) + ".username"
    case PasswordRequired(i) => EmailPrefix(i) + ".password"
    case FolderRequired(i) => EmailPrefix(i) + ".folder"
    case PortOutOfRange(i, _) => EmailPrefix(i) + ".port"
    case UrlRequired(i) => RssPrefix(i) + ".url"
    case UrlInvalid(i, _) => RssPrefix(i) + ".url"
    case NameRequired(i) => RssPrefix(i) + ".name"
    case PathRequired(i) => FilePrefix(i) + ".path"
    case PatternRequired(i) => FilePrefix(i) + ".pattern"
    case ProviderRequired => "llm.provider"
    case ModelRequired => "llm.model"
    case ApiKeyEnvRequired => "llm.api_key_env"
    case FormatInvalid(_) => "blog.format"
    case TargetWordsInvalid(_) => "blog.target_words"
    case DurationInvalid(_) => "tiktok.duration"
    case StyleInvalid(_) => "tiktok.style"
    case AccountRequired => "notes.account"
    case BlogFolderRequired => "notes.blog_folder"
    case TikTokFolderRequired => "notes.tiktok_folder"
  }

  /** What is said about the field. */
  function Detail(e: Issue): string
    requires !e.NoSources?
  {
    match e
    case HostRequired(_) => "Host is required"
    case UsernameRequired(_) => "Username is required"
    case PasswordRequired(_) => "Password is required"
    case FolderRequired(_) => "Folder is required"
    case PortOutOfRange(_, port) => "Port must be between 1 and 65535, got " + IntToString(port)
    case UrlRequired(_) => "URL is required"
    case UrlInvalid(_, url) => "Invalid URL format: " + url
    case NameRequired(_) => "Name is required"
    case PathRequired(_) => "Path is required"
    case PatternRequired(_) => "Pattern is required"
    case ProviderRequired => "Provider is required"
    case ModelRequired => "Model is required"
    case ApiKeyEnvRequired => "API key environment variable name is required"
    case FormatInvalid(f) => "Invalid format '" + f + "'. Valid options: " + BlogFormatOptions
    case TargetWordsInvalid(n) => "Must be a positive integer, got " + IntToString(n)
    case DurationInvalid(d) => "Invalid duration " + IntToString(d) + ". Valid options: " + DurationOptions
    case StyleInvalid(s) => "Invalid style '" + s + "'. Valid options: " + StyleOptions
    case AccountRequired => "Account name is required"
    case BlogFolderRequired => "Blog folder name is required"
    case TikTokFolderRequired => "TikTok folder name is required"
  }

  /** The message `validate` appends for an issue: `<field>: <detail>`. */
  function Message(e: Issue): (m: string)
    ensures !e.NoSources? ==> StartsWith(m, Field(e) + ": ")
  {
    if e.NoSources? then NoSourcesMessage
    else
      StartsWithConcat(Field(e) + ": ", Detail(e));
      Field(e) + ": " + Detail(e)
  }

  function Messages(es: seq<Issue>): (ms: seq<string>)
    ensures |ms| == |es|
    ensures forall k :: 0 <= k < |es| ==> ms[k] == Message(es[k])
  {
    seq(|es|, k requires 0 <= k < |es| => Message(es[k]))
  }

  function TotalSources(c: AppConfig): nat {
    |c.emailSources| + |c.rssSources| + |c.fileSources|
  }

  /** Python's `not s` for a string. */
  predicate Falsy(s: string) { |s| == 0 }

  function When(b: bool, e: Issue): seq<Issue> {
    if b then [e] else []
  }

  /** The issues of the email source at position `i`, in the order they are checked. */
  function EmailSourceIssues(i: nat, s: EmailSourceConfig): seq<Issue> {
    When(Falsy(s.host), HostRequired(i)) +
    When(Falsy(s.username), UsernameRequired(i)) +
    When(Falsy(s.password), PasswordRequired(i)) +
    When(Falsy(s.folder), FolderRequired(i)) +
    When(!(1 <= s.port <= 65535), PortOutOfRange(i, s.port))
  }

  /** An empty URL is reported as missing and is not checked further. */
  function RssSourceIssues(i: nat, s: RssSourceConfig, isValidUrl: string -> bool): seq<Issue> {
    (if Falsy(s.url) then [UrlRequired(i)] else When(!isValidUrl(s.url), UrlInvalid(i, s.url))) +
    When(Falsy(s.name), NameRequired(i))
  }

  function FileSourceIssues(i: nat, s: FileSourceConfig): seq<Issue> {
    When(Falsy(s.path), PathRequired(i)) +
    When(Falsy(s.pattern), PatternRequired(i))
  }

  /** The issues of the first `n` sources of a list, source by source, where `check(i, s)`
      gives the issues of source `s` at position `i`. */
  function Gather<S>(srcs: seq<S>, n: nat, check: (nat, S) -> seq<Issue>): seq<Issue>
    requires n <= |srcs|
  {
    if n == 0 then [] else Gather(srcs, n - 1, check) + check(n - 1, srcs[n - 1])
  }

  function RssCheck(isValidUrl: string -> bool): (nat, RssSourceConfig) -> seq<Issue> {
    (i: nat, s: RssSourceConfig) => RssSourceIssues(i, s, isValidUrl)
  }

  function LlmIssues(l: LlmConfig): seq<Issue> {
    When(Falsy(l.provider), ProviderRequired) +
    When(Falsy(l.model), ModelRequired) +
    When(Falsy(l.apiKeyEnv), ApiKeyEnvRequired)
  }

  function BlogIssues(b: BlogConfig): seq<Issue> {
    When(b.format !in ValidBlogFormats, FormatInvalid(b.format)) +
    When(b.targetWords <= 0, TargetWordsInvalid(b.targetWords))
  }

  function TikTokIssues(t: TikTokConfig): seq<Issue> {
    When(t.duration !in ValidTikTokDurations, DurationInvalid(t.duration)) +
    When(t.style !in ValidTikTokStyles, StyleInvalid(t.style))
  }

  function NotesIssues(n: NotesConfig): seq<Issue> {
    When(Falsy(n.account), AccountRequired) +
    When(Falsy(n.blogFolder), BlogFolderRequired) +
    When(Falsy(n.tiktokFolder), TikTokFolderRequired)
  }

  /** The checks on the LLM, blog, TikTok and Notes sections, in order. */
  function SectionIssues(c: AppConfig): seq<Issue> {
    LlmIssues(c.llm) + BlogIssues(c.blog) + TikTokIssues(c.tiktok) + NotesIssues(c.notes)
  }

  /** Every issue `validate` reports, in order. */
  function ValidationIssues(c: AppConfig, isValidUrl: string -> bool): seq<Issue> {
    When(TotalSources(c) == 0, NoSources) +
    Gather(c.emailSources, |c.emailSources|, EmailSourceIssues) +
    Gather(c.rssSources, |c.rssSources|, RssCheck(isValidUrl)) +
    Gather(c.fileSources, |c.fileSources|, FileSourceIssues) +
    SectionIssues(c)
  }

  // The loop bodies of `validate`, one source at a time, and its section checks

  method CheckEmailSource(i: nat, src: EmailSourceConfig) returns (found: seq<Issue>)
    ensures found == EmailSourceIssues(i, src)
  {
    found := [];
    if Falsy(src.host) { found := found + [HostRequired(i)]; }
    assert found == When(Falsy(src.host), HostRequired(i));
    if Falsy(src.username) { found := found + [UsernameRequired(i)]; }
    assert found == When(Falsy(src.host), HostRequired(i)) + When(Falsy(src.username), UsernameRequired(i));
    if Falsy(src.password) { found := found + [PasswordRequired(i)]; }
    if Falsy(src.folder) { found := found + [FolderRequired(i)]; }
    if !(1 <= src.port <= 65535) { found := found + [PortOutOfRange(i, src.port)]; }
  }

  method CheckRssSource(i: nat, src: RssSourceConfig, isValidUrl: string -> bool) returns (found: seq<Issue>)
    ensures found == RssSourceIssues(i, src, isValidUrl)
  {
    found := [];
    if Falsy(src.url) {
      found := found + [UrlRequired(i)];
    } else if !isValidUrl(src.url) {
      found := found + [UrlInvalid(i, src.url)];
    }
    if Falsy(src.name) { found := found + [NameRequired(i)]; }
  }

  method CheckFileSource(i: nat, src: FileSourceConfig) returns (found: seq<Issue>)
    ensures found == FileSourceIssues(i, src)
  {
    found := [];
    if Falsy(src.path) { found := found + [PathRequired(i)]; }
    if Falsy(src.pattern) { found := found + [PatternRequired(i)]; }
  }

  method CheckLlm(l: LlmConfig) returns (found: seq<Issue>)
    ensures found == LlmIssues(l)
  {
    found := [];
    if Falsy(l.provider) { found := found + [ProviderRequired]; }
    if Falsy(l.model) { found := found + [ModelRequired]; }
    if Falsy(l.apiKeyEnv) { found := found + [ApiKeyEnvRequired]; }
  }

  method CheckBlog(b: BlogConfig) returns (found: seq<Issue>)
    ensures found == BlogIssues(b)
  {
    found := [];
    if b.format !in ValidBlogFormats { found := found + [FormatInvalid(b.format)]; }
    if b.targetWords <= 0 { found := found + [TargetWordsInvalid(b.targetWords)]; }
  }

  method CheckTikTok(t: TikTokConfig) returns (found: seq<Issue>)
    ensures found == TikTokIssues(t)
  {
    found := [];
    if t.duration !in ValidTikTokDurations { found := found + [DurationInvalid(t.duration)]; }
    if t.style !in ValidTikTokStyles { found := found + [StyleInvalid(t.style)]; }
  }

  method CheckNotes(n: NotesConfig) returns (found: seq<Issue>)
    ensures found == NotesIssues(n)
  {
    found := [];
    if Falsy(n.account) { found := found + [AccountRequired]; }
    if Falsy(n.blogFolder) { found := found + [BlogFolderRequired]; }
    if Falsy(n.tiktokFolder) { found := found + [TikTokFolderRequired]; }
  }

  /** The three loops of `validate`, one per source list. */
  method CheckEmailSources(srcs: seq<EmailSourceConfig>) returns (found: seq<Issue>)
    ensures found == Gather(srcs, |srcs|, EmailSourceIssues)
  {
    found := [];
    for i := 0 to |srcs|
      invariant found == Gather(srcs, i, EmailSourceIssues)
    {
      var issues := CheckEmailSource(i, srcs[i]);
      found := found + issues;
    }
  }

  method CheckRssSources(srcs: seq<RssSourceConfig>, isValidUrl: string -> bool) returns (found: seq<Issue>)
    ensures found == Gather(srcs, |srcs|, RssCheck(isValidUrl))
  {
    found := [];
    for i := 0 to |srcs|
      invariant found == Gather(srcs, i, RssCheck(isValidUrl))
    {
      var issues := CheckRssSource(i, srcs[i], isValidUrl);
      found := found + issues;
    }
  }

  method CheckFileSources(srcs: seq<FileSourceConfig>) returns (found: seq<Issue>)
    ensures found == Gather(srcs, |srcs|, FileSourceIssues)
  {
    found := [];
    for i := 0 to |srcs|
      invariant found == Gather(srcs, i, FileSourceIssues)
    {
      var issues := CheckFileSource(i, srcs[i]);
      found := found + issues;
    }
  }

  /** `ConfigManager.validate`: one message per failed rule, accumulated across the
      source lists and the sections. */
  method Validate(c: AppConfig, isValidUrl: string -> bool) returns (errors: seq<string>)
    ensures errors == Messages(ValidationIssues(c, isValidUrl))
  {
    var issues: seq<Issue> := [];
    if |c.emailSources| + |c.rssSources| + |c.fileSources| == 0 {
      issues := issues + [NoSources];
    }
    var email := CheckEmailSources(c.emailSources);
    var rss := CheckRssSources(c.rssSources, isValidUrl);
    var file := CheckFileSources(c.fileSources);
    var llm := CheckLlm(c.llm);
    var blog := CheckBlog(c.blog);
    var tiktok := CheckTikTok(c.tiktok);
    var notes := CheckNotes(c.notes);
    assert issues == When(TotalSources(c) == 0, NoSources);
    assert llm + blog + tiktok + notes == SectionIssues(c);
    issues := issues + email + rss + file + (llm + blog + tiktok + notes);
    assert issues == ValidationIssues(c, isValidUrl);
    errors := Messages(issues);
  }

  // The rules, stated independently of the issues

  predicate EmailSourceValid(s: EmailSourceConfig) {
    !Falsy(s.host) && !Falsy(s.username) && !Falsy(s.password) && !Falsy(s.folder) && 1 <= s.port <= 65535
  }

  predicate RssSourceValid(s: RssSourceConfig, isValidUrl: string -> bool) {
    !Falsy(s.url) && isValidUrl(s.url) && !Falsy(s.name)
  }

  predicate FileSourceValid(s: FileSourceConfig) {
    !Falsy(s.path) && !Falsy(s.pattern)
  }

  predicate SectionsValid(c: AppConfig) {
    && !Falsy(c.llm.provider) && !Falsy(c.llm.model) && !Falsy(c.llm.apiKeyEnv)
    && c.blog.format in ValidBlogFormats && c.blog.targetWords > 0
    && c.tiktok.duration in ValidTikTokDurations && c.tiktok.style in ValidTikTokStyles
    && !Falsy(c.notes.account) && !Falsy(c.notes.blogFolder) && !Falsy(c.notes.tiktokFolder)
  }

  /** A configuration that satisfies every rule `validate` checks. */
  predicate ConfigValid(c: AppConfig, isValidUrl: string -> bool) {
    && TotalSources(c) > 0
    && (forall i :: 0 <= i < |c.emailSources| ==> EmailSourceValid(c.emailSources[i]))
    && (forall i :: 0 <= i < |c.rssSources| ==> RssSourceValid(c.rssSources[i], isValidUrl))
    && (forall i :: 0 <= i < |c.fileSources| ==> FileSourceValid(c.fileSources[i]))
    && SectionsValid(c)
  }

  // Lemmas about Gather, for any check

  lemma {:induction false} GatherEmpty<S>(srcs: seq<S>, n: nat, check: (nat, S) -> seq<Issue>)
    requires n <= |srcs|
    ensures |Gather(srcs, n, check)| == 0 <==> forall i :: 0 <= i < n ==> |check(i, srcs[i])| == 0
  {
    if n > 0 {
      GatherEmpty(srcs, n - 1, check);
    }
  }

  lemma {:induction false} GatherIn<S>(srcs: seq<S>, n: nat, check: (nat, S) -> seq<Issue>, i: nat, e: Issue)
    requires i < n <= |srcs| && e in check(i, srcs[i])
    ensures e in Gather(srcs, n, check)
  {
    if i < n - 1 {
      GatherIn(srcs, n - 1, check, i, e);
    }
  }

  lemma {:induction false} GatherFrom<S>(srcs: seq<S>, n: nat, check: (nat, S) -> seq<Issue>, e: Issue)
    requires n <= |srcs| && e in Gather(srcs, n, check)
    ensures exists i :: 0 <= i < n && e in check(i, srcs[i])
  {
    if e !in check(n - 1, srcs[n - 1]) {
      GatherFrom(srcs, n - 1, check, e);
    }
  }

  // One source at a time

  /** The part of the configuration an issue is about. */
  datatype Part = SourcesPart | EmailPart | RssPart | FilePart | LlmPart | BlogPart | TikTokPart | NotesPart

  function PartOf(e: Issue): Part {
    match e
    case NoSources => SourcesPart
    case HostRequired(_) => EmailPart
    case UsernameRequired(_) => EmailPart
    case PasswordRequired(_) => EmailPart
    case FolderRequired(_) => EmailPart
    case PortOutOfRange(_, _) => EmailPart
    case UrlRequired(_) => RssPart
    case UrlInvalid(_, _) => RssPart
    case NameRequired(_) => RssPart
    case PathRequired(_) => FilePart
    case PatternRequired(_) => FilePart
    case ProviderRequired => LlmPart
    case ModelRequired => LlmPart
    case ApiKeyEnvRequired => LlmPart
    case FormatInvalid(_) => BlogPart
    case TargetWordsInvalid(_) => BlogPart
    case DurationInvalid(_) => TikTokPart
    case StyleInvalid(_) => TikTokPart
    case AccountRequired => NotesPart
    case BlogFolderRequired => NotesPart
    case TikTokFolderRequired => NotesPart
  }

  lemma EmailSourceIssuesValid(i: nat, s: EmailSourceConfig)
    ensures |EmailSourceIssues(i, s)| == 0 <==> EmailSourceValid(s)
  {
  }

  lemma EmailSourceIssuesPart(i: nat, s: EmailSourceConfig)
    ensures forall e :: e in EmailSourceIssues(i, s) ==> PartOf(e) == EmailPart && e.i == i
  {
    var a := When(Falsy(s.host), HostRequired(i)) + When(Falsy(s.username), UsernameRequired(i));
    var b := When(Falsy(s.password), PasswordRequired(i)) + When(Falsy(s.folder), FolderRequired(i));
    var d := When(!(1 <= s.port <= 65535), PortOutOfRange(i, s.port));
    assert EmailSourceIssues(i, s) == a + b + d;
    forall e | e in a + b + d
      ensures PartOf(e) == EmailPart && e.i == i
    {
      assert e in a || e in b || e in d;
    }
  }

  lemma EmailSourcePort(i: nat, s: EmailSourceConfig, p: int)
    ensures PortOutOfRange(i, p) in EmailSourceIssues(i, s) <==> p == s.port && !(1 <= p <= 65535)
  {
  }

  lemma RssSourceIssuesValid(i: nat, s: RssSourceConfig, isValidUrl: string -> bool)
    ensures |RssSourceIssues(i, s, isValidUrl)| == 0 <==> RssSourceValid(s, isValidUrl)
  {
  }

  lemma RssSourceIssuesPart(i: nat, s: RssSourceConfig, isValidUrl: string -> bool)
    ensures forall e :: e in RssSourceIssues(i, s, isValidUrl) ==> PartOf(e) == RssPart && e.i == i
  {
  }

  lemma FileSourceIssuesValid(i: nat, s: FileSourceConfig)
    ensures |FileSourceIssues(i, s)| == 0 <==> FileSourceValid(s)
  {
  }

  lemma FileSourceIssuesPart(i: nat, s: FileSourceConfig)
    ensures forall e :: e in FileSourceIssues(i, s) ==> PartOf(e) == FilePart && e.i == i
  {
  }

  lemma EmailGatherValid(srcs: seq<EmailSourceConfig>)
    ensures |Gather(srcs, |srcs|, EmailSourceIssues)| == 0 <==> forall i :: 0 <= i < |srcs| ==> EmailSourceValid(srcs[i])
  {
    GatherEmpty(srcs, |srcs|, EmailSourceIssues);
    forall i | 0 <= i < |srcs|
      ensures |EmailSourceIssues(i, srcs[i])| == 0 <==> EmailSourceValid(srcs[i])
    {
      EmailSourceIssuesValid(i, srcs[i]);
    }
  }

  lemma EmailGatherPart(srcs: seq<EmailSourceConfig>, e: Issue)
    requires e in Gather(srcs, |srcs|, EmailSourceIssues)
    ensures PartOf(e) == EmailPart
  {
    GatherFrom(srcs, |srcs|, EmailSourceIssues, e);
    var i :| 0 <= i < |srcs| && e in EmailSourceIssues(i, srcs[i]);
    EmailSourceIssuesPart(i, srcs[i]);
  }

  lemma RssGatherValid(srcs: seq<RssSourceConfig>, isValidUrl: string -> bool)
    ensures |Gather(srcs, |srcs|, RssCheck(isValidUrl))| == 0 <==> forall i :: 0 <= i < |srcs| ==> RssSourceValid(srcs[i], isValidUrl)
  {
    var check := RssCheck(isValidUrl);
    GatherEmpty(srcs, |srcs|, check);
    forall i | 0 <= i < |srcs|
      ensures |check(i, srcs[i])| == 0 <==> RssSourceValid(srcs[i], isValidUrl)
    {
      RssSourceIssuesValid(i, srcs[i], isValidUrl);
    }
  }

  lemma RssGatherPart(srcs: seq<RssSourceConfig>, isValidUrl: string -> bool, e: Issue)
    requires e in Gather(srcs, |srcs|, RssCheck(isValidUrl))
    ensures PartOf(e) == RssPart
  {
    var check := RssCheck(isValidUrl);
    GatherFrom(srcs, |srcs|, check, e);
    var i :| 0 <= i < |srcs| && e in check(i, srcs[i]);
    RssSourceIssuesPart(i, srcs[i], isValidUrl);
  }

  lemma FileGatherValid(srcs: seq<FileSourceConfig>)
    ensures |Gather(srcs, |srcs|, FileSourceIssues)| == 0 <==> forall i :: 0 <= i < |srcs| ==> FileSourceValid(srcs[i])
  {
    GatherEmpty(srcs, |srcs|, FileSourceIssues);
    forall i | 0 <= i < |srcs|
      ensures |FileSourceIssues(i, srcs[i])| == 0 <==> FileSourceValid(srcs[i])
    {
      FileSourceIssuesValid(i, srcs[i]);
    }
  }

  lemma FileGatherPart(srcs: seq<FileSourceConfig>, e: Issue)
    requires e in Gather(srcs, |srcs|, FileSourceIssues)
    ensures PartOf(e) == FilePart
  {
    GatherFrom(srcs, |srcs|, FileSourceIssues, e);
    var i :| 0 <= i < |srcs| && e in FileSourceIssues(i, srcs[i]);
    FileSourceIssuesPart(i, srcs[i]);
  }

  lemma LlmIssuesPart(l: LlmConfig)
    ensures forall e :: e in LlmIssues(l) ==> PartOf(e) == LlmPart
  {
  }

  lemma LlmIssuesSpec(l: LlmConfig)
    ensures |LlmIssues(l)| == 0 <==> !Falsy(l.provider) && !Falsy(l.model) && !Falsy(l.apiKeyEnv)
    ensures ProviderRequired in LlmIssues(l) <==> Falsy(l.provider)
  {
  }

  lemma BlogIssuesPart(b: BlogConfig)
    ensures forall e :: e in BlogIssues(b) ==> PartOf(e) == BlogPart
  {
  }

  lemma BlogIssuesSpec(b: BlogConfig)
    ensures |BlogIssues(b)| == 0 <==> b.format in ValidBlogFormats && b.targetWords > 0
    ensures FormatInvalid(b.format) in BlogIssues(b) <==> b.format !in ValidBlogFormats
    ensures TargetWordsInvalid(b.targetWords) in BlogIssues(b) <==> b.targetWords <= 0
  {
  }

  lemma TikTokIssuesPart(t: TikTokConfig)
    ensures forall e :: e in TikTokIssues(t) ==> PartOf(e) == TikTokPart
  {
  }

  lemma TikTokIssuesSpec(t: TikTokConfig)
    ensures |TikTokIssues(t)| == 0 <==> t.duration in ValidTikTokDurations && t.style in ValidTikTokStyles
    ensures DurationInvalid(t.duration) in TikTokIssues(t) <==> t.duration !in ValidTikTokDurations
    ensures StyleInvalid(t.style) in TikTokIssues(t) <==> t.style !in ValidTikTokStyles
  {
  }

  lemma NotesIssuesPart(n: NotesConfig)
    ensures forall e :: e in NotesIssues(n) ==> PartOf(e) == NotesPart
  {
  }

  lemma NotesIssuesSpec(n: NotesConfig)
    ensures |NotesIssues(n)| == 0 <==> !Falsy(n.account) && !Falsy(n.blogFolder) && !Falsy(n.tiktokFolder)
    ensures AccountRequired in NotesIssues(n) <==> Falsy(n.account)
  {
  }

  lemma SectionIssuesValid(c: AppConfig)
    ensures |SectionIssues(c)| == 0 <==> SectionsValid(c)
  {
    LlmIssuesSpec(c.llm);
    BlogIssuesSpec(c.blog);
    TikTokIssuesSpec(c.tiktok);
    NotesIssuesSpec(c.notes);
  }

  /** Where an issue can come from. */
  lemma Locate(c: AppConfig, isValidUrl: string -> bool, e: Issue)
    ensures e in ValidationIssues(c, isValidUrl) <==>
      || (e == NoSources && TotalSources(c) == 0)
      || e in Gather(c.emailSources, |c.emailSources|, EmailSourceIssues)
      || e in Gather(c.rssSources, |c.rssSources|, RssCheck(isValidUrl))
      || e in Gather(c.fileSources, |c.fileSources|, FileSourceIssues)
      || e in LlmIssues(c.llm) || e in BlogIssues(c.blog) || e in TikTokIssues(c.tiktok) || e in NotesIssues(c.notes)
  {
    var w := When(TotalSources(c) == 0, NoSources);
    var em := Gather(c.emailSources, |c.emailSources|, EmailSourceIssues);
    var rs := Gather(c.rssSources, |c.rssSources|, RssCheck(isValidUrl));
    var fs := Gather(c.fileSources, |c.fileSources|, FileSourceIssues);
    assert ValidationIssues(c, isValidUrl) == w + em + rs + fs + SectionIssues(c);
  }

  /** Every issue outside the source lists comes from one section's checks. */
  lemma OtherParts(c: AppConfig, isValidUrl: string -> bool, e: Issue)
    requires e in ValidationIssues(c, isValidUrl)
    ensures PartOf(e) == SourcesPart ==> e == NoSources
    ensures PartOf(e) == EmailPart ==> e in Gather(c.emailSources, |c.emailSources|, EmailSourceIssues)
    ensures PartOf(e) == LlmPart ==> e in LlmIssues(c.llm)
    ensures PartOf(e) == BlogPart ==> e in BlogIssues(c.blog)
    ensures PartOf(e) == TikTokPart ==> e in TikTokIssues(c.tiktok)
    ensures PartOf(e) == NotesPart ==> e in NotesIssues(c.notes)
  {
    Locate(c, isValidUrl, e);
    if e in Gather(c.emailSources, |c.emailSources|, EmailSourceIssues) { EmailGatherPart(c.emailSources, e); }
    if e in Gather(c.rssSources, |c.rssSources|, RssCheck(isValidUrl)) { RssGatherPart(c.rssSources, isValidUrl, e); }
    if e in Gather(c.fileSources, |c.fileSources|, FileSourceIssues) { FileGatherPart(c.fileSources, e); }
    LlmIssuesPart(c.llm);
    BlogIssuesPart(c.blog);
    TikTokIssuesPart(c.tiktok);
    NotesIssuesPart(c.notes);
  }

  /** An issue about the LLM section is reported exactly when that section's checks raise
      it. */
  lemma LlmPartReported(c: AppConfig, isValidUrl: string -> bool, e: Issue)
    requires PartOf(e) == LlmPart
    ensures e in ValidationIssues(c, isValidUrl) <==> e in LlmIssues(c.llm)
  {
    Locate(c, isValidUrl, e);
    if e in ValidationIssues(c, isValidUrl) {
      OtherParts(c, isValidUrl, e);
    }
  }

  /** The same for the blog section. */
  lemma BlogPartReported(c: AppConfig, isValidUrl: string -> bool, e: Issue)
    requires PartOf(e) == BlogPart
    ensures e in ValidationIssues(c, isValidUrl) <==> e in BlogIssues(c.blog)
  {
    Locate(c, isValidUrl, e);
    if e in ValidationIssues(c, isValidUrl) {
      OtherParts(c, isValidUrl, e);
    }
  }

  /** The same for the TikTok section. */
  lemma TikTokPartReported(c: AppConfig, isValidUrl: string -> bool, e: Issue)
    requires PartOf(e) == TikTokPart
    ensures e in ValidationIssues(c, isValidUrl) <==> e in TikTokIssues(c.tiktok)
  {
    Locate(c, isValidUrl, e);
    if e in ValidationIssues(c, isValidUrl) {
      OtherParts(c, isValidUrl, e);
    }
  }

  /** The same for the Notes section. */
  lemma NotesPartReported(c: AppConfig, isValidUrl: string -> bool, e: Issue)
    requires PartOf(e) == NotesPart
    ensures e in ValidationIssues(c, isValidUrl) <==> e in NotesIssues(c.notes)
  {
    Locate(c, isValidUrl, e);
    if e in ValidationIssues(c, isValidUrl) {
      OtherParts(c, isValidUrl, e);
    }
  }

  // What validate reports

  /** `validate` returns no message exactly when every rule holds. */
  lemma ValidateEmptyIffValid(c: AppConfig, isValidUrl: string -> bool)
    ensures Messages(ValidationIssues(c, isValidUrl)) == [] <==> ConfigValid(c, isValidUrl)
  {
    EmailGatherValid(c.emailSources);
    RssGatherValid(c.rssSources, isValidUrl);
    FileGatherValid(c.fileSources);
    SectionIssuesValid(c);
    assert |Messages(ValidationIssues(c, isValidUrl))| == |ValidationIssues(c, isValidUrl)|;
  }

  /** With no source configured, the first message is the one about sources; with the
      sections valid as well it is the only one. */
  lemma NoSourcesReported(c: AppConfig, isValidUrl: string -> bool)
    requires TotalSources(c) == 0
    ensures |ValidationIssues(c, isValidUrl)| > 0 && Messages(ValidationIssues(c, isValidUrl))[0] == NoSourcesMessage
    ensures SectionsValid(c) ==> Messages(ValidationIssues(c, isValidUrl)) == [NoSourcesMessage]
  {
    var e := ValidationIssues(c, isValidUrl);
    assert e[0] == NoSources;
    if SectionsValid(c) {
      SectionIssuesValid(c);
      assert e == [NoSources];
    }
  }

  /** The email port rule, in both directions: the issue for source `i` is reported
      exactly when `i` is a source whose port lies outside 1..65535. */
  lemma PortReported(c: AppConfig, isValidUrl: string -> bool, i: nat, port: int)
    ensures PortOutOfRange(i, port) in ValidationIssues(c, isValidUrl) <==>
      i < |c.emailSources| && c.emailSources[i].port == port && !(1 <= port <= 65535)
  {
    var e := PortOutOfRange(i, port);
    Locate(c, isValidUrl, e);
    if i < |c.emailSources| && c.emailSources[i].port == port && !(1 <= port <= 65535) {
      EmailSourcePort(i, c.emailSources[i], port);
      GatherIn(c.emailSources, |c.emailSources|, EmailSourceIssues, i, e);
    }
    if e in ValidationIssues(c, isValidUrl) {
      OtherParts(c, isValidUrl, e);
      GatherFrom(c.emailSources, |c.emailSources|, EmailSourceIssues, e);
      var j :| 0 <= j < |c.emailSources| && e in EmailSourceIssues(j, c.emailSources[j]);
      EmailSourceIssuesPart(j, c.emailSources[j]);
      EmailSourcePort(i, c.emailSources[i], port);
    }
  }

  /** Each blog rule, in both directions: its issue is reported exactly when the setting
      breaks the rule. */
  lemma BlogReported(c: AppConfig, isValidUrl: string -> bool)
    ensures FormatInvalid(c.blog.format) in ValidationIssues(c, isValidUrl) <==> c.blog.format !in ValidBlogFormats
    ensures TargetWordsInvalid(c.blog.targetWords) in ValidationIssues(c, isValidUrl) <==> c.blog.targetWords <= 0
  {
    var e1, e2 := FormatInvalid(c.blog.format), TargetWordsInvalid(c.blog.targetWords);
    assert PartOf(e1) == BlogPart && PartOf(e2) == BlogPart;
    BlogIssuesSpec(c.blog);
    BlogPartReported(c, isValidUrl, e1);
    BlogPartReported(c, isValidUrl, e2);
  }

  /** The same for the TikTok rules. */
  lemma TikTokReported(c: AppConfig, isValidUrl: string -> bool)
    ensures DurationInvalid(c.tiktok.duration) in ValidationIssues(c, isValidUrl) <==> c.tiktok.duration !in ValidTikTokDurations
    ensures StyleInvalid(c.tiktok.style) in ValidationIssues(c, isValidUrl) <==> c.tiktok.style !in ValidTikTokStyles
  {
    var e1, e2 := DurationInvalid(c.tiktok.duration), StyleInvalid(c.tiktok.style);
    assert PartOf(e1) == TikTokPart && PartOf(e2) == TikTokPart;
    TikTokIssuesSpec(c.tiktok);
    TikTokPartReported(c, isValidUrl, e1);
    TikTokPartReported(c, isValidUrl, e2);
  }

  /** The same for a missing LLM provider and a missing Notes account. */
  lemma RequiredReported(c: AppConfig, isValidUrl: string -> bool)
    ensures ProviderRequired in ValidationIssues(c, isValidUrl) <==> Falsy(c.llm.provider)
    ensures AccountRequired in ValidationIssues(c, isValidUrl) <==> Falsy(c.notes.account)
  {
    assert PartOf(ProviderRequired) == LlmPart && PartOf(AccountRequired) == NotesPart;
    LlmIssuesSpec(c.llm);
    NotesIssuesSpec(c.notes);
    LlmPartReported(c, isValidUrl, ProviderRequired);
    NotesPartReported(c, isValidUrl, AccountRequired);
  }

  // ---------------------------------------------------------------------------
  // ${NAME} references

  predicate IdentStart(c: char) { ('A' <= c <= 'Z') || ('a' <= c <= 'z') || c == '_' }
  predicate IdentChar(c: char) { IdentStart(c) || ('0' <= c <= '9') }

  /** `[A-Za-z_][A-Za-z0-9_]*`. */
  predicate IsIdentifier(s: string) {
    |s| > 0 && IdentStart(s[0]) && forall i :: 1 <= i < |s| ==> IdentChar(s[i])
  }

  /** The whole value is `${NAME}`: the name, or `None`. */
  function EnvReference(value: string): (r: Option<string>)
    ensures r.Some? ==> value == "${" + r.value + "}" && IsIdentifier(r.value)
  {
    if |value| >= 4 && value[..2] == "${" && value[|value| - 1] == '}' && IsIdentifier(value[2..|value| - 1]) then
      Some(value[2..|value| - 1])
    else None
  }

  /** Every `${NAME}` with an identifier `NAME` is recognised. */
  lemma EnvReferenceOf(name: string)
    requires IsIdentifier(name)
    ensures EnvReference("${" + name + "}") == Some(name)
  {
    var v := "${" + name + "}";
    assert v[..2] == "${";
    assert v[2..|v| - 1] == name;
  }

  /**
   * `ENV_VAR_PATTERN.match(value)` as written.  Python's `$` matches at the very end and
   * also just before a final newline, so `${NAME}` followed by one newline is accepted.
   */
  function EnvReferenceAsWritten(value: string): (r: Option<string>)
    ensures r.Some? ==> value == "${" + r.value + "}" || value == "${" + r.value + "}\n"
  {
    if |value| > 0 && value[|value| - 1] == '\n' && EnvReference(value[..|value| - 1]).Some? then
      EnvReference(value[..|value| - 1])
    else EnvReference(value)
  }

  /** The value `${A}` plus a newline is taken for a reference by the pattern as written,
      but is not the whole-value reference the pattern describes. */
  lemma TrailingNewlineAccepted()
    ensures EnvReferenceAsWritten("${A}\n") == Some("A")
    ensures EnvReference("${A}\n") == None
  {
    var v, w := "${A}\n", "${A}";
    assert v[..|v| - 1] == w;
    assert w == "${" + "A" + "}";
    EnvReferenceOf("A");
    assert v[|v| - 1] != '}';
  }

  /** `_resolve_env_var_reference`: `None` for a value that is not a reference; for a
      reference, the variable's value, or the error naming the unset variable. */
  function ResolveReference(value: string, description: string, env: map<string, string>): (r: Result<Option<string>, string>)
    ensures EnvReference(value).None? ==> r == Ok(None)
    ensures EnvReference(value).Some? && EnvReference(value).value in env ==> r == Ok(Some(env[EnvReference(value).value]))
    ensures EnvReference(value).Some? && EnvReference(value).value !in env ==>
      r == Err("Environment variable '" + EnvReference(value).value + "' is not set (required for " + description + ")")
  {
    match EnvReference(value)
    case None => Ok(None)
    case Some(name) =>
      if name in env then Ok(Some(env[name]))
      else Err("Environment variable '" + name + "' is not set (required for " + description + ")")
  }

  // ---------------------------------------------------------------------------
  // resolve_env_vars

  /** The resolved copy of the configuration and the API key read for the LLM client. */
  datatype Resolved = Resolved(config: AppConfig, apiKey: Option<string>)

  function PasswordDescription(s: EmailSourceConfig): string {
    "email source '" + s.host + "' password"
  }

  /** One email source after resolution. */
  function ResolveSource(s: EmailSourceConfig, env: map<string, string>): Result<EmailSourceConfig, string> {
    var p :- ResolveReference(s.password, PasswordDescription(s), env);
    Ok(match p case None => s case Some(v) => s.(password := v))
  }

  /** The first `n` email sources after resolution; the first failure is the one raised. */
  function ResolveSourcesUpTo(srcs: seq<EmailSourceConfig>, n: nat, env: map<string, string>): (r: Result<seq<EmailSourceConfig>, string>)
    requires n <= |srcs|
    ensures r.Ok? ==> |r.value| == n
  {
    if n == 0 then Ok([])
    else
      var prev :- ResolveSourcesUpTo(srcs, n - 1, env);
      var s :- ResolveSource(srcs[n - 1], env);
      Ok(prev + [s])
  }

  /** Once a source fails to resolve, the resolution of every longer prefix fails the
      same way. */
  lemma {:induction false} ResolveFailureStays(srcs: seq<EmailSourceConfig>, m: nat, n: nat, env: map<string, string>)
    requires m <= n <= |srcs| && ResolveSourcesUpTo(srcs, m, env).Err?
    ensures ResolveSourcesUpTo(srcs, n, env) == ResolveSourcesUpTo(srcs, m, env)
  {
    if n > m {
      ResolveFailureStays(srcs, m, n - 1, env);
    }
  }

  const ApiKeySuffix := "' is not set (required for LLM API key)"

  function ResolveApiKey(c: AppConfig, env: map<string, string>): Result<Option<string>, string> {
    if Falsy(c.llm.apiKeyEnv) then Ok(None)
    else if c.llm.apiKeyEnv !in env then Err("Environment variable '" + c.llm.apiKeyEnv + ApiKeySuffix)
    else Ok(Some(env[c.llm.apiKeyEnv]))
  }

  /** What `resolve_env_vars(c)` returns: the API key first, then every password. */
  function ResolvedConfig(c: AppConfig, env: map<string, string>): Result<Resolved, string> {
    var apiKey :- ResolveApiKey(c, env);
    var srcs :- ResolveSourcesUpTo(c.emailSources, |c.emailSources|, env);
    Ok(Resolved(c.(emailSources := srcs), apiKey))
  }

  /** `ConfigManager.resolve_env_vars`: works on a copy and rewrites, source by source,
      each password that is a `${NAME}` reference.  The argument is a value, so the
      caller's configuration is never changed. */
  method ResolveEnvVars(c: AppConfig, env: map<string, string>) returns (r: Result<Resolved, string>)
    ensures r == ResolvedConfig(c, env)
  {
    var apiKey: Option<string> := None;
    var apiKeyEnv := c.llm.apiKeyEnv;
    if !Falsy(apiKeyEnv) {
      if apiKeyEnv !in env {
        return Err("Environment variable '" + apiKeyEnv + ApiKeySuffix);
      }
      apiKey := Some(env[apiKeyEnv]);
    }
    var sources: seq<EmailSourceConfig> := [];
    for i := 0 to |c.emailSources|
      invariant ResolveSourcesUpTo(c.emailSources, i, env) == Ok(sources)
    {
      var src := c.emailSources[i];
      var resolved := ResolveReference(src.password, "email source '" + src.host + "' password", env);
      if resolved.Err? {
        ResolveFailureStays(c.emailSources, i + 1, |c.emailSources|, env);
        return Err(resolved.error);
      }
      if resolved.value.Some? {
        src := src.(password := resolved.value.value);
      }
      sources := sources + [src];
    }
    return Ok(Resolved(c.(emailSources := sources), apiKey));
  }

  /** What resolution does to one source: the password of a `${NAME}` reference becomes
      the variable's value; every other field, and every other password, stays. */
  function ResolvedPassword(s: EmailSourceConfig, env: map<string, string>): string {
    match EnvReference(s.password)
    case None => s.password
    case Some(name) => if name in env then env[name] else s.password
  }

  /** The source's password is not a reference, or names a variable that is set. */
  predicate ReferenceSet(s: EmailSourceConfig, env: map<string, string>) {
    EnvReference(s.password).Some? ==> EnvReference(s.password).value in env
  }

  predicate EveryReferenceSet(srcs: seq<EmailSourceConfig>, env: map<string, string>) {
    forall i :: 0 <= i < |srcs| ==> ReferenceSet(srcs[i], env)
  }

  /** One source resolves exactly when its reference is set, and then only its password
      changes, to the resolved one. */
  lemma ResolveSourceSpec(s: EmailSourceConfig, env: map<string, string>)
    ensures ResolveSource(s, env).Ok? <==> ReferenceSet(s, env)
    ensures ResolveSource(s, env).Ok? ==> ResolveSource(s, env).value == s.(password := ResolvedPassword(s, env))
  {
  }

  lemma {:induction false} ResolveSourcesOk(srcs: seq<EmailSourceConfig>, n: nat, env: map<string, string>)
    requires n <= |srcs|
    ensures ResolveSourcesUpTo(srcs, n, env).Ok? <==> forall i :: 0 <= i < n ==> ReferenceSet(srcs[i], env)
  {
    if n > 0 {
      ResolveSourcesOk(srcs, n - 1, env);
      ResolveSourceSpec(srcs[n - 1], env);
    }
  }

  lemma {:induction false} ResolveSourcesValues(srcs: seq<EmailSourceConfig>, n: nat, env: map<string, string>)
    requires n <= |srcs|
    ensures ResolveSourcesUpTo(srcs, n, env).Ok? ==>
      forall i :: 0 <= i < n ==> ResolveSourcesUpTo(srcs, n, env).value[i] == srcs[i].(password := ResolvedPassword(srcs[i], env))
  {
    if n > 0 {
      ResolveSourcesValues(srcs, n - 1, env);
      ResolveSourceSpec(srcs[n - 1], env);
      var r := ResolveSourcesUpTo(srcs, n, env);
      if r.Ok? {
        var prev, s := ResolveSourcesUpTo(srcs, n - 1, env), ResolveSource(srcs[n - 1], env);
        assert prev.Ok? && s.Ok?;
        var v := prev.value + [s.value];
        assert r.value == v;
        forall i | 0 <= i < n
          ensures v[i] == srcs[i].(password := ResolvedPassword(srcs[i], env))
        {
          if i < n - 1 {
            assert v[i] == prev.value[i];
          }
        }
      }
    }
  }

  /** `resolve_env_vars` fails exactly when the API key variable or a referenced password
      variable is unset; otherwise only passwords of the `${NAME}` form change and the
      API key is the variable's value. */
  lemma ResolveEnvVarsSpec(c: AppConfig, env: map<string, string>)
    ensures ResolvedConfig(c, env).Err? <==>
      (!Falsy(c.llm.apiKeyEnv) && c.llm.apiKeyEnv !in env) || !EveryReferenceSet(c.emailSources, env)
    ensures !Falsy(c.llm.apiKeyEnv) && c.llm.apiKeyEnv !in env ==>
      ResolvedConfig(c, env) == Err("Environment variable '" + c.llm.apiKeyEnv + ApiKeySuffix)
    ensures ResolvedConfig(c, env).Ok? ==> (
      var r := ResolvedConfig(c, env).value;
      && r.config.(emailSources := c.emailSources) == c
      && |r.config.emailSources| == |c.emailSources|
      && (forall i :: 0 <= i < |c.emailSources| ==>
            r.config.emailSources[i] == c.emailSources[i].(password := ResolvedPassword(c.emailSources[i], env)))
      && r.apiKey == (if Falsy(c.llm.apiKeyEnv) then None else Some(env[c.llm.apiKeyEnv])))
  {
    ResolveSourcesOk(c.emailSources, |c.emailSources|, env);
    ResolveSourcesValues(c.emailSources, |c.emailSources|, env);
  }
}
