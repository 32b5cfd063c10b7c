# Newsletter content generator — a Dafny model of its core

The newsletter content generator collects newsletters from IMAP mailboxes, RSS/Atom
feeds and local files. It keeps the items dated within the last `date_range_days` days and
cleans their text. It then hands them to an LLM-backed synthesizer and to two generators:
one writes a blog post and one writes a TikTok script. Finally it exports both to Apple
Notes. This project models the parts of that pipeline that decide what the output is:

- **Content cleaning** (module `ContentParser`). This is the whitespace normalisation of
  `ContentParser.clean_content`, including its `prev_empty` loop, and the text tail of
  `extract_text`. The regular-expression passes and Python's `str.strip`/`str.split`/`'\n'.join`
  are written out over `seq<char>` (module `Text`).
- **Fetchers and aggregation** (modules `Fetchers`, `Aggregator`). This covers the
  timezone-adjusting date comparison and the RSS entry helpers (content, author and date
  selection). It also covers the e-mail body walk, `_read_file`, the items each fetcher
  builds, and `NewsletterAggregator.aggregate`, `_filter_by_date`, `_normalize_item` and
  `_get_fetcher_name`.
- **Configuration** (module `Config`). This covers every `to_dict`/`from_dict`,
  `ConfigManager.validate` (every message, in order), the `${NAME}` password references
  and `resolve_env_vars`.
- **Models** (module `Models`). This covers every `to_dict`/`from_dict` pair, over a JSON
  value type (module `Json`). `datetime.isoformat`/`fromisoformat` are modelled in module
  `DateTime`, together with Python's aware/naive comparison rules and `timedelta` day
  subtraction.
- **Orchestration** (module `Orchestrator`). `NewsletterContentGenerator` is a class: its
  constructor runs `_setup_components`, which builds the fetcher list with loops, and `run`
  is a method. Both are proved against a specification function of the whole run: its
  result, its progress reports and the component calls it makes.

Everything outside the core is a parameter. This covers the HTML parser, the boilerplate
regex catalogue, IMAP, feedparser, the file system, the clock, the environment, the
synthesizer, the generators and the exporter. Each is a function value that returns its
result or an error standing for the exception it raises.

## Model

| member | source | states |
|---|---|---|
| Text.StripIsSlice | src/newsletter_generator/aggregator.py:188 | `str.strip` returns a contiguous slice of its input that neither starts nor ends with Python whitespace |
| Text.StripFixpoint | src/newsletter_generator/aggregator.py:205 | stripping leaves a string unchanged exactly when it has no leading or trailing whitespace |
| Text.StripEmpty | src/newsletter_generator/aggregator.py:169 | `text.strip()` is empty exactly when every character is whitespace (the `not text.strip()` guard) |
| Text.Lower | src/newsletter_generator/aggregator.py:801-803 | `lower()` keeps the length and lowers each ASCII capital, position by position |
| Text.Split | src/newsletter_generator/aggregator.py:188 | `split('\n')` gives at least one part and no part contains a newline |
| Text.JoinSplit | src/newsletter_generator/aggregator.py:188-202 | `'\n'.join(s.split('\n')) == s` for every string |
| Text.SplitJoin | src/newsletter_generator/aggregator.py:188-202 | splitting the join of newline-free lines gives the lines back |
| Text.JoinSnoc | src/newsletter_generator/aggregator.py:202 | appending a line to a non-empty list appends a newline and the line to the join |
| ContentParser.CollapseSpacesShape | src/newsletter_generator/aggregator.py:179 | after `re.sub(r'[ \t]+', ' ', s)` there is no tab and no two adjacent spaces |
| ContentParser.CollapseSpacesFixpoint | src/newsletter_generator/aggregator.py:179 | text with no tab or double space is left unchanged by the space collapse |
| ContentParser.ReplaceCr | src/newsletter_generator/aggregator.py:182 | `replace('\r', '\n')` turns every carriage return into a newline and keeps every other character |
| ContentParser.NormalizeLineEndingsShape | src/newsletter_generator/aggregator.py:182 | after line-ending normalisation the text has no carriage return and the space collapse still holds |
| ContentParser.NormalizeLineEndingsFixpoint | src/newsletter_generator/aggregator.py:182 | text without carriage returns is unchanged by line-ending normalisation |
| ContentParser.CapNewlinesKeepsClean | src/newsletter_generator/aggregator.py:185 | `re.sub(r'\n{3,}', '\n\n', s)` keeps the text free of tabs, double spaces and carriage returns |
| ContentParser.CapNewlinesFixpoint | src/newsletter_generator/aggregator.py:185 | text without three consecutive newlines is unchanged by the newline cap |
| ContentParser.StripLinesShape | src/newsletter_generator/aggregator.py:188 | every line is stripped after `[line.strip() for line in ...]`, and newline-freedom and the space collapse are kept |
| ContentParser.Collapsed | src/newsletter_generator/aggregator.py:192-200 | the `prev_empty` filter never keeps two adjacent empty lines, drops only empty lines (the non-empty lines are the same, in order), and never lengthens the list |
| ContentParser.CollapsedFixpoint | src/newsletter_generator/aggregator.py:192-200 | a list without adjacent empty lines passes the filter unchanged |
| ContentParser.CollapsedFrom | src/newsletter_generator/aggregator.py:192-200 | every kept line is one of the input lines |
| ContentParser.CollapseEmptyRuns | src/newsletter_generator/aggregator.py:192-200 | the loop over `lines` with `prev_empty` computes exactly the filtered list |
| ContentParser.NormalizeShape | src/newsletter_generator/aggregator.py:179-205 | after the normalisation there is no tab, no double space and no CR. There are no three newlines in a row, the whole text and every line are stripped, and no two adjacent lines are empty |
| ContentParser.NormalizeFixpoint | src/newsletter_generator/aggregator.py:179-205 | text already in that shape is returned unchanged |
| ContentParser.NormalizeIdempotent | src/newsletter_generator/aggregator.py:179-205 | normalising twice is normalising once |
| ContentParser.NormalizeVisible | src/newsletter_generator/aggregator.py:179-205 | normalisation changes only whitespace: the non-whitespace characters are the same, in the same order |
| ContentParser.CleanContent | src/newsletter_generator/aggregator.py:154-207 | `clean_content` returns "" for blank input, else the normalisation of the boilerplate-stripped text |
| ContentParser.CleanedShape | src/newsletter_generator/aggregator.py:154-207 | whatever the input, cleaned content has the normalised shape above |
| ContentParser.CleanedBlank | src/newsletter_generator/aggregator.py:169-170 | empty or all-whitespace text cleans to "" |
| ContentParser.CleanedVisible | src/newsletter_generator/aggregator.py:172-207 | for non-blank text, cleaning keeps every non-whitespace character that survives the boilerplate pass, in order |
| ContentParser.CleanedIdempotent | src/newsletter_generator/aggregator.py:154-207 | cleaning cleaned text again changes nothing, provided the boilerplate pass leaves cleaned text alone |
| ContentParser.BlankRunsKeepsSpaces | src/newsletter_generator/aggregator.py:143 | `re.sub(r'\n\s*\n+', '\n\n', s)` preserves the space collapse |
| ContentParser.VisibleBlankRuns | src/newsletter_generator/aggregator.py:143 | that substitution removes only whitespace |
| ContentParser.TextTailShape | src/newsletter_generator/aggregator.py:138-150 | the text `extract_text` returns has no tab or double space, is stripped, and so is each of its lines |
| ContentParser.TextTailVisible | src/newsletter_generator/aggregator.py:138-150 | the tail of `extract_text` removes only whitespace from the parser's text |
| ContentParser.ExtractText | src/newsletter_generator/aggregator.py:100-150 | blank HTML gives ""; otherwise the DOM pass's text goes through the whitespace tail |
| DateTime.Naive | src/newsletter_generator/aggregator.py:1163-1168 | `replace(tzinfo=None)` gives a naive value |
| DateTime.WallMicrosOrder | src/newsletter_generator/aggregator.py:1171 | comparing two naive values field by field, as Python does, is comparing their positions on the proleptic Gregorian time line |
| DateTime.PyGe | src/newsletter_generator/aggregator.py:1171 | `a >= b` raises TypeError (`None`) exactly when one operand is aware and the other naive |
| DateTime.PyLt | src/newsletter_generator/aggregator.py:355 | `a < b` raises TypeError under the same rule as `>=` |
| DateTime.LtIsNotGe | src/newsletter_generator/aggregator.py:355 | when defined, `<` is the negation of `>=` |
| DateTime.SameOffsetCompare | src/newsletter_generator/aggregator.py:1171 | two aware values with the same offset compare by wall time |
| DateTime.SubDays | src/newsletter_generator/orchestrator.py:153 | a successful `now - timedelta(days=n)` lies exactly `n` calendar days earlier, with the same time of day and offset |
| DateTime.SubDaysWall | src/newsletter_generator/orchestrator.py:153 | a successful subtraction moves the wall clock back by exactly `n` days |
| DateTime.OrdinalRange | src/newsletter_generator/orchestrator.py:153 | every datetime lies on days 1..3652059, and only 9999-12-31 lies on the last one |
| DateTime.SubDaysRange | src/newsletter_generator/orchestrator.py:153 | subtracting `n` days fails exactly when the target day falls before 0001-01-01 or after 9999-12-31 |
| DateTime.MinusDays | src/newsletter_generator/orchestrator.py:153 | `now - timedelta(days=n)` succeeds exactly when `abs(n) <= 999999999` and the target day is on the calendar, and then lies `n` days earlier with the same time of day and offset |
| DateTime.MinusDaysErrors | src/newsletter_generator/orchestrator.py:153 | a day count outside a C `int` raises "Python int too large to convert to C int"; one beyond 999999999 raises "days=N; must have magnitude <= 999999999"; otherwise leaving the calendar raises "date value out of range" |
| DateTime.DeltaMagnitudeMessageExample | src/newsletter_generator/orchestrator.py:153 | the magnitude message for `days=1000000000` reads "days=1000000000; must have magnitude <= 999999999" |
| DateTime.ParseDigitsOf | src/newsletter_generator/models.py:79 | reading back a zero-padded decimal field gives the number written |
| DateTime.IsoRoundTrip | src/newsletter_generator/models.py:58-79 | `datetime.fromisoformat(d.isoformat()) == d` for every datetime |
| DateTime.IsoFormatNaiveShape | src/newsletter_generator/models.py:58 | a naive value without microseconds is written `YYYY-MM-DDTHH:MM:SS` (19 characters) |
| Json.GetStr | src/newsletter_generator/models.py:75-78 | `data[key]` on a string field: KeyError for a missing key, else the string |
| Json.GetOptStr | src/newsletter_generator/models.py:80-82 | `data.get(key)` on an optional string: `None` for a missing key or null |
| Json.GetBoolOr | src/newsletter_generator/config.py:60 | `data.get(key, default)` gives the default exactly when the key is missing |
| Json.GetIntOr | src/newsletter_generator/config.py:137 | `data.get(key, default)` gives the default exactly when the key is missing |
| Json.GetStrOr | src/newsletter_generator/config.py:191 | `data.get(key, default)` gives the default exactly when the key is missing |
| Json.AsStrListOf | src/newsletter_generator/models.py:114 | a list of strings written out reads back as itself |
| Json.DecodeEncodeList | src/newsletter_generator/models.py:113-130 | decoding the list of encodings of records whose decoder inverts their encoder gives the records back |
| Models.GetDate | src/newsletter_generator/models.py:79 | a date field is present, is a string and is what `fromisoformat` reads from it |
| Models.GetDateOf | src/newsletter_generator/models.py:58-79 | a field written by `isoformat` reads back as the same datetime |
| Models.NewsletterItem.FromDict | src/newsletter_generator/models.py:65-83 | the five required keys must be present (KeyError otherwise); `html_content`, `author` and `url` default to `None` |
| Models.ItemRoundTrip | src/newsletter_generator/models.py:46-83 | `NewsletterItem.from_dict(item.to_dict()) == item` |
| Models.ItemsRoundTrip | src/newsletter_generator/models.py:113-130 | a list of items survives `to_dict`/`from_dict` |
| Models.TopicGroup.FromDict | src/newsletter_generator/models.py:118-132 | all four keys are required, and one item is decoded per element of `items` |
| Models.TopicRoundTrip | src/newsletter_generator/models.py:103-132 | `TopicGroup.from_dict(g.to_dict()) == g` |
| Models.SynthesizedContent.FromDict | src/newsletter_generator/models.py:174-192 | all five keys are required and `date_range` must have at least two elements |
| Models.GetDateRange | src/newsletter_generator/models.py:188-191 | the date range is the `fromisoformat` of elements 0 and 1, and fails when either is missing or unreadable. Element 0 is read and parsed before element 1 is indexed, so an unreadable element 0 gives its own error even in a one-element list |
| Models.DateRangeIgnoresExtra | src/newsletter_generator/models.py:188-191 | elements after the second in `date_range` are ignored |
| Models.SynthesizedRoundTrip | src/newsletter_generator/models.py:155-192 | `SynthesizedContent.from_dict(s.to_dict()) == s`, and the date range is written as `[start.isoformat(), end.isoformat()]` |
| Models.BlogPost.FromDict | src/newsletter_generator/models.py:228-243 | all five keys are required |
| Models.BlogPostRoundTrip | src/newsletter_generator/models.py:212-243 | `BlogPost.from_dict(p.to_dict()) == p` |
| Models.TikTokScript.FromDict | src/newsletter_generator/models.py:288-306 | seven keys are required; a missing `visual_cues` gives `None` |
| Models.GetOptStrList | src/newsletter_generator/models.py:302 | `data.get("visual_cues")` is `None` exactly when the key is missing or null |
| Models.TikTokRoundTrip | src/newsletter_generator/models.py:269-306 | `TikTokScript.from_dict(s.to_dict()) == s`, including a `None` `visual_cues` |
| Models.ExportResult.FromDict | src/newsletter_generator/models.py:341-356 | `success` and `folder` are required; `note_id`, `error` and `fallback_path` default to `None` |
| Models.ExportRoundTrip | src/newsletter_generator/models.py:326-356 | `ExportResult.from_dict(e.to_dict()) == e` |
| Models.ExecutionResult.FromDict | src/newsletter_generator/models.py:397-413 | four keys are required; a missing or falsy export entry gives `None`; the two content fields are always `None` |
| Models.GetExport | src/newsletter_generator/models.py:411-412 | `ExportResult.from_dict(data[key]) if data.get(key) else None` |
| Models.GetExportOf | src/newsletter_generator/models.py:392-412 | an export result (or `None`) written by `to_dict` reads back as itself |
| Models.ExecutionRoundTrip | src/newsletter_generator/models.py:380-413 | the round trip restores everything except `blog_content` and `tiktok_content`, which come back `None` |
| Models.ExecutionRoundTripIdentity | src/newsletter_generator/models.py:380-413 | the round trip is the identity exactly when both content fields are `None` |
| Config.EmailSourceConfig.FromDict | src/newsletter_generator/config.py:51-61 | the five required keys must be present; `use_ssl` defaults to true |
| Config.RssSourceConfig.FromDict | src/newsletter_generator/config.py:79-85 | succeeds exactly when `url` and `name` are present strings |
| Config.FileSourceConfig.FromDict | src/newsletter_generator/config.py:103-109 | succeeds exactly when `path` and `pattern` are present strings |
| Config.LlmConfig.FromDict | src/newsletter_generator/config.py:131-138 | `provider`, `model` and `api_key_env` are required; `max_tokens` defaults to 4096 |
| Config.BlogConfig.FromDict | src/newsletter_generator/config.py:159-165 | `format` and `target_words` are required; `include_sources` defaults to true |
| Config.TikTokConfig.FromDict | src/newsletter_generator/config.py:186-192 | `duration` is required; `include_visual_cues` defaults to true and `style` to "educational" |
| Config.NotesConfig.FromDict | src/newsletter_generator/config.py:213-219 | succeeds exactly when the three folder/account strings are present |
| Config.AppConfig.FromDict | src/newsletter_generator/config.py:259-279 | the four sections are required; the three source lists default to `[]` and `date_range_days` to 7 |
| Config.GetListOr | src/newsletter_generator/config.py:265-276 | a missing source list reads as empty |
| Config.EmailRoundTrip | src/newsletter_generator/config.py:46-61 | `EmailSourceConfig.from_dict(c.to_dict()) == c` |
| Config.EmailListRoundTrip | src/newsletter_generator/config.py:250-266 | the e-mail source list survives the round trip |
| Config.RssListRoundTrip | src/newsletter_generator/config.py:251-270 | the feed source list survives the round trip |
| Config.FileListRoundTrip | src/newsletter_generator/config.py:252-274 | the file source list survives the round trip |
| Config.SectionsRoundTrip | src/newsletter_generator/config.py:126-219 | each of the four section records survives its own round trip |
| Config.AppConfigRoundTrip | src/newsletter_generator/config.py:245-279 | `AppConfig.from_dict(c.to_dict()) == c` |
| Config.Message | src/newsletter_generator/config.py:382-463 | every per-field message starts with the field path and ": " |
| Config.Messages | src/newsletter_generator/config.py:357-465 | one message per issue, in the order found |
| Config.CheckEmailSource | src/newsletter_generator/config.py:382-399 | the checks on one e-mail source report host, username, password and folder, then the port, in that order |
| Config.CheckRssSource | src/newsletter_generator/config.py:403-414 | a missing URL is reported instead of an invalid one; then a missing name |
| Config.CheckFileSource | src/newsletter_generator/config.py:418-423 | a missing path, then a missing pattern |
| Config.CheckLlm | src/newsletter_generator/config.py:426-431 | the three required LLM fields, in order |
| Config.CheckBlog | src/newsletter_generator/config.py:434-443 | the blog format must be in the allowed set and the word target positive |
| Config.CheckTikTok | src/newsletter_generator/config.py:446-455 | the duration must be 15, 30 or 60 and the style one of the three allowed |
| Config.CheckNotes | src/newsletter_generator/config.py:458-463 | the three required Notes fields, in order |
| Config.CheckEmailSources | src/newsletter_generator/config.py:381-399 | the loop over e-mail sources reports every source's issues, source by source |
| Config.CheckRssSources | src/newsletter_generator/config.py:402-414 | the loop over feed sources reports every source's issues, source by source |
| Config.CheckFileSources | src/newsletter_generator/config.py:417-423 | the loop over file sources reports every source's issues, source by source |
| Config.Validate | src/newsletter_generator/config.py:357-465 | `validate` returns exactly the messages of the issues found, part by part, in the code's order |
| Config.EmailSourceIssuesValid | src/newsletter_generator/config.py:385-399 | an e-mail source has no issue exactly when its four strings are non-empty and its port is in 1..65535 |
| Config.EmailSourcePort | src/newsletter_generator/config.py:395-399 | the port message names the source's own port, and appears exactly when it is out of range |
| Config.RssSourceIssuesValid | src/newsletter_generator/config.py:406-414 | a feed source has no issue exactly when its URL is non-empty and valid and its name non-empty |
| Config.FileSourceIssuesValid | src/newsletter_generator/config.py:420-423 | a file source has no issue exactly when path and pattern are non-empty |
| Config.LlmIssuesSpec | src/newsletter_generator/config.py:426-431 | no LLM issue exactly when provider, model and key variable name are non-empty |
| Config.BlogIssuesSpec | src/newsletter_generator/config.py:434-443 | each blog message appears exactly when its condition fails |
| Config.TikTokIssuesSpec | src/newsletter_generator/config.py:446-455 | each TikTok message appears exactly when its condition fails |
| Config.NotesIssuesSpec | src/newsletter_generator/config.py:458-463 | no Notes issue exactly when the three names are non-empty |
| Config.Locate | src/newsletter_generator/config.py:357-465 | an issue is reported exactly when one part of the configuration produces it |
| Config.ValidateEmptyIffValid | src/newsletter_generator/config.py:357-465 | `validate` returns `[]` exactly when the configuration satisfies every rule |
| Config.NoSourcesReported | src/newsletter_generator/config.py:369-378 | with no source at all, the first message is the "At least one newsletter source" one. It is the only message when the rest is valid |
| Config.PortReported | src/newsletter_generator/config.py:394-399 | the port of source `i` is reported exactly when `i` is an e-mail source whose port is out of range |
| Config.BlogReported | src/newsletter_generator/config.py:434-443 | bad blog format and non-positive word target are each reported exactly when they occur |
| Config.TikTokReported | src/newsletter_generator/config.py:446-455 | bad duration and bad style are each reported exactly when they occur |
| Config.RequiredReported | src/newsletter_generator/config.py:426-463 | missing provider and missing account are each reported exactly when empty |
| Config.EnvReference | src/newsletter_generator/config.py:302 | a recognised reference is the whole value, `${` + identifier + `}` |
| Config.EnvReferenceOf | src/newsletter_generator/config.py:302 | every `${NAME}` with an identifier name is recognised, with that name |
| Config.EnvReferenceAsWritten | src/newsletter_generator/config.py:302 | the pattern as compiled also accepts `${NAME}` followed by one newline |
| Config.TrailingNewlineAccepted | src/newsletter_generator/config.py:302 | `"${A}\n"` is accepted by the pattern as written but is not a whole-value reference |
| Config.ResolveReference | src/newsletter_generator/config.py:510-533 | a non-reference gives `None`, a set variable gives its value, and an unset one raises "Environment variable '…' is not set (required for …)". References are recognised by the corrected `EnvReference`, so a value such as `"${A}\n"` stays literal where the code would substitute `$A` (see Findings) |
| Config.ResolveSourcesUpTo | src/newsletter_generator/config.py:500-506 | resolving keeps one entry per source |
| Config.ResolveFailureStays | src/newsletter_generator/config.py:500-506 | the first source that raises decides the error; later sources do not change it |
| Config.ResolveEnvVars | src/newsletter_generator/config.py:467-508 | the loop resolves the API key first, then each password, on a copy of the configuration. References are recognised by the corrected `EnvReference`, so a value such as `"${A}\n"` stays literal where the code would substitute `$A` (see Findings) |
| Config.ResolveSourceSpec | src/newsletter_generator/config.py:501-506 | one source resolves exactly when its reference (if any) is set, and then only its password changes. References are recognised by the corrected `EnvReference`, so a value such as `"${A}\n"` stays literal where the code would substitute `$A` (see Findings) |
| Config.ResolveSourcesOk | src/newsletter_generator/config.py:500-506 | the passwords resolve exactly when every referenced variable is set |
| Config.ResolveSourcesValues | src/newsletter_generator/config.py:500-506 | each resolved source is the original with its password replaced by the variable's value, or kept when it is no reference |
| Config.ResolveEnvVarsSpec | src/newsletter_generator/config.py:467-508 | `resolve_env_vars` raises exactly when the key variable or a referenced password variable is unset, with the key error taking precedence. On success it changes nothing but the passwords and records the key (`None` when no key variable is named). References are recognised by the corrected `EnvReference`, so a value such as `"${A}\n"` stays literal where the code would substitute `$A` (see Findings) |
| Fetchers.Comparable | src/newsletter_generator/aggregator.py:1160-1168 | only a mixed aware/naive pair is adjusted, by dropping both offsets, and the result is always comparable |
| Fetchers.ComparisonDefined | src/newsletter_generator/aggregator.py:1160-1171 | the adjusted comparison never raises, and the fetchers' `<` skip is the complement of the aggregator's `>=` keep |
| Fetchers.OnOrAfterTimeline | src/newsletter_generator/aggregator.py:1160-1171 | two aware dates compare as instants; otherwise the comparison is by wall-clock time |
| Fetchers.OnOrAfterSame | src/newsletter_generator/aggregator.py:1170-1172 | an item dated exactly at `since` is kept (on or after, not strictly after) |
| Fetchers.FirstSome | src/newsletter_generator/aggregator.py:843-866 | the first present value, `None` exactly when none is present |
| Fetchers.FirstSomeAt | src/newsletter_generator/aggregator.py:843-866 | the first present value is the one at the first present position |
| Fetchers.LastWinsSpec | src/newsletter_generator/aggregator.py:795-805 | a slot is filled exactly when some element goes to it, and then it holds the last such element's value |
| Fetchers.LastWinsSkip | src/newsletter_generator/aggregator.py:795-805 | an element that goes to neither slot has no effect |
| Fetchers.ExtractEntryContent | src/newsletter_generator/aggregator.py:779-831 | the loop over `content`, then `summary_detail`, then `description`, computes the entry's (html, text) pair |
| Fetchers.EntryContentEmpty | src/newsletter_generator/aggregator.py:779-831 | an entry with no content, summary detail or description gives (None, None) |
| Fetchers.EntryContentFromList | src/newsletter_generator/aggregator.py:795-807 | when the content list finds something, the fallbacks are not consulted, and the html is the last html-like element |
| Fetchers.EntryContentFallback | src/newsletter_generator/aggregator.py:809-829 | when the content list yields nothing, a non-empty `summary_detail` decides, else `description` |
| Fetchers.ExtractAuthor | src/newsletter_generator/aggregator.py:833-866 | `author`, then `author_detail.name`, then the first of `authors`, stripped; `None` when all are absent |
| Fetchers.ParseEntryDate | src/newsletter_generator/aggregator.py:702-743 | `None` exactly when all six attempts fail |
| Fetchers.ParseEntryDateOrder | src/newsletter_generator/aggregator.py:702-743 | the result is the first successful attempt in the code's order |
| Fetchers.PublishedParsedWins | src/newsletter_generator/aggregator.py:722-730 | a convertible `published_parsed` always wins |
| Fetchers.StringFallback | src/newsletter_generator/aggregator.py:734-741 | with no parsed time, a parsable `published` string is used |
| Fetchers.RssTitle | src/newsletter_generator/aggregator.py:646-648 | the title is the stripped title, or "(No Title)" when that is empty; never empty |
| Fetchers.RssContent | src/newsletter_generator/aggregator.py:651-668 | html content wins and is extracted, then cleaned; otherwise plain text is cleaned; otherwise a non-empty summary is extracted and cleaned, and kept as html only if it contains "<"; with none of them the content is "". Each case states both the content and the html value |
| Fetchers.RssItem | src/newsletter_generator/aggregator.py:624-686 | an entry dated before `since` is skipped. Otherwise the item has source type "rss" and the feed's name. Its date is the parsed entry date or `now`, its title is `RssTitle` of the raw title, and its content and html are `RssContent` of the entry's content fields and summary. Its author is the extracted author and its URL the link |
| Fetchers.GetEmailBody | src/newsletter_generator/aggregator.py:419-484 | the walk over the parts computes the message's (html, text) pair |
| Fetchers.EmailBodyLastPart | src/newsletter_generator/aggregator.py:434-461 | the html (text) body is the payload of the last html (plain) non-attachment part, absent when there is none |
| Fetchers.EmailAttachmentIgnored | src/newsletter_generator/aggregator.py:439-441 | an attachment part never changes the body |
| Fetchers.EmailItem | src/newsletter_generator/aggregator.py:326-381 | a message dated before `since` is skipped. Otherwise the item is named after the host, has type "email", no URL, the parsed date or `now`, and the subject or "(No Subject)" as title. Its author is the sender, or `None` exactly when the From header is empty. With an html body, the content is the extracted and cleaned html and the html is kept; otherwise the content is the cleaned plain text (or "") and there is no html |
| Fetchers.ReadFile | src/newsletter_generator/aggregator.py:1011-1052 | an unreadable or blank file gives ("", None). An .html/.htm file keeps its raw HTML with the extracted, cleaned text; other files give the cleaned text |
| Fetchers.ReadFileShaped | src/newsletter_generator/aggregator.py:1011-1052 | file content is always in the cleaned shape |
| Fetchers.FileItem | src/newsletter_generator/aggregator.py:943-982 | a directory, an old file or an empty one is skipped. Otherwise the item is named after the path, has the stem as title, the absolute path as URL, no author, the modification time as date, and `ReadFile`'s content and html |
| Fetchers.FileKept | src/newsletter_generator/aggregator.py:963-969 | a recent non-blank file is kept exactly when it is HTML or its cleaned text is non-empty |
| Fetchers.Collect | src/newsletter_generator/aggregator.py:624-686 | the per-entry loop appends the item of every entry that produces one, in order |
| Fetchers.CollectedMember | src/newsletter_generator/aggregator.py:624-686 | an item is collected exactly when some entry produces it |
| Aggregator.Kept | src/newsletter_generator/aggregator.py:1156-1174 | filtering never lengthens the list |
| Aggregator.FilterByDate | src/newsletter_generator/aggregator.py:1138-1174 | the loop keeps exactly the items dated on or after `since` after the timezone adjustment, in order |
| Aggregator.KeptMember | src/newsletter_generator/aggregator.py:1156-1174 | an item survives exactly when it is an input item dated on or after `since` |
| Aggregator.KeptAppend | src/newsletter_generator/aggregator.py:1156-1174 | filtering preserves order: it distributes over concatenation |
| Aggregator.KeptAll | src/newsletter_generator/aggregator.py:1156-1174 | when every item is recent enough nothing is dropped |
| Aggregator.NormalizeItem | src/newsletter_generator/aggregator.py:1176-1204 | only the content changes, to its cleaned form; the seven other fields are copied |
| Aggregator.NormalizeShaped | src/newsletter_generator/aggregator.py:1192 | normalised content has the cleaned shape |
| Aggregator.NormalizeIdempotent | src/newsletter_generator/aggregator.py:1176-1204 | normalising an item twice is normalising it once, given a boilerplate pass that leaves cleaned text alone |
| Aggregator.Normalized | src/newsletter_generator/aggregator.py:1113-1115 | the list comprehension keeps the length |
| Aggregator.NormalizedAt | src/newsletter_generator/aggregator.py:1113-1115 | element `i` of the result is the normalisation of element `i` |
| Aggregator.Describe | src/newsletter_generator/aggregator.py:1216-1230 | the name is the type name, followed by the first of name, host, url and path in parentheses when the fetcher has a config with one |
| Aggregator.FetcherNames | src/newsletter_generator/aggregator.py:1216-1230 | e-mail fetchers are named by host, feeds by name (which wins over the URL) and file sources by path |
| Aggregator.RecentIsNormalizedKept | src/newsletter_generator/aggregator.py:1106-1111 | filtering then normalising gives the normalised recent items, in order |
| Aggregator.Contributions | src/newsletter_generator/aggregator.py:1102-1130 | fetcher `i` contributes nothing when it raises, else its recent normalised items |
| Aggregator.Reports | src/newsletter_generator/aggregator.py:1117-1130 | one log line per fetcher: its name with its item count, or a failure |
| Aggregator.Aggregate | src/newsletter_generator/aggregator.py:1082-1136 | the loop returns the in-order concatenation of the contributions and logs one line per fetcher |
| Aggregator.FetchFrom | src/newsletter_generator/aggregator.py:1102-1130 | the body of the `try` for one fetcher yields its contribution and its log line |
| Aggregator.AggregatedAppend | src/newsletter_generator/aggregator.py:1102-1130 | aggregation over two fetcher lists is the concatenation of the two results |
| Aggregator.FailureIsolated | src/newsletter_generator/aggregator.py:1124-1130 | a fetcher that raises contributes nothing and leaves the other fetchers' items as they were |
| Aggregator.AllFailed | src/newsletter_generator/aggregator.py:1124-1136 | with no fetcher, or when all raise, the result is empty |
| Aggregator.AggregatedMember | src/newsletter_generator/aggregator.py:1082-1136 | an item is aggregated exactly when it is the normalisation of a recent item of a fetcher that did not raise |
| Orchestrator.EmailFetchers | src/newsletter_generator/orchestrator.py:95-96 | one `EmailFetcher` per e-mail source, in order |
| Orchestrator.RssFetchers | src/newsletter_generator/orchestrator.py:98-99 | one `RSSFetcher` per feed source, in order |
| Orchestrator.FileFetchers | src/newsletter_generator/orchestrator.py:101-102 | one `FileFetcher` per file source, in order |
| Orchestrator.FetchersLayout | src/newsletter_generator/orchestrator.py:93-102 | the fetcher list has one entry per source, e-mail ones first, then feeds, then files |
| Orchestrator.NewsletterContentGenerator.constructor | src/newsletter_generator/orchestrator.py:44-67 | keeps the configuration and callback and builds the fetcher list; nothing reported or called yet |
| Orchestrator.NewsletterContentGenerator.SetupComponents | src/newsletter_generator/orchestrator.py:69-123 | the three loops build exactly the fetcher list of the configuration |
| Orchestrator.NewsletterContentGenerator.ReportProgress | src/newsletter_generator/orchestrator.py:293-308 | each report is recorded, and a callback that raises does not stop the run |
| Orchestrator.PipelineFailed | src/newsletter_generator/orchestrator.py:278 | every failure message starts with "Pipeline failed: " |
| Orchestrator.ExportErrorsText | src/newsletter_generator/orchestrator.py:230-256 | a successful export adds no error. A failed one adds one message: "<kind> export failed: <error>", plus " (saved to <path>)" only when there is a fallback path |
| Orchestrator.NewsletterContentGenerator.Run | src/newsletter_generator/orchestrator.py:125-291 | `run` returns the result, makes the progress reports and calls the components exactly as the run specification says. Aggregation starts from `now - timedelta(days=date_range_days)`; when that raises, the run fails with the `OverflowError` message `MinusDays` gives |
| Orchestrator.NewsletterContentGenerator.AggregateSince | src/newsletter_generator/orchestrator.py:154-275 | from aggregation on, the run follows the specification, given a `since` that was computed |
| Orchestrator.NewsletterContentGenerator.Synthesize | src/newsletter_generator/orchestrator.py:174-275 | from synthesis on, the run follows the specification |
| Orchestrator.NewsletterContentGenerator.Generate | src/newsletter_generator/orchestrator.py:185-275 | from generation on, the run follows the specification |
| Orchestrator.NewsletterContentGenerator.Export | src/newsletter_generator/orchestrator.py:206-275 | from export on, the run follows the specification |
| Orchestrator.NewsletterContentGenerator.ExportScript | src/newsletter_generator/orchestrator.py:243-275 | from the TikTok export on, the run follows the specification |
| Orchestrator.NewsletterContentGenerator.Fail | src/newsletter_generator/orchestrator.py:277-291 | the `except` branch appends "Pipeline failed: …" to the errors so far and reports it, keeping the count and exports computed so far |
| Orchestrator.NewsletterContentGenerator.Complete | src/newsletter_generator/orchestrator.py:258-275 | a completed run succeeds exactly when it processed at least one item |
| Orchestrator.ContinueEnds | src/newsletter_generator/orchestrator.py:173-291 | every run past aggregation ends either in a failure whose last error and last report are the "Pipeline failed" message, or in completion |
| Orchestrator.RunEnds | src/newsletter_generator/orchestrator.py:125-291 | a run with no start date fails; one with no items succeeds with the no-newsletters report; others fail or complete |
| Orchestrator.NoItemsRun | src/newsletter_generator/orchestrator.py:162-171 | with no items: success, 0 processed, the one "No newsletters found" message, no exports, only aggregation called |
| Orchestrator.SinceOverflowRun | src/newsletter_generator/orchestrator.py:151-154 | when the start date cannot be computed, the run fails before any component is called, with 0 processed and "Pipeline failed: " plus the `OverflowError` message as its only error; a day count within 999999999 can fail only with "date value out of range" |
| Orchestrator.FailureKeepsProgress | src/newsletter_generator/orchestrator.py:277-291 | a failed run keeps the item count aggregation produced and ends with the failure report |
| Orchestrator.SuccessRule | src/newsletter_generator/orchestrator.py:258-266 | a run reporting completion succeeded and processed a positive number of items |
| Orchestrator.DryRunNeverExports | src/newsletter_generator/orchestrator.py:206-224 | a dry run never calls either exporter. When it produces export results they are successful ones without a note id in the configured folders, and no error is recorded |
| Orchestrator.ExportErrorsRecorded | src/newsletter_generator/orchestrator.py:226-275 | when every stage returns, the run succeeds with both export results, with errors exactly the failed exports' messages, having called all six stages in order |
| Orchestrator.TikTokExportRaises | src/newsletter_generator/orchestrator.py:242-291 | a TikTok export that raises fails the run but keeps the blog export result and its error |
| Orchestrator.ContinueLeavesContent | src/newsletter_generator/orchestrator.py:258-291 | no stage of a run sets `blog_content` or `tiktok_content` |
| Orchestrator.RunLeavesContent | src/newsletter_generator/models.py:377-378 | every result of `run` leaves both content fields `None` |
| Orchestrator.DryRunDropsContent | src/newsletter_generator/orchestrator.py:134-137 | a dry run whose generators both returned succeeds, yet its result carries neither the blog post nor the script |
| Orchestrator.IntendedRunResult | src/newsletter_generator/orchestrator.py:134-137 | the result the docstring describes is `run`'s result with what the generators returned attached, and differs from it in nothing else |
| Orchestrator.DryRunKeepsContent | src/newsletter_generator/orchestrator.py:134-137 | with that result, a dry run whose generators returned succeeds with the blog post, the script and the two dry-run export results |

## Left out

- The DOM pass of `extract_text` (BeautifulSoup parsing, tag removal, block newlines, `get_text`) and the boilerplate regex catalogue of `clean_content` are function values of the `ContentParser` datatype; only what follows them is modelled.
- IMAP connection, search and fetch, `feedparser.parse`, directory globbing, `stat` and file reading are left out. The model starts from what they deliver: the messages, entries and file entries. Their failure handling appears only as "that source returns nothing".
- `_parse_date`, `_decode_header`, `_parse_date_string` and `utcfromtimestamp(timegm(...))` are foreign date/header parsers passed in as functions.
- `datetime.now()` is a parameter of the fetchers and of `run`; payload decoding and charset fallback are left out (payloads are already text).
- Logging is left out except for the per-fetcher log line of `aggregate` (modelled as `Report`).
- `_is_valid_url` (which calls `urlparse`) is a parameter of `validate`.
- `ConfigManager.load` (YAML and files), `cli.py`, the synthesizer, the generators and the exporter are not part of this model. The orchestrator sees them as functions that return or raise.
- Datetimes carry whole-minute UTC offsets; sub-minute offsets are left out. `fromisoformat` is modelled only for the shapes `isoformat` writes.
- JSON objects are maps, so key order is not modelled. A value of the wrong type is a decoding error, whereas Python would store it unchecked.
- Aggregator.NormalizeIdempotent: holds only when the boilerplate pass leaves cleaned text unchanged, because the pattern catalogue is not modelled.
- ContentParser.CleanedIdempotent: same precondition on the boilerplate pass, for the same reason.
- Orchestrator.NewsletterContentGenerator.ReportProgress: the callback is a function that returns or raises; whether it raised is not observable, as in the code.
- Config.ResolveEnvVarsSpec: the resolved API key, which the code stores in an ad-hoc `_resolved_api_key` attribute, is the `apiKey` field of `Config.Resolved`.
- Config.ResolveReference: resolution uses the corrected `EnvReference`, so it does not reproduce the code substituting a variable for a value with a trailing newline (see Findings).
- Text.Lower: lowers ASCII capitals only; the core's substring tests ("html", "text") involve only ASCII.

## Findings

| source | as written | input that shows it | evidently intended | confidence | as-written member | corrected member |
|---|---|---|---|---|---|---|
| src/newsletter_generator/config.py:302 | `^\$\{([A-Za-z_][A-Za-z0-9_]*)\}$` with `re.match`: `$` also matches before a final newline | password `"${A}\n"` is treated as a reference to `A` | only a value that is exactly `${NAME}` is a reference (`\Z` or `fullmatch`) | not executed | Config.EnvReferenceAsWritten | Config.EnvReference |
| src/newsletter_generator/orchestrator.py:134-137 | the docstring of `run` says a dry run's generated content "will still be available in the ExecutionResult", but `run` never sets `blog_content` or `tiktok_content` (src/newsletter_generator/models.py:377-378) | a dry run whose synthesizer and generators all return: the result has `blog_content` and `tiktok_content` `None` | the result carries the generated blog post and TikTok script | not executed | Orchestrator.DryRunDropsContent | Orchestrator.DryRunKeepsContent |

`Orchestrator.NewsletterContentGenerator.Run` keeps modelling `run` as written, so that its result matches the program's; `Orchestrator.IntendedRunResult` is the corrected result the second row describes.
