# httpzen core, modelled in Dafny

httpzen is a command-line HTTP client with a terminal user interface.
The `request` command takes a method, a URL, `-H "Key: Value"` headers and an
optional body.
- It validates the method (one of GET, POST, PUT, PATCH, DELETE, HEAD,
  upper- or lower-case) and the URL (an `http://` or `https://` scheme).
- It builds the request body through a content-type menu (JSON, plain text,
  URL-encoded form, multipart form) and sends the request.
- It resolves the host's IP addresses and looks up each one's
  geolocation, keeping the lookups in an on-disk cache keyed by the
  address with `.` replaced by `_`.
- It shows the result in a five-tab menu: basic information, network
  information, request headers, response headers and the (possibly
  JSON-highlighted) body. Each tab pages with arrow and page keys.

There is also a `benchmark` mode, which sends repeated requests from worker
threads and keeps running metrics. The `help` command renders the command
list and the flag list. A `config` editor edits the stored latency
threshold, which marks a request as slow or fast.

The project has one Dafny module per source file of the core. Three
modules are shared:
- `Wrappers` holds `Option`/`Result`.
- `Strings` holds the small part of Go's `strings`/`strconv` that the core
  calls, with the properties used here.
- `Tea` holds the Bubble Tea messages and commands the components handle.

Stateful components are classes whose methods update their fields:
- the config store;
- the IP cache;
- the benchmark metrics;
- the blinking cursor and the timed message;
- the prompts, the select menu, the key/value editor and the config editor;
- the request menu.

Pure code (parsing, encoding, rendering text, paging arithmetic) is
functions and lemmas. Loops of the source are methods proved equal to a
reference function.

Effects the core only calls out to are parameters of the model:
- the HTTP client's response and error, and DNS resolution;
- the ipinfo API's answer, and `json.Unmarshal`/`json.Indent`;
- `fmt.Sscanf` on coordinates, and `os.Stat`;
- the terminal size query, and `runtime.GOOS`, the home directory and
  `APPDATA`;
- whether `MkdirAll`/`WriteFile` succeed;
- the clipboard, and the text the text input or text area widget holds
  after a key;
- the benchmark's per-request durations.

A `panic` or `os.Exit` becomes an outcome value of the function that
reaches it.

Where the documentation and tests of the repository disagree with the code,
the model follows the code:
- An invalid method reaches the request unchanged as `""`; `RunRequest`
  does not reject it.
- `FetchIpInfo` never returns an error: a failed API call gives an empty
  record, and it is cached like any other.
- With a body, the request command returns after the body menu and does
  not send the request.
- The config file has no `HideLogomark` entry, so the editor's toggle is
  never stored.

## Model

| member | source | states |
|---|---|---|
| AppPath.GetConfigPath | internal/utils/app_path/util.go:13-29 | a failed home lookup panics; on windows the path is `APPDATA\httpzen`, or a panic when `APPDATA` is empty; on darwin it is `~/Library/Application Support/httpzen`; any other OS gives `~/.config/httpzen` |
| AppPath.PathEndsWithHttpzen | internal/utils/app_path/util.go:13-29 | every path returned ends in the directory name `httpzen` |
| AppPath.WindowsIgnoresHome | internal/utils/app_path/util.go:17-21 | on windows the path does not depend on the home directory |
| Config.Effective | internal/config/module.go:33 | an explicit Set wins; there is no value exactly when nothing was set, read from the file or registered as default |
| Config.Written | internal/config/module.go:45 | writing the config stores every key's effective value and changes no lookup |
| Config.InitSpec | internal/config/module.go:69-85 | loading succeeds exactly when the path is known and the directory and file can be written; it then gives threshold 500 with the logomark shown, registers 500 as the default and writes the effective value to the file |
| Config.GetSpec | internal/config/module.go:22-35 | with no config file the result is InitConfig's; with one, the file is read in and its threshold returned |
| Config.UpdateSpec | internal/config/module.go:37-49 | the threshold is set in memory first; the update succeeds exactly when path, directory and write succeed, and the file then holds the new threshold; a directory or write failure is an error and leaves the file as it was |
| Config.UpdateThenGet | internal/config/module.go:37-49 | after a successful update, GetConfig returns the threshold just written |
| Config.UpdatePersists | internal/config/module.go:37-49 | a later process reading the written file sees the updated threshold |
| Config.FirstLoadIsDefault | internal/config/module.go:29-31 | with no config file, GetConfig yields 500 and leaves a file holding 500 |
| Config.Store.constructor | internal/config/module.go:22-27 | a fresh process: nothing set, read or defaulted, and the file as it is on disk |
| Config.Store.InitConfig | internal/config/module.go:69-85 | the result and the new store and file are InitSpec's |
| Config.Store.GetConfig | internal/config/module.go:22-35 | the result and the new store and file are GetSpec's |
| Config.Store.UpdateConfig | internal/config/module.go:37-49 | the result and the new store and file are UpdateSpec's |
| IpCache.CacheKey | internal/cache/ip_cache.go:31 | the key has the ip's length and no `.`; every `.` becomes `_` and every other character is kept |
| IpCache.CacheKeyIsReplaceAll | internal/cache/ip_cache.go:41 | the key is `strings.ReplaceAll(ip, ".", "_")` |
| IpCache.CacheKeyIdempotent | internal/cache/ip_cache.go:31 | an already sanitised key, as FetchIpInfo passes, is left unchanged by the cache's own sanitising |
| IpCache.CacheKeyAliases | internal/cache/ip_cache.go:31 | two addresses that differ only in `.` versus `_` share one entry |
| IpCache.Lookup | internal/cache/ip_cache.go:32-35 | an entry is found exactly when its key is stored, and it is the stored record |
| IpCache.Store | internal/cache/ip_cache.go:41 | storing adds exactly the ip's key to the key set |
| IpCache.GetAfterSet | internal/cache/ip_cache.go:28-43 | Get after Set of the same ip returns the record set |
| IpCache.GetAfterSetOther | internal/cache/ip_cache.go:41 | Set leaves the answer for every other key unchanged |
| IpCache.GetFromEmpty | internal/cache/ip_cache.go:32-35 | an empty cache finds nothing |
| IpCache.DotsAndUnderscoresAlias | internal/cache/ip_cache.go:31-41 | a record set for `10.0.0.1` is found under `10_0_0_1` |
| IpCache.Cache.constructor | internal/cache/ip_cache.go:19-26 | the entries are the cache file's, or none when there is no file |
| IpCache.Cache.Get | internal/cache/ip_cache.go:28-36 | found exactly when the sanitised key is stored; nothing changes |
| IpCache.Cache.Set | internal/cache/ip_cache.go:38-43 | the entry is stored under the sanitised key; the file is rewritten with all entries when the write succeeds and unchanged otherwise |
| IpCache.Cache.Clear | internal/cache/ip_cache.go:45-51 | when the file is removed, entries and file become empty, so every later Get misses; when the removal fails, the store is read back from the file left behind: the one just written, or the old one if that write failed too |
| IpUtility.IpType | internal/utils/ip_utility/util.go:108-113 | `IPv4` exactly for an address with a four-byte form, `IPv6` otherwise |
| IpUtility.LookupHost | internal/utils/ip_utility/util.go:97-100 | the host is the text before the first `:`, and it holds no `:` |
| IpUtility.Coordinates | internal/utils/ip_utility/util.go:55-64 | (0, 0) unless `loc` splits at `,` into exactly two parts; then each part is scanned, 0 where scanning fails |
| IpUtility.FromApiFields | internal/utils/ip_utility/util.go:66-78 | each API field lands in its record field, with the given ip and type and parsed coordinates |
| IpUtility.Fetch | internal/utils/ip_utility/util.go:27-94 | a cache hit returns the stored record and changes nothing; a miss stores the API record; either way the ip is then cached with the record returned |
| IpUtility.FetchTwiceHits | internal/utils/ip_utility/util.go:27-94 | an immediate second fetch of an address is a hit that returns the same record and changes nothing |
| IpUtility.FetchIpInfo | internal/utils/ip_utility/util.go:27-94 | it never returns an error; the record and the new cache are Fetch's |
| IpUtility.FetchAll | internal/utils/ip_utility/util.go:106-122 | one record per resolved address |
| IpUtility.FetchAllTypes | internal/utils/ip_utility/util.go:106-122 | the k-th record has the k-th address and that address's type, for distinct addresses whose cache entries belong to them |
| IpUtility.FetchAllCaches | internal/utils/ip_utility/util.go:106-122 | afterwards every resolved address is cached |
| IpUtility.FetchAllKeepsKeys | internal/utils/ip_utility/util.go:106-122 | no cache entry is dropped |
| IpUtility.LookupDomainIps | internal/utils/ip_utility/util.go:96-123 | a DNS failure gives no records and leaves the cache alone; otherwise the records and cache are FetchAll's over the resolved addresses |
| IpUtility.FetchAddresses | internal/utils/ip_utility/util.go:106-121 | the loop computes FetchAll's records and cache |
| HttpUtility.ParseApplicationJson | internal/utils/http_utility/util.go:31-39 | text that unmarshals gives the part's content type as header and the decoded value; any other text gives no header and no payload |
| HttpUtility.EncodeFormParts | internal/utils/http_utility/util.go:81-85 | one `key=value` pair per part, in part order, each side form-escaped |
| HttpUtility.ParseUrlEncodedForm | internal/utils/http_utility/util.go:79-93 | the form header, and the pairs joined with `&` |
| HttpUtility.EncodeFormComponentClean | internal/utils/http_utility/util.go:82-83 | an escaped component holds no space and no `=` |
| HttpUtility.EncodeFormExample | internal/utils/http_utility/util_test.go:126-140 | worked example of the form-encoding test: `foo bar` / `baz=qux` encodes to `foo+bar=baz%3Dqux` |
| HttpUtility.ParseHttpMethod | internal/utils/http_utility/util.go:95-112 | the six methods, in either case, give the upper-case name; anything else gives `""` |
| HttpUtility.ParseHttpMethodIdempotent | internal/utils/http_utility/util.go:95-112 | parsing a parsed method gives it back |
| HttpUtility.ParseUrl | internal/utils/http_utility/util.go:114-119 | the URL passes unchanged exactly when it starts with `http://` or `https://`; anything else gives `""` |
| HttpUtility.DetectContentType | internal/utils/http_utility/util.go:127-142 | one of json, html, xml or text, on the trimmed body: json exactly for bracketed text that parses; html only for an html prefix; xml only for an `<?xml` prefix or a `<...>` body; text only when neither xml form applies |
| HttpUtility.GetFileByPath | internal/utils/http_utility/util.go:144-167 | the path is valid exactly when it passes the syntax checks; a blank path is ErrNotExist, another invalid one ErrInvalid; a valid path is a file, with its base name, exactly when `os.Stat` finds a regular file, and ErrNotExist otherwise |
| HttpUtility.GetFileByPathIgnoresFilesystem | internal/utils/http_utility/util.go:144-156 | text that fails the path checks gives the same answer whatever the filesystem holds |
| ContentType.Detect | internal/utils/content_type/utils.go:8-23 | one of json, html, xml or text, the same decision HttpUtility.DetectContentType makes |
| ContentType.DetectIgnoresPadding | internal/utils/content_type/utils.go:9 | surrounding whitespace does not change the kind |
| ContentType.BlankIsText | internal/utils/content_type/utils.go:9-22 | a blank body is text |
| ContentType.JsonNeedsBracket | internal/utils/content_type/utils.go:10-15 | JSON is reported only for trimmed bodies opening with `{` or `[` that unmarshal |
| ContentType.HtmlBeforeXml | internal/utils/content_type/utils.go:16-18 | a body with a `<!DOCTYPE html` or `<html` prefix is HTML even though it is also tag-shaped |
| ContentType.UnclosedTagIsText | internal/utils/content_type/utils.go:19-22 | a body opening with `<` but not ending in `>`, and with no xml or html prefix, is text |
| JsonFormatter.ClosingQuote | internal/utils/json_formatter/util.go:30-36 | the string literal ends at or after its start, inside the text, on a `"` unless the text ran out |
| JsonFormatter.EscapeSkipsNext | internal/utils/json_formatter/util.go:32-34 | a backslash makes the next character part of the string even when it is a quote |
| JsonFormatter.SkipLayout | internal/utils/json_formatter/util.go:40-43 | the scan stops at the first character that is not a space, a newline or a tab |
| JsonFormatter.NumberEnd | internal/utils/json_formatter/util.go:55-58 | the number runs over digits, `.`, `-`, `e` and `E` up to the first other character |
| JsonFormatter.QuotedTag | internal/utils/json_formatter/util.go:44-48 | a quoted text is tagged either Key or Str |
| JsonFormatter.NumberStep | internal/utils/json_formatter/util.go:54-61 | a number segment covers the text from the index onwards, moves forward, and holds only number characters |
| JsonFormatter.WordStep | internal/utils/json_formatter/util.go:64-78 | the segment is the word with its tag, and the index moves past the word |
| JsonFormatter.Step | internal/utils/json_formatter/util.go:26-82 | each step emits a non-empty segment that is exactly the text from the current index, and moves forward |
| JsonFormatter.ScanPartitions | internal/utils/json_formatter/util.go:25-82 | the segments concatenated are the indented text: highlighting loses and adds nothing |
| JsonFormatter.ScanWellFormed | internal/utils/json_formatter/util.go:25-82 | every segment is well formed: keys and strings are quoted, numbers hold only number characters, and booleans and null are their words |
| JsonFormatter.KeyIffColonFollows | internal/utils/json_formatter/util.go:37-48 | a string segment is tagged Key exactly when a `:` follows it after layout |
| JsonFormatter.QuotedTagIff | internal/utils/json_formatter/util.go:40-48 | both directions of the key or string choice |
| JsonFormatter.FindClosingQuote | internal/utils/json_formatter/util.go:30-36 | the loop finds ClosingQuote's index |
| JsonFormatter.FindNonLayout | internal/utils/json_formatter/util.go:40-43 | the loop finds SkipLayout's index |
| JsonFormatter.FindNumberEnd | internal/utils/json_formatter/util.go:55-58 | the loop finds NumberEnd's index |
| JsonFormatter.NextSegment | internal/utils/json_formatter/util.go:27-81 | the loop body emits Step's segment |
| JsonFormatter.FormatJSON | internal/utils/json_formatter/util.go:11-84 | text that does not indent is returned unchanged; otherwise the result is the scan of the trimmed indented text |
| TerminalUtility.GetTerminalWidth | internal/utils/terminal_utility/util.go:31-40 | the measured width when it is positive and at most the maximum, and the maximum otherwise, including when measuring fails |
| TerminalUtility.GetTerminalHeight | internal/utils/terminal_utility/util.go:42-51 | the same rule for the height: the measured height inside 1..max, the maximum otherwise |
| TermSize.GetTerminalWidth | internal/utils/term_size/util.go:19-28 | the same rule as TerminalUtility.GetTerminalWidth: the measured width inside 1..max, the maximum otherwise |
| TermSize.GetTerminalHeight | internal/utils/term_size/util.go:30-39 | the same rule as TerminalUtility.GetTerminalHeight: the measured height inside 1..max, the maximum otherwise |
| Request.HandleHttpMethod | internal/request/module.go:121-138 | one of the six upper-case methods or `""`, accepting either case |
| Request.HandleUrl | internal/request/module.go:140-145 | the URL passes through exactly when it is empty or has an http(s) scheme |
| Request.FirstValues | internal/request/module.go:76-81 | a header is kept exactly when it has a value, and keeps its first value |
| Request.FlattenHeaders | internal/request/module.go:76-81 | the loop computes FirstValues |
| Request.KeptInfos | internal/request/module.go:163-179 | at most one record per resolved address |
| Request.KeptInfosFromFetches | internal/request/module.go:163-179 | every kept record is a successful lookup of some resolved address |
| Request.KeptInfosAllSucceed | internal/request/module.go:163-179 | when no lookup fails, one record per address, in address order |
| Request.DomainIpsLookup | internal/request/module.go:153-180 | for any fetchIpInfoFunc: a DNS failure gives no records; otherwise KeptInfos over the resolved addresses |
| Request.RunRequest | internal/request/module.go:63-248 | an invalid URL or a transport error exits with status 1 and leaves the IP cache alone; otherwise the response carries the reply's status, protocol, headers, cookies and text; the normalised method; the body; the time; the slow verdict against the threshold; and the network records of the reply's host, one per resolved address (the default fetchIpInfo never fails), each a cache hit or an API answer that is then cached, with the cache left as IpUtility.FetchAll leaves it |
| RequestCommand.Canonicalise | cmd/commands/request/command.go:35 | canonical header form keeps the length and differs from the key only in letter case |
| RequestCommand.CanonicalKey | cmd/commands/request/command.go:35 | a key holding a non-token character is kept as given; any key is equal up to case to its canonical form |
| RequestCommand.CanonicalKeyCaseInsensitive | cmd/commands/request/command.go:35 | token keys equal up to case are filed under one header |
| RequestCommand.CanonicalKeyIdempotent | cmd/commands/request/command.go:35 | canonicalising a canonical key changes nothing |
| RequestCommand.ParseHeaderEntry | cmd/commands/request/command.go:31-34 | an entry is ignored exactly when it holds no `:` |
| RequestCommand.SplitAtFirstColon | cmd/commands/request/command.go:31-34 | an entry splits at its first `:`, with both sides trimmed |
| RequestCommand.AddHeader | cmd/commands/request/command.go:35 | the value is appended under the canonical key; every other header is unchanged |
| RequestCommand.ParsedHeadersValues | cmd/commands/request/command.go:28-39 | a header is present exactly when an entry contributed to it, and its values come in entry order |
| RequestCommand.IgnoresEntryWithoutColon | cmd/commands/request/command.go:31-32 | an entry without `:` leaves the headers unchanged |
| RequestCommand.ParseHeaders | cmd/commands/request/command.go:28-39 | the loop builds ParsedHeaders |
| RequestCommand.Run | cmd/commands/request/command.go:42-89 | fewer than two arguments show the help; an unknown method, a bad URL or a body with GET or HEAD is fatal with its message; otherwise a body opens the body menu and no body runs the request, both with options built from the parsed method, URL and headers |
| RequestCommand.RunBuildsValidOptions | cmd/commands/request/command.go:71-76 | options only ever carry a recognised method, the given http(s) URL, the 30-second timeout and the parsed headers, and the body menu never opens for GET or HEAD |
| HelpCommand.PadRight | cmd/commands/help/command.go:25-30 | the text padded with spaces to the width, or unchanged when already that long |
| HelpCommand.PadRightExamples | cmd/commands/help/command_test.go:15-19 | worked examples of the padding test: `foo` to width 6 is `foo   `; `foobar` is kept at width 6 and at width 3 |
| HelpCommand.CommandsTextIsListedLines | cmd/commands/help/command.go:32-44 | the command list is one line per listed command, in order, and nothing for the `completion` and `help` commands |
| HelpCommand.WriteCommandLine | cmd/commands/help/command.go:38-41 | the builder gains the command's line: indent, use padded to the width plus 4, short text, newline |
| HelpCommand.RenderCommands | cmd/commands/help/command.go:32-44 | the loop builds the command list |
| HelpCommand.MaxUseLenIsMaximum | cmd/commands/help/command.go:140-148 | the width bounds every listed use and is reached by one, or is 0 |
| HelpCommand.ComputeMaxUseLen | cmd/commands/help/command.go:140-148 | the loop finds the maximum use length |
| HelpCommand.MaxFlagNameLenBounds | cmd/commands/help/command.go:152-160 | the flag width bounds the length of every flag name any category lists |
| HelpCommand.ComputeMaxFlagNameLen | cmd/commands/help/command.go:152-160 | the loop finds the maximum flag-name length |
| HelpCommand.Lookup | cmd/commands/help/command.go:54 | a flag is found exactly when one has the name |
| HelpCommand.Uncategorized | cmd/commands/help/command.go:81-86 | no leftover flag is one that a category shows |
| HelpCommand.CategoryHeaderIffFlag | cmd/commands/help/command.go:50-64 | a category's block is empty exactly when the command has none of its flags, and otherwise opens with the category title |
| HelpCommand.UncategorizedNonEmpty | cmd/commands/help/command.go:81-86 | the leftover list is non-empty exactly when some flag is outside every category |
| HelpCommand.AvailableParametersIff | cmd/commands/help/command.go:81-100 | the flag listing is the categories followed by the leftover section, which appears, headed "Available parameters", exactly when some flag is outside every category |
| HelpCommand.NoFlagsRenderEmpty | cmd/commands/help/command.go:46-102 | a command without flags renders no flag text |
| HelpCommand.HasAnyScan | cmd/commands/help/command.go:52-58 | the loop decides whether a category has any of the command's flags |
| HelpCommand.CategoryLines | cmd/commands/help/command.go:64-75 | the loop builds the category's flag lines and records its names as shown |
| HelpCommand.NamedLinesNone | cmd/commands/help/command.go:65-70 | a category naming a flag the command lacks makes its lines fail, where the source dereferences nil |
| HelpCommand.CategoriesTextNone | cmd/commands/help/command.go:50-79 | such a category makes the whole flag listing fail |
| HelpCommand.CollectUncategorized | cmd/commands/help/command.go:81-86 | the loop collects Uncategorized |
| HelpCommand.RenderUncategorized | cmd/commands/help/command.go:88-100 | the loop renders the leftover section |
| HelpCommand.RenderCategory | cmd/commands/help/command.go:50-79 | the loop builds one category's block, and records its names as shown exactly when it has one of the flags |
| HelpCommand.RenderFlags | cmd/commands/help/command.go:46-102 | the categories' texts, then the leftover section |
| HelpCommand.HelpText | cmd/commands/help/command.go:129-161 | the help fails exactly when the flag listing fails; otherwise it is the logo line, the title and a blank line, the usage line, the "Main Commands" header when there are commands, the command list at the computed width, and the flag listing |
| Benchmark.GoDiv | internal/benchmark/module.go:89 | Go's integer division: Dafny's quotient for a non-negative dividend and positive divisor, its negation for a negative divisor, and a non-zero quotient has the sign of a/b |
| Benchmark.Classify | internal/benchmark/module.go:122-126 | exactly one counter goes up: successes for a status in 200 to 399, errors for any other |
| Benchmark.Iteration | internal/benchmark/module.go:86-97 | one request more; its bytes received and sent added; requests per second recomputed; balanced counters stay balanced; the maximum latency never drops; the minimum is set by the first sample and never grows |
| Benchmark.FoldCounters | internal/benchmark/module.go:86-89 | over any run: requests grow by the number of samples, successes by the successful ones, errors by the rest, bytes by the totals, the counters stay balanced, and thread count and duration are untouched |
| Benchmark.FoldLatencies | internal/benchmark/module.go:91-97 | from zero latencies, the folded bounds are the minimum and maximum of the positive durations, and 0 < min <= max |
| Benchmark.LatencyBounds | internal/benchmark/module.go:91-97 | for positive durations the minimum is positive and at most the maximum |
| Benchmark.BenchmarkResult.constructor | internal/benchmark/module.go:35-51 | the metrics start with every counter and latency at zero |
| Benchmark.BenchmarkResult.DoRequest | internal/benchmark/module.go:109-128 | the metrics are classified by the response status |
| Benchmark.BenchmarkResult.Iterate | internal/benchmark/module.go:83-100 | with a non-zero duration the metrics become Iteration of the old metrics and the sample, and are published to the caller's copy; with a zero duration the counters are updated, the division panics and nothing is published |
| Benchmark.RunBenchmark | internal/benchmark/module.go:53-107 | the run ends in a division-by-zero panic exactly when the duration is zero and a worker started a request, and nothing is published then; with a positive duration the published metrics record the duration and the thread count and are the fold of every sample from zero; with a negative one no tick runs, so the published metrics are the fold, or the caller's value when no request started |
| TabContent.ExecutionVerdict | internal/menus/request_menu/basic_infos.go:26-33 | red above the threshold, yellow above 70% of it, green otherwise; only green is labelled "(fast)", the others "(slow)" |
| TabContent.VerdictMonotone | internal/menus/request_menu/basic_infos.go:26-33 | a longer time never gets a milder shade |
| TabContent.VerdictExamples | internal/menus/request_menu/basic_infos_test.go:15-77 | worked examples of the basic-infos tests: 100 ms against 50 is red and slow; 200 against 250 is yellow and slow; 10 against 50 is green and fast |
| TabContent.FileLines | internal/menus/request_menu/basic_infos.go:125-130 | a part value that is not path-shaped adds no file lines |
| TabContent.BodySection | internal/menus/request_menu/basic_infos.go:110-116 | no parts give the heading and the no-body message; one part gives the heading and that part's text |
| TabContent.RenderBody | internal/menus/request_menu/basic_infos.go:99-155 | the loop builds BodySection |
| TabContent.RenderParts | internal/menus/request_menu/basic_infos.go:118-153 | the loop joins the part texts with blank lines |
| TabContent.BasicInfosText | internal/menus/request_menu/basic_infos.go:16-42 | the tab opens with the protocol, method and status line and ends with the body section |
| TabContent.Optional | internal/menus/request_menu/network_infos.go:23-44 | an optional line is shown exactly when its field is not empty |
| TabContent.OptionalFrom | internal/menus/request_menu/network_infos.go:23-44 | every optional line is a non-empty field of the record, and every non-empty field has its line |
| TabContent.NetworkFieldsShown | internal/menus/request_menu/network_infos.go:19-47 | the protocol and IP lines come first; each optional line appears exactly when its field is non-empty; the coordinates line exactly when both coordinates are non-zero |
| TabContent.OptionalLineShown | internal/menus/request_menu/network_infos.go:23-44 | a non-empty field shows its line, and an empty one shows none |
| TabContent.CoordinatesLineShown | internal/menus/request_menu/network_infos.go:45-47 | the coordinates line is shown exactly when latitude and longitude are both non-zero |
| TabContent.NetworkText | internal/menus/request_menu/network_infos.go:51 | no records give empty text |
| TabContent.RenderNetwork | internal/menus/request_menu/network_infos.go:12-53 | the loop builds NetworkText |
| TabContent.NonEmptyKeys | internal/menus/request_menu/request_headers.go:23-28 | the keys listed are exactly the headers with a non-empty value, each once |
| TabContent.HeaderLinesAt | internal/menus/request_menu/request_headers.go:32-38 | line k is the k-th key, `: ` and that header's value |
| TabContent.HeadersText | internal/menus/request_menu/response_headers.go:14-36 | headers with only empty values give empty text |
| TabContent.RequestHeadersText | internal/menus/request_menu/request_headers.go:14-40 | no headers give "No request headers found."; otherwise the header lines |
| TabContent.CollectKeys | internal/menus/request_menu/request_headers.go:23-28 | the loop collects each key with a non-empty value exactly once |
| TabContent.SortStrings | internal/menus/request_menu/request_headers.go:30 | the result is strictly sorted and holds the same keys |
| TabContent.JoinLines | internal/menus/request_menu/request_headers.go:32-38 | the loop builds the header lines |
| TabContent.RenderHeaderLines | internal/menus/request_menu/request_headers.go:23-38 | the loop builds the header lines text |
| TabContent.RenderRequestHeaders | internal/menus/request_menu/request_headers.go:14-40 | the request headers tab text |
| TabContent.RenderResponseHeaders | internal/menus/request_menu/response_headers.go:14-36 | the response tab shows the header lines, and nothing for no headers |
| TabContent.OmitsEmptyValues | internal/menus/request_menu/request_headers.go:25-27 | a header with an empty value has no line |
| StringOrder.Sorted | internal/menus/request_menu/request_headers.go:30 | always strictly increasing, with exactly the elements of the input |
| StringOrder.SortedIsUnique | internal/menus/request_menu/request_headers.go:30 | any strictly sorted arrangement of the same distinct keys is the sorted one |
| Paging.ScrollUp | internal/menus/request_menu/basic_infos.go:64-68 | one line up, never below zero |
| Paging.ScrollPgUp | internal/menus/request_menu/basic_infos.go:83-88 | five lines up, or to the top when fewer than five are above |
| Paging.ScrollDown | internal/menus/request_menu/basic_infos.go:70-81 | one line down exactly when the content is longer than a page and lines remain below it; a full window stays full |
| Paging.ResultScrollDown | internal/menus/request_menu/result_viewport.go:65-72 | one line down while the offset is inside the content, pulled back to the last line otherwise |
| Paging.ScrollPgDown | internal/menus/request_menu/basic_infos.go:90-97 | five lines down exactly when the content is longer than a page, with no cap |
| Paging.Window | internal/menus/request_menu/basic_infos.go:50-54 | the visible range starts at the offset, or at the end when the offset is past it, and holds a full page unless it reaches the end |
| Paging.ResultOffset | internal/menus/request_menu/result_viewport.go:40-42 | the offset is pulled back until a full page fits, or to zero |
| Paging.ResultWindowFull | internal/menus/request_menu/result_viewport.go:40-47 | when the content is at least a page long, the result window is a full page |
| Paging.Footer | internal/menus/request_menu/basic_infos.go:56-59 | the footer is empty exactly when the content fits on one page |
| Paging.PagedView | internal/menus/request_menu/basic_infos.go:44-62 | content that fits on one page is shown whole |
| Paging.WindowExamples | internal/menus/request_menu/request_headers_test.go:36-54 | worked examples of the paging tests: at height 18, a three-line content shows two lines per page; at height 16 no line fits |
| Paging.ScrollDownThenUp | internal/menus/request_menu/basic_infos.go:64-81 | scrolling down then up returns to the same offset |
| Paging.ScrollDownStops | internal/menus/request_menu/basic_infos.go:70-81 | n presses of down move n lines, stopping at the last full page |
| RequestMenu.TabRotation | internal/menus/request_menu/tabs.go:81-91 | left undoes right and right undoes left; right from the response headers tab wraps to the result tab; right always changes tab |
| RequestMenu.RightsModulo | internal/menus/request_menu/tabs.go:87-91 | n presses of right from tab t land on tab (t + n) mod 5 |
| RequestMenu.KeyStepSound | internal/menus/request_menu/menu.go:99-156 | every key keeps five offsets and five line counts, all non-negative |
| RequestMenu.ScrollKeysTouchActiveTabOnly | internal/menus/request_menu/menu.go:121-152 | a scroll key changes only the active tab's offset |
| RequestMenu.TabKeysResetResultOffset | internal/menus/request_menu/tabs.go:81-91 | right moves to the next tab and resets only the result view's offset, and left then returns to the first tab; left moves to the previous tab |
| RequestMenu.ResultPage | internal/menus/request_menu/result_viewport.go:37-52 | the offset is clamped by ResultOffset and the page is the paged view at that offset |
| RequestMenu.Model.constructor | internal/menus/request_menu/menu.go:43-50 | the result tab is active, every offset and line count is zero, and no clipboard message is shown |
| RequestMenu.Model.MoveLeft | internal/menus/request_menu/tabs.go:81-85 | the previous tab, wrapping around; the result view's offset is reset and nothing else changes |
| RequestMenu.Model.MoveRight | internal/menus/request_menu/tabs.go:87-91 | the next tab, wrapping around; the result view's offset is reset and nothing else changes |
| RequestMenu.Model.Scroll | internal/menus/request_menu/menu.go:121-152 | only the active tab's offset changes, and it follows the paging rule for the key |
| RequestMenu.Model.RenderResult | internal/menus/request_menu/result_viewport.go:16-57 | no response text shows "No response available."; otherwise the result offset is clamped, the line count recorded, and the page is the paged view of the formatted lines |
| RequestMenu.Model.RenderPaged | internal/menus/request_menu/basic_infos.go:44-62 | the tab's line count is recorded and the page is the paged view at the tab's offset |
| RequestMenu.Model.Update | internal/menus/request_menu/menu.go:99-156 | q, Ctrl+C and Esc quit; c copies the response and shows the copied message, or panics when the clipboard fails; every key moves tab and offsets as KeyStep says; other messages change nothing |
| SelectMenu.Filter | internal/components/select_menu/component.go:78-84 | the filtered list is no longer than the choices |
| SelectMenu.FilterMembers | internal/components/select_menu/component.go:78-84 | a choice is kept exactly when its lower-case form contains the lower-case term |
| SelectMenu.FilteredChoices | internal/components/select_menu/component.go:76-87 | the empty-term shortcut gives the same list as filtering |
| SelectMenu.FilterEmptyTerm | internal/components/select_menu/component.go:76-87 | an empty term filters nothing out |
| SelectMenu.FilterIsSubsequence | internal/components/select_menu/component.go:78-84 | the filtered choices keep their original order |
| SelectMenu.FirstIndex | internal/components/select_menu/component.go:209-214 | the index of the first choice equal to the given one |
| SelectMenu.PerPage | internal/components/select_menu/component.go:47-49 | the page size is always positive, and is the one asked for when that is positive |
| SelectMenu.PerPageAsWritten | internal/components/select_menu/component.go:36-49 | the page size the menu keeps is non-positive exactly when the size asked for is |
| SelectMenu.PageWindow | internal/components/select_menu/component.go:143-147 | the listed range starts at zero while the cursor is on the first page, and ends inside the list |
| SelectMenu.CursorOnPage | internal/components/select_menu/component.go:143-147 | with a positive page size the cursor lies inside the listed range, which is at most a page long |
| SelectMenu.AsWrittenListsNothing | internal/components/select_menu/component.go:143-149 | with no page size asked for, the code lists no choice at all |
| SelectMenu.CorrectedShowsCursor | internal/components/select_menu/component.go:143-147 | with the default of 10, the cursor's choice is always listed |
| SelectMenu.ChosenAsWritten | internal/components/select_menu/component.go:168 | the choice is present exactly when the full-list index fits the filtered list |
| SelectMenu.Chosen | internal/components/select_menu/component.go:168 | for an index inside the choices, the choice at that full-list index |
| SelectMenu.ChosenAsWrittenOutOfRange | internal/components/select_menu/component.go:161-170 | choosing `b` from `a`, `b` after typing `b` leaves the confirmation out of range |
| SelectMenu.Menu.constructor | internal/components/select_menu/component.go:35-49 | the cursor is on the first choice, nothing is selected, the search term is empty and the page size is the corrected one, PerPage's (10 when none is given); the source keeps the requested value, see Findings |
| SelectMenu.Menu.Filtered | internal/components/select_menu/component.go:76-87 | the loop builds FilteredChoices |
| SelectMenu.Menu.IndexOf | internal/components/select_menu/component.go:209-214 | the loop finds FirstIndex |
| SelectMenu.Menu.Update | internal/components/select_menu/component.go:182-220 | arrows move the cursor within the filtered list; Enter selects the full-list index of the first choice equal to the cursor's and quits; typing, space and backspace edit the term and reset the cursor; Ctrl+C and Esc quit |
| Tea.RunesText | internal/components/select_menu/component.go:186-187 | the text a rune key carries is the typed runes, unchanged for a plain key, bracketed when pasted and after `alt+` when Alt was held |
| Tea.ModifiedRunesAreNotSingle | internal/menus/request_menu/menu.go:102-106 | an Alt-modified or pasted key is never a single character, so it never matches a one-letter command such as `q` |
| SelectMenu.Finished | internal/components/select_menu/component.go:63-72 | the handler is called exactly when a choice was selected, and with that index; otherwise the program exits with status 1 |
| KeyValueMenu.Remove | internal/components/keyvalue_menu/component.go:116 | the pair at the index is removed and the others keep their order |
| KeyValueMenu.RemoveMultiset | internal/components/keyvalue_menu/component.go:116 | removal takes away exactly one occurrence of that pair |
| KeyValueMenu.Fire | internal/components/keyvalue_menu/component.go:63-66 | an armed menu calls the result handler once more, with the pairs; an unarmed one calls nothing |
| KeyValueMenu.Menu.constructor | internal/components/keyvalue_menu/component.go:39-48 | no pairs, not adding, selection at the top, empty inputs, not started, and the handler armed exactly when one was given |
| KeyValueMenu.Menu.Init | internal/components/keyvalue_menu/component.go:50-55 | adding starts on the key field with the selection at the top; pairs, inputs and handler are unchanged |
| KeyValueMenu.Menu.Finish | internal/components/keyvalue_menu/component.go:62-66 | the menu is done and the handler fires once and is disarmed; pairs, selection and inputs are unchanged |
| KeyValueMenu.Menu.Update | internal/components/keyvalue_menu/component.go:57-130 | Ctrl+C and Esc finish; Enter behaves as EnterKey; the arrows and Delete act on the key field; typing and backspace edit the field in focus; other messages change nothing |
| KeyValueMenu.Menu.EnterKey | internal/components/keyvalue_menu/component.go:68-95 | an empty key finishes the menu; a key moves focus to the value; a value adds the pair and clears both inputs, finishing when the limit is reached |
| KeyValueMenu.Menu.MoveUp | internal/components/keyvalue_menu/component.go:102-107 | on the key field with pairs present, the selection moves up one, stopping at the first pair; nothing else changes |
| KeyValueMenu.Menu.MoveDown | internal/components/keyvalue_menu/component.go:108-113 | on the key field with pairs present, the selection moves down one, stopping at the last pair; nothing else changes |
| KeyValueMenu.Menu.DeleteSelected | internal/components/keyvalue_menu/component.go:114-120 | on the key field with pairs present, the selected pair is removed and the selection pulled back if it fell off the end |
| KeyValueMenu.Menu.TypeText | internal/components/keyvalue_menu/component.go:122-126 | the typed text is appended to the field in focus; nothing else changes |
| KeyValueMenu.Menu.Backspace | internal/components/keyvalue_menu/component.go:96-101 | the field in focus loses its last character, if it has one; nothing else changes |
| ConfigEditor.ConfigOptions | internal/components/config_editor/component.go:45-60 | two options in order: the threshold as a number option and the logomark flag as a boolean option, carrying the config's values |
| ConfigEditor.ValueText | internal/components/config_editor/component.go:175 | a threshold within 64 bits is shown as decimal text that parses back to it; a flag is shown as `true` or `false` |
| ConfigEditor.ReadsBack | internal/components/config_editor/component.go:175 | any 64-bit threshold's decimal text parses back to it |
| ConfigEditor.Apply | internal/components/config_editor/component.go:243-258 | saving the logomark option flips it; saving the threshold takes the parsed input, 0 for an empty input, and an unparsable input keeps the config |
| ConfigEditor.SaveUneditedThreshold | internal/components/config_editor/component.go:243-258 | saving the threshold without editing keeps its value |
| ConfigEditor.ToggleTwice | internal/components/config_editor/component.go:244 | toggling twice restores the flag |
| ConfigEditor.Editor.constructor | internal/components/config_editor/component.go:62-72 | the editor starts on the first option with the loaded config, not editing, nothing written, no saved message and the cursor shown |
| ConfigEditor.Editor.NavigateUp | internal/components/config_editor/component.go:209-214 | the cursor moves up one, stopping at the first option |
| ConfigEditor.Editor.NavigateDown | internal/components/config_editor/component.go:216-221 | the cursor moves down one, stopping at the last option |
| ConfigEditor.Editor.Backspace | internal/components/config_editor/component.go:223-233 | while editing a number option, the input loses its last character; nothing else changes |
| ConfigEditor.Editor.SaveChanges | internal/components/config_editor/component.go:235-268 | when editing, the option takes Apply's value, the config is recorded as written, editing ends and "Saved" is shown for its duration; otherwise nothing changes |
| ConfigEditor.Editor.KeyRunes | internal/components/config_editor/component.go:185-202 | `q` quits; a digit is appended while editing a number option; `y`/`Y` saves while editing; `n`/`N` cancels editing; other text does nothing |
| ConfigEditor.Editor.Update | internal/components/config_editor/component.go:147-200 | Enter starts editing with the option's current text, or saves when editing; arrows move the cursor within the options and keep the edited text; Backspace trims the edited text of a number option; a digit extends it; `y`/`Y` save when editing and change nothing otherwise; `n`/`N` cancel; Ctrl+C, Esc and `q` quit; any other rune or key changes nothing; blink messages tick the cursor only while editing |
| Prompt.Finish | internal/components/prompt/component.go:61-64 | the handler is called exactly when the prompt was submitted, with the answer lower-cased character by character |
| Prompt.BooleanAnswer | internal/components/prompt/component.go:149-167 | a submitted yes/no prompt hands over exactly `y` or `n`, and `y` exactly for `y` or `Y` |
| Prompt.Prompt.constructor | internal/components/prompt/component.go:42-52 | empty input, neither invalid nor submitted |
| Prompt.Prompt.Update | internal/components/prompt/component.go:135-181 | Enter submits an accepted answer, or the default for an empty yes/no answer, and marks anything else invalid; typing clears the mark; a submitted prompt always holds an accepted answer |
| NumberPrompt.Digits | internal/components/number_prompt/component.go:116-121 | the result is all digits and no longer than the input |
| NumberPrompt.DigitsMembers | internal/components/number_prompt/component.go:116-121 | a character is kept exactly when it is a digit of the input |
| NumberPrompt.DigitsOfDigits | internal/components/number_prompt/component.go:122-124 | an all-digit input passes unchanged |
| NumberPrompt.DigitsAppend | internal/components/number_prompt/component.go:116-121 | filtering is piecewise, so digits keep their order |
| NumberPrompt.DigitsIdempotent | internal/components/number_prompt/component.go:116-124 | filtering twice is filtering once |
| NumberPrompt.FilterDigits | internal/components/number_prompt/component.go:116-121 | the loop computes Digits |
| NumberPrompt.Finish | internal/components/number_prompt/component.go:59-68 | exactly when submitted, the handler gets the input itself: lower-casing digits changes nothing |
| NumberPrompt.NumberPrompt.constructor | internal/components/number_prompt/component.go:41-50 | empty input, neither invalid nor submitted |
| NumberPrompt.NumberPrompt.Update | internal/components/number_prompt/component.go:108-142 | the input is cut to its digits after every message; Enter marks an empty input invalid when there is no default and submits otherwise; the input is always all digits |
| BodyMenu.ContentTypeOf | internal/menus/body_menu/menu.go:33-35 | the chosen entry, or a text that is no content type when nothing was chosen |
| BodyMenu.TextMenu | internal/menus/body_menu/menu.go:58-100 | an empty submission exits with status 1, a non-empty one is the single part, and no submission gives no part |
| BodyMenu.FormParts | internal/menus/body_menu/menu.go:113-119 | one part per pair, in order, with the form's content type |
| BodyMenu.PairsToParts | internal/menus/body_menu/menu.go:102-121 | the loop builds FormParts |
| BodyMenu.New | internal/menus/body_menu/menu.go:19-56 | no choice exits with status 1; every part printed has the chosen content type |
| BodyMenu.FormChoices | internal/menus/body_menu/menu.go:41-49 | the two form types turn every pair into a part of that type, in order |
| BodyMenu.TextChoices | internal/menus/body_menu/menu.go:41-49 | the two text types exit on an empty submission and print one part otherwise |
| BlinkCursor.BlinkCursor.constructor | internal/components/blink_cursor/component.go:19-32 | the cursor starts active and in its shown phase, rendering `|` |
| BlinkCursor.BlinkCursor.Render | internal/components/blink_cursor/component.go:34-40 | the cursor character while active and in the shown phase, a space otherwise |
| BlinkCursor.BlinkCursor.Show | internal/components/blink_cursor/component.go:42-53 | the cursor becomes active and the first tick is scheduled |
| BlinkCursor.BlinkCursor.Tick | internal/components/blink_cursor/component.go:44-51 | a visible cursor flips its blink phase and the callback returns a BlinkCursorMsg (re-arming the timer is left to the owner, which calls Show again); a hidden one stops blinking and the callback returns nothing |
| BlinkCursor.BlinkCursor.Hide | internal/components/blink_cursor/component.go:55-58 | the cursor becomes inactive and renders a space |
| BlinkCursor.TwoTicksScenario | internal/components/blink_cursor/component.go:44-51 | scenario: two ticks of an active cursor leave it rendering as before |
| TimedMessage.TimedMessage.constructor | internal/components/timed_message/component.go:19-21 | no message, hidden, zero duration |
| TimedMessage.TimedMessage.Render | internal/components/timed_message/component.go:34-47 | the message while it is shown, and nothing otherwise |
| TimedMessage.TimedMessage.Show | internal/components/timed_message/component.go:23-32 | the message is shown with its duration, and a timeout is scheduled |
| TimedMessage.TimedMessage.Expire | internal/components/timed_message/component.go:27-31 | the message is hidden; its text and duration are kept |
| Strings.TrimSpaceIgnoresPadding | internal/utils/content_type/utils.go:9 | trimming ignores surrounding whitespace |
| Strings.AtoiIntToString | internal/components/config_editor/component.go:250 | parsing a number's decimal text gives the number back |

## Left out

- Goroutines, the ticker, the mutex and the atomic counters of the benchmark are not modelled; the requests run one after another.
- Benchmark.RunBenchmark: the order of requests and ticks across threads is not modelled, so the contract states only the final, fully folded metrics.
- Benchmark.Iteration: 64-bit overflow of the counters and byte totals is not modelled.
- Benchmark.Iteration, Benchmark.Record, Benchmark.Fold and Benchmark.RunResult are defined for a non-zero duration, the divisor at internal/benchmark/module.go:89; the zero-duration panic is modelled by Benchmark.BenchmarkResult.Iterate and Benchmark.RunBenchmark, which report it.
- bubbletea's key decoding is not part of this model: a key message arrives as its type and, for a rune key, the text KeyMsg.String() gives (Tea.RunesText); Alt on a named key is not modelled, since the components dispatch named keys on their type only.
- Latencies are float64 in the source and `real` in the model, so rounding is not modelled; the `%.2f` formatting of durations is not modelled.
- Clock readings and elapsed times are parameters.
- lipgloss styling, borders and `ansi.Wrap` are not modelled, and the logo's ASCII art is a parameter; rendered text is the unstyled text, and the JSON highlighter's colours are tags on segments.
- View functions of the components are left out beyond the paging windows and the texts listed above.
- The select menu's View is left out beyond its window and the chosen item.
- The config editor's View is not modelled.
- Terminal clearing, `exec.Command`, the resty client, `net.LookupIP` and `json.Indent`/`json.Unmarshal` are parameters or oracles.
- `os.Exit` and `log.Fatal` become outcome values.
- HttpUtility: ParseMultipartFormData is not modelled, because it streams files into a multipart writer whose boundary is random.
- internal/utils/html_formatter is not part of this model.
- The text input, text area and clipboard widgets are oracles: each Update receives the widget's new text and command.
- Prompt.Prompt.Update: the widget's character limit is not enforced by the model; it belongs to the text input widget.
- Lengths are counted in characters; the source counts bytes, and the two agree only on ASCII.
- TabContent.CollectKeys: Go's map iteration order is random, so the contract promises only which keys are collected and that each appears once; the sort then fixes the order.
- ConfigEditor.Editor.SaveChanges: UpdateConfig errors are ignored by the source; the editor records the values it wrote instead of modelling the file.
- The HideLogomark toggle is never persisted, because the config file has no such entry; it reads back as false.
- KeyValueMenu.Menu.constructor: it takes the pair limit as a parameter; NewComponent never sets it, so the source always runs with limit 0.
- RequestMenu.Model.RenderPaged: requires a terminal height of at least 16; below that the source's slice bounds fail, which is not modelled.
- RequestMenu.Model.RenderResult: requires a terminal height of at least 16, for the same reason.
- IpUtility.FetchAllTypes: proved for caches whose entries were made for their own addresses, because a hit returns whatever the cache holds.
- The cached record goes through a JSON round trip in the source; that round trip is modelled as the identity.
- Request.RunRequest: the HTTP reply, the resolver and the geolocation API are oracles; the latency threshold and the elapsed time are parameters, not read from the config and the clock.
- Strings.ToLower: folds only ASCII `A`-`Z`, where Go's strings.ToLower folds all of Unicode (`É` to `é`, the Kelvin sign to `k`); SelectMenu.Matches, SelectMenu.Filter, SelectMenu.FilterMembers, Prompt.Finish and Prompt.BooleanAnswer therefore differ from the source on non-ASCII text, while HttpUtility.ParseHttpMethod and Request.HandleHttpMethod do not, since no method name holds a letter that a non-ASCII character lower-cases to.
- SelectMenu.Menu.constructor: runs the corrected default page size of 10 (see Findings); the code as written keeps the page size it was given, which SelectMenu.PerPageAsWritten models.
- HelpCommand: command discovery through cobra is a parameter, a list of commands with their flags.

## Findings

| source | as written | input that shows it | evidently intended | confidence | as-written member | corrected member |
|---|---|---|---|---|---|---|
| internal/components/select_menu/component.go:47-49 | the default page size of 10 is written to the options after the menu has already copied them, so the menu keeps page size 0 | any choices with PerPage unset: the window lists no choice at all | the menu uses page size 10 when none is given | not executed | SelectMenu.AsWrittenListsNothing | SelectMenu.CorrectedShowsCursor |
| internal/components/select_menu/component.go:168 | the confirmation line indexes the filtered list with `selected`, which is an index into the full list | choices `a`, `b`; type `b`; Enter selects index 1 while the filtered list has one element, so the index is out of range | the chosen item is read from the full list | not executed | SelectMenu.ChosenAsWrittenOutOfRange | SelectMenu.Chosen |
