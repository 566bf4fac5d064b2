# Acemcp file watcher and Context7 documentation client

This project models two parts of the MCP tool layer of the application in Dafny.

**The acemcp file-watcher registry.** `WatcherManager` keeps one debounced recursive watch per project. Projects are keyed by their canonical path with every `\` turned into `/`. Each watch is paired with a background task that re-indexes the project whenever the debouncer signals a batch of changes. A global auto-index switch, read from the stored configuration at start-up, gates new watches.

**The Context7 documentation client.** This covers:
- the HTTP request it builds (URL, bearer header, query parameters);
- the wording of its error messages by status code;
- the Markdown document it renders from a response;
- the settings commands: the connection test (its fixed request, error texts, preview and answer), and reading and saving the API key, which is trimmed and stored as none when blank.

Modules:
- **`Wrappers`**: `Option`, `Result`, `Unit`.
- **`Text`**: prefixes and suffixes, decimal rendering with its parser, Unicode white space and `trim`.
- **`Utf8`**: the byte encoding Rust strings are measured and sliced in.
- **`AcemcpWatcher`**: key normalization, the per-trigger rules, the `WatcherManager` class.
- **`Context7Types`**: the request, response and configuration records.
- **`Context7Mcp`**: the documentation tool's request, error messages and Markdown.
- **`Context7Commands`**: the settings commands and the `McpConfig` class.

The model takes the outside world as parameters:
- **Path canonicalization.** It is a `Canonicalizer` function: `None` when the path does not resolve.
- **Attaching a watch.** Success or failure is given as two optional error parameters, one for creating the debouncer and one for attaching it to the path.
- **Stored configuration.** A fresh read of the configuration at each trigger is a `Result` parameter. The configuration stored at start-up is a `Result` too.
- **HTTP.** For the connection test, each step's outcome is a field of `TestExchange`: building the client, sending, the status and error body, reading the body, decoding it.
- **Persisting the configuration file.** Its outcome is an optional error parameter.

## Model

| member | source | states |
|---|---|---|
| AcemcpWatcher.ToForwardSlashes | src/rust/mcp/tools/acemcp/watcher.rs:70-72 | every `\` becomes `/`, every other character and the length are kept, and no `\` is left |
| AcemcpWatcher.ToForwardSlashesIdempotent | src/rust/mcp/tools/acemcp/watcher.rs:70-72 | rewriting separators a second time changes nothing |
| AcemcpWatcher.WatchPath | src/rust/mcp/tools/acemcp/watcher.rs:67-69 | the watch goes on the canonical path, or on the literal input when canonicalization fails |
| AcemcpWatcher.NormalizeKey | src/rust/mcp/tools/acemcp/watcher.rs:67-72 | the key has no `\`, is a fixed point of the separator rewrite, and matches the watch path position by position except `\` to `/` |
| AcemcpWatcher.NormalizeKeyStableWhenUnresolved | src/rust/mcp/tools/acemcp/watcher.rs:155-159 | a key that does not itself resolve normalizes to itself, so stop and query calls given such a key find the entry |
| AcemcpWatcher.NormalizeKeyNotIdempotent | src/rust/mcp/tools/acemcp/watcher.rs:67-72 | normalization is not idempotent: `a\b` unresolved becomes `a/b`, which resolves to a different key |
| AcemcpWatcher.InitialAutoIndexEnabled | src/rust/mcp/tools/acemcp/watcher.rs:32-35 | the switch starts off exactly when the configuration loads and stores `false`; a load failure or a missing field leaves it on |
| AcemcpWatcher.DebounceDelay | src/rust/mcp/tools/acemcp/watcher.rs:89 | the quiet period is the caller's value, or 180000 ms (3 minutes) when none is given |
| AcemcpWatcher.RequestsIndex | src/rust/mcp/tools/acemcp/watcher.rs:94-106 | a debouncer callback asks for a re-index exactly when it gets a non-empty batch of events; errors never do |
| AcemcpWatcher.PendingAfterCallback | src/rust/mcp/tools/acemcp/watcher.rs:86-100 | a callback adds at most one pending signal, exactly when it requests an index and fewer than 100 are queued; the queue never exceeds 100 |
| AcemcpWatcher.TriggerConfig | src/rust/mcp/tools/acemcp/watcher.rs:131-137 | a trigger indexes with the freshly read configuration, falling back to the one captured at start when the read fails |
| AcemcpWatcher.ProcessSignals | src/rust/mcp/tools/acemcp/watcher.rs:126-148 | each received signal makes exactly one index call, in order, for the watched key, with that trigger's configuration. The number of calls does not depend on the calls' outcomes, so failures do not stop the loop; the failures are counted |
| AcemcpWatcher.WatcherManager.constructor | src/rust/mcp/tools/acemcp/watcher.rs:29-42 | starts with no watches and the switch from the stored configuration |
| AcemcpWatcher.WatcherManager.IsAutoIndexEnabled | src/rust/mcp/tools/acemcp/watcher.rs:45-47 | returns the current switch and changes nothing |
| AcemcpWatcher.WatcherManager.SetAutoIndexEnabled | src/rust/mcp/tools/acemcp/watcher.rs:50-53 | sets the switch and leaves the watches alone |
| AcemcpWatcher.WatcherManager.StartWatching | src/rust/mcp/tools/acemcp/watcher.rs:58-151 | when disabled or already watched: `Ok` and nothing changes. Otherwise it fails exactly when the debouncer or the attach fails, with the first error and nothing changed. On success the registry gains only the new key, with the watch path, the delay and a task for that key and configuration |
| AcemcpWatcher.WatcherManager.StopWatching | src/rust/mcp/tools/acemcp/watcher.rs:154-169 | always `Ok`; removes the normalized key when present, and nothing else |
| AcemcpWatcher.WatcherManager.StopAll | src/rust/mcp/tools/acemcp/watcher.rs:172-177 | the registry becomes empty |
| AcemcpWatcher.WatcherManager.GetWatchingProjects | src/rust/mcp/tools/acemcp/watcher.rs:180-183 | lists every watched key exactly once and nothing else. Every listed key is normalized: no `\`, a fixed point of the separator rewrite |
| AcemcpWatcher.WatcherManager.IsWatching | src/rust/mcp/tools/acemcp/watcher.rs:186-195 | true exactly when the normalized key of the argument is registered |
| AcemcpWatcher.StartTwiceWatchesOnce | src/rust/mcp/tools/acemcp/watcher.rs:74-81 | starting the same project twice succeeds both times and leaves exactly one watch, under its key |
| AcemcpWatcher.StartWhileDisabledWatchesNothing | src/rust/mcp/tools/acemcp/watcher.rs:59-63 | with the switch off, a start succeeds and registers nothing |
| Context7Types.ParamValue | src/rust/mcp/tools/context7/mcp.rs:131-139 | the value of the first parameter with that name, with no earlier parameter of that name; none exactly when no parameter has that name |
| Context7Mcp.DocsUrl | src/rust/mcp/tools/context7/mcp.rs:116 | the URL is the base URL, then `/docs/code/`, then the library id |
| Context7Mcp.DocsUrlInjective | src/rust/mcp/tools/context7/mcp.rs:116 | for one base URL, different libraries give different URLs |
| Context7Mcp.AuthHeaders | src/rust/mcp/tools/context7/mcp.rs:123-128 | at most one header; there is one exactly when an API key is configured, named `Authorization`, and its value is `Bearer ` followed by the key |
| Context7Mcp.DocsQuery | src/rust/mcp/tools/context7/mcp.rs:131-139 | at most three parameters, none exactly when the request has no topic, version or page, and always in the order topic, version, page |
| Context7Mcp.DocsQueryParams | src/rust/mcp/tools/context7/mcp.rs:131-139 | `topic`, `version` and `page` are sent exactly when present, with the request's values and the page in decimal; no other name, none twice |
| Context7Mcp.BuildDocsRequest | src/rust/mcp/tools/context7/mcp.rs:116-139 | the request has that URL, a `Bearer` header exactly when a key is configured, and those parameters in the order topic, version, page |
| Context7Mcp.FormatErrorMessage | src/rust/mcp/tools/context7/mcp.rs:167-175 | 401 and 429 give fixed texts; 404 and 5xx add the body after their prefix; any other status passes the body through |
| Context7Mcp.FormatErrorMessageUsesText | src/rust/mcp/tools/context7/mcp.rs:168-174 | the message ignores the response body exactly for 401 and 429 |
| Context7Mcp.ResponseMarkdown | src/rust/mcp/tools/context7/mcp.rs:178-224 | the reference document: the title, the metadata, the snippets or the no-documents line, the pagination block, the source line. It starts with the library heading and ends with the source footer |
| Context7Mcp.FormatResponse | src/rust/mcp/tools/context7/mcp.rs:178-224 | the document built by appending piece by piece equals the specified Markdown document |
| Context7Mcp.AppendMetadata | src/rust/mcp/tools/context7/mcp.rs:184-190 | the appended text is exactly the metadata block: the topic line when given, the version line when given, the separator |
| Context7Mcp.AppendPagination | src/rust/mcp/tools/context7/mcp.rs:208-218 | the appended text is exactly the pagination block, with nothing appended when there is no pagination |
| Context7Mcp.AppendSnippets | src/rust/mcp/tools/context7/mcp.rs:196-204 | the loop appends exactly the sections of the snippets in order |
| Context7Mcp.SnippetsMarkdownStep | src/rust/mcp/tools/context7/mcp.rs:196-204 | the sections of one more snippet are the earlier sections followed by its own, numbered by its position |
| Context7Mcp.MetadataLines | src/rust/mcp/tools/context7/mcp.rs:184-190 | the topic line comes first exactly when a topic is given, then the version line exactly when a version is given, then the separator |
| Context7Mcp.SnippetsMarkdownPrefix | src/rust/mcp/tools/context7/mcp.rs:196-204 | the sections of the first snippets are a prefix of the sections of all of them |
| Context7Mcp.SnippetsInOrder | src/rust/mcp/tools/context7/mcp.rs:196-204 | the i-th snippet's section sits right after those of the snippets before it |
| Context7Mcp.SnippetSectionShape | src/rust/mcp/tools/context7/mcp.rs:197-203 | a section is a level-2 heading with the title, or with `片段 n` numbered from 1, then the content, then a blank line |
| Context7Mcp.PaginationBlockShape | src/rust/mcp/tools/context7/mcp.rs:208-218 | the block is empty exactly without pagination; otherwise it starts with the rule and the page line, and shows the next-page hint exactly when there is a next page |
| Context7Commands.TestQuery | src/rust/mcp/tools/context7/commands.rs:76-81 | at most two parameters, none exactly when the request has no topic and no page, topic before page |
| Context7Commands.TestQueryParams | src/rust/mcp/tools/context7/commands.rs:75-81 | the test sends topic and page exactly when present, with the request's values, never a version, and no name twice |
| Context7Commands.TestConfig | src/rust/mcp/tools/context7/commands.rs:16-19 | the test runs with the stored API key, unchanged, and the fixed endpoint `https://context7.com/api/v2` |
| Context7Commands.TestTarget | src/rust/mcp/tools/context7/commands.rs:16-19 | the test's URL starts with that endpoint and `/docs/code/`, and it carries an auth header exactly when a key is stored |
| Context7Commands.TestRequestQuery | src/rust/mcp/tools/context7/commands.rs:23-28 | the connection test asks for exactly `topic=core` then `page=1` |
| Context7Commands.BuildTestRequest | src/rust/mcp/tools/context7/commands.rs:65-81 | same URL and header rule as the documentation tool, with the test's parameters |
| Context7Commands.FormatTestError | src/rust/mcp/tools/context7/commands.rs:118-126 | 401, 404 and 429 give fixed texts, and 5xx adds the body. Any other status gives exactly `请求失败 (状态码: `, the status in decimal, `): `, then the body. The decimal reads back as that status |
| Context7Commands.IsSuccess | src/rust/mcp/tools/context7/commands.rs:90 | true exactly for a status from 200 to 299; a success is never one of the statuses the test's error messages word specially |
| Context7Commands.ServerErrorsWordedAlike | src/rust/mcp/tools/context7/commands.rs:123 | the test and the documentation tool word every 5xx message identically |
| Context7Commands.Preview | src/rust/mcp/tools/context7/commands.rs:103-112 | as written, in bytes: content of at most 200 bytes is kept whole; longer content becomes its first 200 bytes plus `...`; without snippets, a fixed message |
| Context7Commands.PreviewIsCharPrefix | src/rust/mcp/tools/context7/commands.rs:105-106 | when the byte cut is on a character boundary, the preview is a proper character prefix of the content followed by `...` |
| Context7Commands.PreviewCutCanSplitChar | src/rust/mcp/tools/context7/commands.rs:105-106 | 199 ASCII characters and then `文` make a content whose byte 200 is inside a character |
| Context7Commands.CorrectedPreview | src/rust/mcp/tools/context7/commands.rs:102-112 | defined for every response. Content of more than 200 characters becomes its first 200 characters plus `...`, 203 characters in all; shorter content is kept whole; without snippets, the fixed message |
| Context7Commands.CorrectedPreviewAgreesOnAscii | src/rust/mcp/tools/context7/commands.rs:103-112 | on ASCII content the byte cut is safe and the corrected preview encodes to exactly the bytes of the code's preview |
| Context7Commands.TestQueryResult | src/rust/mcp/tools/context7/commands.rs:59-114 | as written. The first failing step decides the error: client build, send, a non-2xx status (with the test's error text and a fixed text for an unreadable body), reading the body, parsing. It is `Ok` exactly when every step succeeds, and then holds the bytes of the code's preview |
| Context7Commands.CorrectedTestQueryResult | src/rust/mcp/tools/context7/commands.rs:59-114 | defined for every exchange; identical to the as-written result wherever the preview is not reached, and the corrected preview's bytes where it is |
| Context7Commands.CorrectedTestQueryAgreesOnAscii | src/rust/mcp/tools/context7/commands.rs:103-112 | when the first snippet is ASCII the code does not panic, and the corrected test query answers exactly as the code does |
| Context7Commands.ConnectionResponse | src/rust/mcp/tools/context7/commands.rs:31-46 | success, with the preview's bytes, exactly when the query succeeded; otherwise the failure prefix and the reason |
| Context7Commands.NormalizeApiKey | src/rust/mcp/tools/context7/commands.rs:162-166 | nothing is stored exactly when the entry is all white space; otherwise the trimmed entry, non-empty and with no white space at either end |
| Context7Commands.NormalizeApiKeyStable | src/rust/mcp/tools/context7/commands.rs:162-166 | saving a stored key again stores the same key |
| Context7Commands.McpConfig.GetContext7ApiKey | src/rust/mcp/tools/context7/commands.rs:130-140 | returns the stored key unchanged |
| Context7Commands.McpConfig.SaveContext7Config | src/rust/mcp/tools/context7/commands.rs:150-174 | the stored key becomes the normalized entry; the result is `Ok` unless persisting fails, whose error is reported with its prefix, the key staying updated |
| Text.NatToString | src/rust/mcp/tools/context7/mcp.rs:138 | decimal rendering: non-empty, digits only, no leading zero except for 0 |
| Text.ParseNatToString | src/rust/mcp/tools/context7/mcp.rs:138 | parsing the decimal rendering of a number gives the number back |
| Text.NatToStringInjective | src/rust/mcp/tools/context7/mcp.rs:215 | distinct page numbers render differently |
| Text.Trim | src/rust/mcp/tools/context7/commands.rs:162 | `str::trim`: the result is a contiguous part of the input, removing only Unicode white space. Its ends are not white space, and it is empty exactly when the input is all white space |
| Text.TrimIdempotent | src/rust/mcp/tools/context7/commands.rs:165 | trimming a trimmed string changes nothing |
| Utf8.Encode | src/rust/mcp/tools/context7/commands.rs:105 | `str::len` counts the 1 to 4 bytes of each character |
| Utf8.BoundaryIsCharPrefix | src/rust/mcp/tools/context7/commands.rs:106 | a byte slice ending on a character boundary is the encoding of a character prefix |
| Utf8.AsciiEncoding | src/rust/mcp/tools/context7/commands.rs:105 | an ASCII string has one byte per character |

## Findings

| source | as written | input that shows it | evidently intended | confidence | as-written member | corrected member |
|---|---|---|---|---|---|---|
| src/rust/mcp/tools/context7/commands.rs:105-106 | the preview measures the content in bytes and slices `&content[..200]` | a first snippet of 199 ASCII characters followed by `文` (202 bytes): byte 200 is inside `文`, so the slice panics | the first 200 characters, as the comment on line 102 says | high that the slice panics on that input; medium on whether characters or the nearest boundary were meant; not executed | Context7Commands.PreviewCutCanSplitChar | Context7Commands.CorrectedPreview |

`Context7Commands.Preview` models the code as written. It requires the cut to be on a boundary, which is the panic path's precondition. `Context7Commands.TestQueryResult` models `execute_test_query` as written, with the byte-cut preview. `Context7Commands.CorrectedTestQueryResult` is the same query with `Context7Commands.CorrectedPreview`. The two differ on content that is longer than 200 bytes and not ASCII. For example, 101 × `é` is 202 bytes, and byte 200 is a boundary. The code returns 200 bytes and `...`; the corrected preview keeps all 101 characters. `Context7Commands.CorrectedPreviewAgreesOnAscii` and `Context7Commands.CorrectedTestQueryAgreesOnAscii` show that the two agree whenever the content is ASCII.

## Left out

- The notify debouncer and file-ID cache: timers, event coalescing and the OS watch are not modelled. A callback is modelled by the `DebounceEventResult` it receives.
- `Path::canonicalize` is an oracle parameter. `to_string_lossy` is not modelled: paths are strings, so non-UTF-8 paths are not modelled.
- AcemcpWatcher.WatcherManager.StartWatching: the membership check and the insert take the lock separately in the source, so two concurrent starts can both pass the check. The model treats one call as atomic and does not capture that interleaving.
- AcemcpWatcher.ProcessSignals: models the task's loop as a sequence of signals. Dropping the sender ends it. Concurrency with the debouncer, and the wait on `recv`, are not modelled.
- `update_index` and `get_acemcp_config` are external calls. Their results appear only as the calls made and the configuration reads given. The acemcp configuration is an opaque type parameter.
- The global `Lazy` instance, `get_watcher_manager`, logging, and mutex poisoning (`lock().unwrap()` panics) are not modelled.
- `query_docs`, `get_tool_definition` and `get_config` (wrapping into an MCP `CallToolResult`, the JSON tool schema, reading the configuration file) are not modelled.
- The HTTP client itself (its 30-second timeout, the transport, JSON decoding) is not modelled. For the connection test, the outcome of each step (client build, send, status and error body, body read, decoding) is a field of `Context7Commands.TestExchange`. For `fetch_docs`, send, read and decode failures are not modelled at all.
- In `fetch_docs`, the outer error text wraps the status with reqwest's `StatusCode` display, including its reason phrase. Only `format_error_message` is modelled, not that wrapper.
- Context7Mcp.PaginationBlockShape: the page numbers are unbounded naturals. The `+ 1` on `current_page` is not bounded by the field's integer width (its type is declared in a types file that is not part of this model).
- Context7Commands.Preview: requires the byte cut to land on a character boundary. The panic on other inputs is shown by `Context7Commands.PreviewCutCanSplitChar`, not modelled as an outcome.
- Context7Commands.TestQueryResult: excludes, by its precondition, a 2xx answer whose preview cut splits a character, where the code panics.
- The Tauri state lock in `test_context7_connection`, `get_context7_config` and `save_context7_config` is not modelled. Its "获取配置失败" failure needs a poisoned mutex.
- Normalizing the same project's two spellings gives one key only when canonicalization resolves both to the same path, or when they differ only in separators. The code guarantees nothing more, and `AcemcpWatcher.NormalizeKeyNotIdempotent` shows that normalization is not idempotent. The model follows the code.
- `StopWatching` returns `Ok` whether or not a watch was removed. That is the code's behaviour; `IsWatching` tells the two cases apart.
