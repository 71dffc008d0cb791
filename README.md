# wahlu CLI core, modelled in Dafny

The wahlu CLI is a thin command-line client over the Wahlu REST API. This
project models the parts of it that decide anything:

- **The output renderer** (`output.dfy`). `output()` prints indented JSON in
  JSON mode, a column-aligned table for an array with columns, key/value
  lines for a single object, and indented JSON otherwise. The model covers
  `formatCell`, `truncate`, the capped column widths, the separator rule and
  the padding. It is a method returning the lines passed to `console.log`,
  proved equal to a reference function, with lemmas about the width and
  shape of every line.
- **The HTTP client** (`client.dfy`). `WahluClient` is a class whose
  constructor trims one trailing slash from the base URL. Each request is
  returned as data: verb, URL, headers and body. Headers are built step by
  step. `list()` adds the `page`/`limit` query string. A non-2xx response
  becomes one error carrying the status, with the message taken from the
  parsed body, the raw text, or the status line.
- **Configuration** (`config.dfy`, `resolve_brand.dfy`, `session.dfy`).
  - The config file is a `ConfigStore` object: missing, unreadable, or holding
    a record of three optional strings. It is read and rewritten wholesale.
  - The API key, API URL and default brand each take the first non-empty of
    environment, saved value and default.
  - `resolveBrandId` puts the `--brand` flag in front of that order.
  - A brand-scoped command resolves the brand first, then the API key.
- **Commands** (`auth.dfy`, `brand.dfy`, `media.dfy`, `post.dfy`,
  `label.dfy`, `idea.dfy`):
  - read-modify-write updates of one config field (login, logout, brand switch);
  - the key prefix check and the key mask;
  - `auth status`;
  - the sparse request bodies of post, label and idea creation (a key exists
    exactly when its flag was given);
  - the upload's extension and MIME check, its three requests in order, and
    where each can abort;
  - the resource paths and the pagination hint.

Supporting modules:

- `wrappers.dfy`: `Option`, `Result`, `Outcome`.
- `failures.dfy`: every way an invocation ends with exit status 1.
- `js.dfy`: JavaScript values, truthiness, `String()`, plain objects as
  ordered key/value lists, and the string methods the source calls.

Things outside the program are parameters:

- the environment variables;
- the config file's state;
- the `--json` flag and the other flags;
- `JSON.parse`, as a partial function `string -> Option<Value>`;
- `JSON.stringify`, as an opaque pair of functions;
- the HTTP responses and the presigned PUT's status;
- the file size `statSync` reports.

Two behaviours of the code are worth stating plainly. The model follows the
code in both:

- `auth login` (src/commands/auth.ts:52-54) reads the config file and writes
  it back with the new key. `readConfig` (src/lib/config.ts:20-27) returns
  the empty record for a file it cannot parse, so in that case the saved URL
  and brand are lost. `Auth.Login` states this.
- `brand switch` (src/commands/brand.ts:112-117) saves any argument
  unchecked, the empty string included. Its help text
  (src/commands/brand.ts:104-105) says that later commands use the saved ID.
  A saved empty ID is falsy, though, so those commands fail with the
  missing-brand error instead.

## Model

| member | source | states |
|---|---|---|
| Output.FormatCell | src/lib/output.ts:81-89 | a transform always wins; otherwise null/undefined show as "-", arrays and objects as inline JSON, strings as themselves, numbers and booleans as their String() form |
| Output.Truncate | src/lib/output.ts:91-94 | a string that fits is unchanged; a longer one with max >= 1 becomes exactly max characters: its first max-1 characters then the ellipsis |
| Output.Cell | src/lib/output.ts:73-74 | for a width of at least 1, truncate-then-pad gives a cell exactly the column width, starting with the whole text when it fits |
| Output.LongestCell | src/lib/output.ts:55-58 | the reduce bounds every formatted cell of the column and is reached by one of them (or is 0) |
| Output.ColumnWidthRules | src/lib/output.ts:53-60 | a truthy fixed width is used as given; a computed width is at most 50 and fits the header and every cell up to 50; below 50 it equals the header's or some cell's length, and it is 50 only when the header or some cell is at least 50 long, so it is min(max(header, longest cell), 50) |
| Output.Widths | src/lib/output.ts:53-60 | one width per column, each by the rule above |
| Output.PrintTable | src/lib/output.ts:46-79 | the lines printed are "No results." for no rows, else header, rule and one line per row in order |
| Output.EmptyTable | src/lib/output.ts:47-50 | a table with no rows is the single line "No results.", with no header |
| Output.CellsFillColumns | src/lib/output.ts:71-75 | every data cell of every row is exactly as wide as its column |
| Output.HeaderNeverTruncated | src/lib/output.ts:63-65 | a header cell keeps the whole header and is as long as the wider of header and width, so a long header overflows a fixed width |
| Output.RowLineLength | src/lib/output.ts:71-76 | a row whose cells fill their columns, joined by two spaces, is as long as the rule |
| Output.RowsAsWideAsRule | src/lib/output.ts:63-78 | a table with rows prints rows + 2 lines, and every row line is exactly as long as the separator rule, for any column list, the empty one included |
| Output.DisplayIsUntransformedCell | src/lib/output.ts:25-30 | a value in the key/value layout is shown as formatCell shows it without a transform |
| Output.LongestKey | src/lib/output.ts:23 | the maximum of the key lengths bounds every key |
| Output.LongestKeyReached | src/lib/output.ts:23 | for at least one key, the maximum is that key's length |
| Output.KeyValueLinesWith | src/lib/output.ts:24-32 | the loop prints one line per entry |
| Output.KeyValueLinesWithAt | src/lib/output.ts:24-32 | line i is entry i's key, padded, followed by its value |
| Output.PrintRecord | src/lib/output.ts:21-33 | the loop over Object.entries prints exactly the key/value layout |
| Output.Render | src/lib/output.ts:6-37 | output() prints JSON in JSON mode, else a table for an array with columns, else key/value lines for an object, else indented JSON |
| Output.JsonModeIgnoresColumns | src/lib/output.ts:10-13 | in JSON mode the output is the indented serialisation alone, whatever the columns are |
| Output.ArrayWithoutColumns | src/lib/output.ts:15-36 | an array without columns falls through to indented JSON |
| Output.SingleObjectLayout | src/lib/output.ts:20-34 | an object without JSON mode is laid out as key/value lines, whether or not columns are given |
| Output.KeyValueLineParts | src/lib/output.ts:31 | the first keyWidth characters of a line are the padded key and the rest is the value |
| Output.KeyValueAligned | src/lib/output.ts:23-32 | a single object prints one line per key, in order; line i is key i padded to two past the longest key, which it always fits, then value i |
| Js.PadEnd | src/lib/output.ts:31 | padEnd never shortens, keeps the string as a prefix and fills with spaces up to the width |
| Js.Assign | src/commands/label.ts:83 | assigning a key makes it present with the new value, leaves every other key's value alone and keeps keys unique |
| Js.LowerAscii | src/commands/media.ts:70 | lowering keeps the length and lowers each character |
| Js.Truthy | src/commands/media.ts:49 | the falsy values are undefined, null, false, 0 and the empty string, and no other |
| Js.JsString | src/lib/output.ts:88 | a string converts to itself, every other non-array value to a non-empty string, and the empty array to the empty string |
| Client.TrimTrailingSlash | src/lib/client.ts:20 | at most one trailing "/" is removed, and one is removed exactly when the URL ends in "/" |
| Client.ErrorMessage | src/lib/client.ts:44-53 | a JSON body other than null gives the first truthy of error.message and message in its String() form, else "HTTP status", so a body that is not an object always gives "HTTP status"; unparseable text and null give the text, and an empty body gives "HTTP status statusText" |
| Client.NestedErrorMessage | src/lib/client.ts:49 | a body {"error": {"message": x}} gives the message x |
| Client.EmptyBodyMessage | src/lib/client.ts:51 | an empty body gives "HTTP status statusText" |
| Client.Settle | src/lib/client.ts:44-56 | a non-2xx response is always one ApiError carrying the response status; a 2xx response yields its parsed body |
| Client.EncodedQuery | src/lib/client.ts:68-75 | the URLSearchParams built from page then limit give no "?" for neither, only the one given, or page=..&limit=.. for both |
| Client.WahluClient.constructor | src/lib/client.ts:18-21 | the key is kept and the base URL is trimmed of one trailing slash |
| Client.WahluClient.Request | src/lib/client.ts:23-42 | the URL is base URL + "/v1" + path; Authorization and User-Agent always, Content-Type exactly when a body is sent (an empty body too), nothing else |
| Client.WahluClient.Get | src/lib/client.ts:59-61 | a GET that sends no body |
| Client.WahluClient.List | src/lib/client.ts:63-76 | a GET without body whose URL ends in the query string of page and limit |
| Client.WahluClient.Post | src/lib/client.ts:78-83 | a POST that always sends its body |
| Client.WahluClient.Patch | src/lib/client.ts:85-90 | a PATCH that always sends its body |
| Client.WahluClient.Delete | src/lib/client.ts:92-94 | a DELETE that sends no body |
| Config.ConfigStore.constructor | src/lib/config.ts:12 | the store holds the given file state |
| Config.ConfigStore.Read | src/lib/config.ts:20-27 | the saved record, or the empty record when the file is missing or unparseable |
| Config.ConfigStore.Write | src/lib/config.ts:29-32 | the file holds exactly the record written |
| Config.WriteThenRead | src/lib/config.ts:20-32 | reading after writing gives back exactly the record written |
| Config.GetApiKey | src/lib/config.ts:34-45 | a non-empty environment key wins, then a non-empty saved key; with neither it fails with MissingApiKey; a returned key is never empty |
| Config.GetApiUrl | src/lib/config.ts:47-51 | environment, else saved api_url, else the production URL; empty strings skipped, so never empty |
| Config.GetDefaultBrandId | src/lib/config.ts:53-55 | the environment value when non-empty, else the saved default, which may be absent |
| ResolveBrand.ResolveBrandId | src/lib/resolve-brand.ts:8-19 | a non-empty flag beats the environment, which beats the saved default; with none it fails with MissingBrand; a returned id is never empty |
| ResolveBrand.EmptyFlagFallsThrough | src/lib/resolve-brand.ts:10 | an empty --brand flag resolves as no flag at all |
| Session.OpenClient | src/commands/brand.ts:63 | the client fails exactly when getApiKey does, and otherwise holds the resolved key and the trimmed API URL |
| Session.OpenScope | src/commands/label.ts:46-47 | the brand is resolved before the key, so a missing brand is reported even when the key is missing too |
| Auth.Login | src/commands/auth.ts:41-56 | a key without the wahlu_live_ or wahlu_test_ prefix is refused and nothing is written; otherwise api_key is set and the other saved fields are kept |
| Auth.Logout | src/commands/auth.ts:67-72 | api_key is removed and the other saved fields are kept |
| Auth.LogoutTwice | src/commands/auth.ts:67-72 | logging out twice leaves the file as logging out once |
| Auth.Mask | src/commands/auth.ts:111-114 | "***" for keys of 16 or fewer characters; otherwise the first 12, "..." and the last 4, 19 characters in all |
| Auth.MaskHidesMiddle | src/commands/auth.ts:111-114 | all keys of 16 or fewer characters get the same mask; two longer keys with the same first 12 and last 4 characters get the same mask, whatever lies between |
| Auth.SourceLine | src/commands/auth.ts:91-101 | an environment key is named as "WAHLU_API_KEY env var" and a saved key as "config file"; the line ends in ")" exactly for an authenticated source, and then ends with the masked key in parentheses |
| Auth.StatusSource | src/commands/auth.ts:87-101 | status names the environment key exactly when it is set, names the same key getApiKey uses, and says unauthenticated exactly when getApiKey fails |
| Auth.StatusLines | src/commands/auth.ts:87-109 | the source line first, then the API URL and default brand lines only for fields that are set |
| Auth.StatusPrefersEnv | src/commands/auth.ts:91-94 | a set environment key is reported the same whatever the file holds |
| Brand.Switch | src/commands/brand.ts:112-117 | default_brand_id becomes the argument, unchecked and without a request; the other fields are kept |
| Brand.SwitchTwice | src/commands/brand.ts:113-115 | switching twice to the same brand gives the file switching once does |
| Brand.ListBrands | src/commands/brand.ts:62-64 | a body-less GET of /brands, needing only the API key |
| Brand.GetBrand | src/commands/brand.ts:91-93 | a body-less GET of /brands/<id>, needing only the API key |
| Media.LastIndexOf | src/commands/media.ts:70 | -1 exactly when the character is absent, otherwise its last position |
| Media.ExtensionShape | src/commands/media.ts:70 | the extension starts at the last dot and holds no other dot; without a dot it is the whole path, lowered |
| Media.AcceptedExtensions | src/commands/media.ts:9-18 | among the map's own entries, a type is found for the eight listed extensions and no other string, and .jpg and .jpeg both give image/jpeg |
| Media.ExtensionOf | src/commands/media.ts:70 | the extension is a lowered suffix of the path, the whole path when it has no dot |
| Media.ContentTypeShape | src/commands/media.ts:71 | a path without a dot gets no type, and a type found is one of the seven listed MIME types |
| Media.Basename | src/commands/media.ts:69 | the file name is the part of the path right after its last "/": a suffix holding no "/", preceded by a "/" when shorter than the path, and the whole path when there is none |
| Media.ContentTypeIgnoresCase | src/commands/media.ts:70-71 | a path and its lower-cased form get the same extension and the same MIME type |
| Media.SizeCell | src/commands/media.ts:48-51 | a falsy size shows "-", a number below 1024 shows "<n>B", and true shows "trueB" |
| Media.UploadJson | src/commands/media.ts:109-110 | the JSON report has exactly the keys id, filename and status, with status "processing" |
| Media.Transfer | src/commands/media.ts:79-107 | the upload-url POST with filename, content type and size, then the PUT, then the PATCH to status "available"; a failed slot request or a non-2xx PUT stops the sequence there |
| Media.Upload | src/commands/media.ts:65-107 | brand and key first; an unsupported extension fails before the file is looked at and before any request; otherwise, with a known size, the stat and the upload-url POST always happen, the PUT exactly when the slot request succeeds, the PATCH exactly when the PUT is 2xx, and a successful PATCH makes the upload succeed |
| Media.ListMedia | src/commands/media.ts:29-36 | a GET of the brand's media with page and limit passed through unchanged |
| Media.DeleteMedia | src/commands/media.ts:121-124 | a DELETE of /brands/<b>/media/<id> |
| Post.AssignSettings | src/commands/post.ts:204-208 | one platform step fails exactly when its flag is given and not JSON, and otherwise appends the parsed settings under the platform's key when the flag is given |
| Post.BaseBody | src/commands/post.ts:201-203 | name then label_ids, each only when its flag is given, and no other key |
| Post.BuildBody | src/commands/post.ts:201-208 | the body built by successive assignments is the reference body |
| Post.SettingsKeyFacts | src/commands/post.ts:204-208 | each platform has its own settings key, distinct from name and label_ids |
| Post.PlatformsRanked | src/commands/post.ts:204-208 | the five platforms are assigned in a fixed order, each once |
| Post.StageShape | src/commands/post.ts:201-208 | after any prefix of the platforms, the body has exactly the keys of the given flags, each once, holding the flags' values |
| Post.SparseBodyShape | src/commands/post.ts:201-208 | a built body has exactly one key per truthy flag and no other key, and holds each flag's value |
| Post.SparseBodyName | src/commands/post.ts:202 | name is in the body iff --name is truthy, and then holds it |
| Post.SparseBodyLabels | src/commands/post.ts:203 | label_ids is in the body iff --labels is given, and then holds the list |
| Post.SparseBodySettings | src/commands/post.ts:204-208 | a platform's settings key is in the body iff its flag is truthy, and then holds the parsed JSON |
| Post.StageFailure | src/commands/post.ts:204-208 | building fails iff some given flag is not JSON, and the error names the first such flag |
| Post.SparseBodyFailure | src/commands/post.ts:204-210 | the body fails iff some truthy platform flag is not JSON, and the error names the first such platform in the source's order |
| Post.NameOnlyBody | src/commands/post.ts:243-250 | an update with only --name sends {name} and nothing else |
| Post.EmptyNameOmitted | src/commands/post.ts:202 | an empty --name is falsy, so the body has no name |
| Post.CreatePost | src/commands/post.ts:198-211 | brand and key first; malformed platform JSON fails before any request; otherwise a POST of the sparse body to /brands/<b>/content-items |
| Post.UpdatePost | src/commands/post.ts:240-256 | the same body rule as create, PATCHed to /brands/<b>/content-items/<id> |
| Post.DeletePost | src/commands/post.ts:271-274 | a DELETE of /brands/<b>/content-items/<id> |
| Post.GetPost | src/commands/post.ts:112-117 | a GET of /brands/<b>/content-items/<id> |
| Post.ListPosts | src/commands/post.ts:69-76 | a GET of the brand's content items with page and limit passed through unchanged |
| Post.MoreResultsHint | src/commands/post.ts:91-95 | the hint is printed exactly outside JSON mode when pagination.has_more is truthy |
| Post.HintNamesNextPage | src/commands/post.ts:91-95 | when has_more is truthy and the page is the number n, the hint names page n and points to page n + 1 |
| Post.NextPage | src/commands/post.ts:93 | page + 1 adds for a number, appends "1" to the string form of a string, array or object, gives "1" or "2" for null and booleans, and "NaN" for undefined |
| Label.CreateLabel | src/commands/label.ts:79-87 | a POST to /brands/<b>/labels whose body always has name, has color iff --color is truthy, and no other key |
| Label.ListLabels | src/commands/label.ts:45-48 | a plain GET of /brands/<b>/labels with no query string |
| Label.DeleteLabel | src/commands/label.ts:102-106 | a DELETE of /brands/<b>/labels/<id> |
| Idea.CreateIdea | src/commands/idea.ts:53-61 | a POST to /brands/<b>/ideas whose body always has name, has description and type iff their flags are truthy, and no other key |
| Idea.ListIdeas | src/commands/idea.ts:27-34 | a GET of the brand's ideas with page and limit passed through unchanged |
| Idea.DeleteIdea | src/commands/idea.ts:68-72 | a DELETE of /brands/<b>/ideas/<id> |

## Left out

- The network: `fetch` and the transport. A request is returned as data, and a response (status, status text, body text) and the PUT's status are parameters.
- The file system (`existsSync`, `mkdirSync`, `readFileSync`, `writeFileSync`, `statSync`) and `homedir`.
  - The config file is a `ConfigStore` holding one of three states.
  - The file size is a parameter.
  - Reading the file's bytes for the PUT is folded into the PUT step.
- Commander parsing, `optsWithGlobals`, help texts and `process.exit`. Exiting is a `Failure` result.
- The console messages that only report success ("API key saved…", "Label … deleted.", the upload's two success lines). The upload's JSON report is modelled.
- The top-level error handler in src/index.ts, which dispatches on Commander's internal error codes.
- src/commands/schedule.ts, queue.ts, publication.ts and integration.ts: each issues one request with a fixed path or body and a constant column list.
- tsup.config.ts: build configuration.
- Date transforms (`toLocaleDateString`) in the list tables: they depend on locale and time zone.
- Media.SizeCell: the KB and MB forms use `toFixed` floating-point rounding and are not modelled. The function returns None there. It also returns None for truthy strings, arrays and objects: the source's `<` converts them to numbers (so "12" shows "12B"), and JavaScript's string-to-number conversion is not modelled.
- Media.ContentType: the source looks the extension up in a plain object, which also finds properties inherited from `Object.prototype`. After lowering, only the paths "constructor" and "__proto__" (any letter case, no dot) reach one. The source then accepts them and sends a non-string content type. The model finds no type for them and fails with the unsupported-type error.
- Output.CellText: a row that is null or undefined makes the source's property access throw a TypeError, and the command ends with that error. The model reads undefined from it and shows "-". A property of a non-object row, such as a string's length, is also read as undefined.
- The byte layout of `JSON.stringify`: both forms are opaque functions.
- String lengths are sequence lengths. UTF-16 code units of "─", "…" and "—" are not modelled.
- Numbers are integers. NaN from an unparseable `--page` or `--limit`, and fractional numbers, are not modelled.
- Object key order is taken as given. JavaScript's reordering of integer-like keys is not modelled.
- `toLowerCase` lowers ASCII letters only.
- Media.Basename: `path.basename` is taken as the text after the last "/". A trailing slash and Windows separators are not modelled.
- Output.Truncate: with max = 0 the model follows `slice(0, -1)`. A computed width of 0 only arises when every cell is empty, so this branch cannot be reached from a table.
- Output.ColumnWidthRules: fixed widths are natural numbers. A negative fixed width is not modelled.
- Config.ConfigStore.Read: the file is taken to hold an object whose api_key, api_url and default_brand_id are strings when present. The source returns whatever `JSON.parse` gives, unchecked. A file that parses to null makes reading api_key or api_url throw a TypeError, so login, logout, switch and every command without WAHLU_API_URL crash. A file that parses to an array makes login save the array and lose the key. A non-string field is used as it is (`{"api_key": 5}` sends "Bearer 5"). Extra keys survive login, logout and switch. None of these is modelled: `Config` has exactly the three optional string fields.
- JSON.parse throwing on a platform flag is modelled as the failure `InvalidJson(flag)`. The exception's message text is not modelled.
