# adala_mcp: search projection and download target, modelled in Dafny

The server exposes two tools over the Model Context Protocol. Both work against
the Moroccan legal-document portal `https://adala.justice.gov.ma`:

- `search_adala` runs a keyword search. It reads the decoded JSON reply as
  `pageProps.searchResult.data`, keeps the first `limit` hits with Python's
  `[:limit]` and maps each hit to a six-field record (title, type, law_type,
  date, relative_path, download_url). It answers with the JSON list, or with
  "No results found for that keyword." when the list is empty.
- `download_document` builds the file URL `<origin>/api/<relative_path>`. It
  picks a save name: the caller's, or else the last segment of the path. It
  appends `.pdf` unless the name already ends with it in any letter case. It
  saves the file under `downloads/`.

This model covers the deterministic logic between the network and filesystem
calls:

- `config.dfy` (`Config`): the origin and the downloads directory.
- `json_value.dfy` (`JsonValue`): decoded JSON values and the Python operations
  the server applies to them. These are `dict.get`, which raises on a non-dict,
  truthiness and `str()`. Raised exceptions are tagged `Fault`s inside a `Result`.
- `search.dfy` (`Search`): the specification functions (`Navigate`, `Take`,
  `Items`, `Project`, `ProjectAll`, `SearchReply`), the loop method
  `SearchAdala` proved equal to them, and lemmas about record count, order,
  field origin, the download link and the no-results reply.
- `download.dfy` (`Download`): `os.path.basename`, the case-insensitive suffix
  rule, POSIX `os.path.join`, and the method `DownloadDocument`. That method
  reassigns the save name step by step, as the source does.

The outcome of each HTTP exchange is a parameter. For a search it is `Fetch`:
a decoded body, or a failure. For a download it is a boolean saying whether the
transfer completed. `json.dumps` is symbolic: the reply `Serialized(records)`
stands for the serialised list.

Behaviour of the code that the model makes explicit:

- With a negative limit, `[:limit]` keeps all but the last `-limit` items
  (`Search.NegativeLimitDropsTail`). A limit of 0 keeps none
  (`Search.ZeroLimitMeansNoResults`). An empty or missing `data` list gives
  the no-results message for any limit (`Search.MissingKeysMeanNoResults`).
- `os.path.join` returns an absolute caller name unchanged, so that file is not
  placed under `downloads/` (`Download.CallerNameUsed`). Names derived from the
  path never contain `/` and always land in `downloads/`
  (`Download.DerivedNameStaysInDownloads`).
- Calling `.get` on a value that is not a dict raises, and the reply is then the
  error text. This happens with `fileMeta: null`, and with a string in place of
  the result list once it is sliced (`Search.ProjectFields`,
  `Search.StringDataRaises`).
- The tools' defaults are kept: `limit` is 5 and `save_filename` is None
  (`Search.SearchAdala`, `Download.DownloadDocument`).

## Model

| member | source | states |
|---|---|---|
| `JsonValue.Get` | server.py:48-60 | `.get(key, default)` gives the value under `key`, or `default` when it is absent, and raises on a non-dict; its uses are stated by `Search.ProjectFields` and `Search.MissingKeysMeanNoResults` |
| `JsonValue.Lookup` | server.py:48-60 | `d.get(key, default)` on a dict: the value under `key` when present, `default` otherwise; its uses are stated by `Search.ProjectFields`, `Search.NavigateFollowsKeys` and `Search.MissingKeysMeanNoResults` |
| `JsonValue.Truthy` | server.py:54 | Python truthiness of a decoded value; its effect on the link is stated by `Search.DownloadUrlOfPath` |
| `JsonValue.Digits` | server.py:54 | the decimal digits `str()` writes for a natural number: non-empty and all in `0`-`9`; that they denote the number without leading zeros is stated by `JsonValue.DigitsDenote` |
| `JsonValue.DigitsDenote` | server.py:54 | the digits `str()` writes for a natural number denote that number, without leading zeros |
| `JsonValue.IntStrIsDecimal` | server.py:54 | `str()` of an integer is its decimal numeral: a leading minus sign when negative, "0" for zero, and no leading zero otherwise |
| `Search.Navigate` | server.py:48 | walks `pageProps.searchResult.data`, with defaults for absent keys; stated by `Search.NavigateFollowsKeys` and `Search.MissingKeysMeanNoResults` |
| `Search.NavigateFollowsKeys` | server.py:48 | navigation raises iff the body, or a present `pageProps` or `searchResult`, is not a dict; otherwise it yields `data` when all three keys are present and the empty list as soon as one is absent |
| `Search.Items` | server.py:51 | slices a list or string with `[:limit]` and iterates it; stated by `Search.Take`, `Search.ZeroLimitMeansNoResults` and `Search.StringDataRaises` |
| `Search.DownloadUrl` | server.py:53-54 | the record's link; stated by `Search.DownloadUrlOfPath` |
| `Search.Project` | server.py:53-63 | one item to one record; stated by `Search.ProjectFields` |
| `Search.ProjectAll` | server.py:50-64 | the appending loop as a function; stated by `Search.ProjectAllSucceeds`, `Search.ProjectAllFirstFault` and `Search.ProjectAllAppend` |
| `Search.Respond` | server.py:66-69 | an empty record list answers with the no-results message, any other list is serialised; stated by `Search.ReplyShape` and `Search.SearchOfList` |
| `Search.Records` | server.py:48-64 | the body of the `try` once the reply is decoded: navigation, slicing and the projection loop, the first raised fault winning; stated by `Search.ReplyShape`, `Search.SearchOfList` and `Search.ZeroLimitMeansNoResults` |
| `Search.SearchReply` | server.py:48-72 | the tool's reply as a function of the fetch outcome and the limit; stated by `Search.SearchOfList`, `Search.ReplyShape` and `Search.SearchAdala` |
| `Search.Take` | server.py:51 | Python `s[:limit]` is a prefix of `s` of length `min(limit, n)` for `limit >= 0` and `max(n + limit, 0)` for `limit < 0` |
| `Search.NegativeLimitDropsTail` | server.py:51 | a negative limit keeps the list minus its last `-limit` items: kept part plus dropped tail is the whole list |
| `Search.ZeroLimitMeansNoResults` | server.py:51-67 | with limit 0 the reply is the no-results message unless navigation or slicing raised |
| `Search.StringDataRaises` | server.py:51-53 | a string in place of `data` is iterated by character, so a non-empty slice ends in an AttributeError reply |
| `Search.ProjectAllAppend` | server.py:50-64 | projecting a concatenation is projecting both parts and concatenating; the first fault wins |
| `Search.ProjectAllStep` | server.py:51-64 | one loop turn: a raising item aborts the whole projection with its fault, otherwise its record is appended to the records built so far |
| `Search.ProjectAllSucceeds` | server.py:50-64 | the loop succeeds iff every kept item projects; it then yields exactly one record per item, record k from item k, in upstream order |
| `Search.ProjectAllFirstFault` | server.py:50-64 | when the loop aborts, its fault is that of the first item that raises, and all items before it projected |
| `JsonValue.Str` | server.py:54 | `str()` of a string is the string itself; every scalar renders, arrays and objects do not |
| `Search.DownloadUrlOfPath` | server.py:53-54 | the link is "N/A" iff the path is falsy (absent, null, empty); for a non-empty string path it is `BASE_URL + "/" + path`; only a truthy array or object path fails |
| `Search.ProjectFields` | server.py:53-63 | an item projects iff it is an object whose present `fileMeta` and `fileMeta.LawType` are objects and whose truthy path renders; then title, type, law_type and date come from `name`, `type`, `fileMeta.LawType.name` and `fileMeta.gregorianDate`, null when absent, and relative_path is `path` unchanged |
| `Search.SearchAdala` | server.py:17-72 | the appending loop returns exactly the reply of the specification `SearchReply` for every fetch outcome and limit; the limit defaults to 5 |
| `Search.SearchOfList` | server.py:48-69 | for an upstream list whose kept items all project, the reply is the no-results message iff the slice is empty; otherwise it serialises `min(limit, n)` records (or `max(n + limit, 0)` for negative limits), record k from item k |
| `Search.MissingKeysMeanNoResults` | server.py:48-67 | if `pageProps`, `searchResult` or `data` is absent, the reply is the no-results message for every limit |
| `Search.ReplyShape` | server.py:66-72 | a message reply is always the no-results text; a serialised reply is never an empty list; the reply is a failure iff the request failed, navigation or slicing raised, or some kept item does not project |
| `Download.BaseName` | server.py:90 | the last segment contains no `/`, is a suffix of the path, and is preceded by `/` when shorter than the path |
| `Download.BaseNameAfterLastSlash` | server.py:90 | the last segment of `dirs + "/" + s`, with `s` free of `/`, is `s`; a path without `/` is its own last segment |
| `Download.Lower` | server.py:93 | `.lower()` on ASCII letters, keeping the length; that it distributes over concatenation and leaves ".pdf" unchanged is stated by `Download.LowerAppend` |
| `Download.LowerAppend` | server.py:93 | lower-casing a concatenation lower-cases each part; ".pdf" is already lower case |
| `Download.HasPdfSuffix` | server.py:93 | `name.lower().endswith(".pdf")`; stated by `Download.WithPdfSuffix` and `Download.PdfSuffixCases` |
| `Download.WithPdfSuffix` | server.py:93-94 | the result ends in ".pdf" up to letter case; it equals the name iff the name already had the suffix, and is otherwise exactly the name followed by ".pdf" |
| `Download.WithPdfSuffixIdempotent` | server.py:93-94 | applying the suffix rule twice is the same as applying it once |
| `Download.PdfSuffixCases` | server.py:93-94 | "report.PDF" and "report.Pdf" are kept, "report" becomes "report.pdf" and "" becomes ".pdf" |
| `Download.JoinKeepsSuffix` | server.py:96 | the joined local path ends with the name, so it keeps the ".pdf" suffix |
| `Download.PathJoin` | server.py:96 | POSIX `os.path.join`; stated by `Download.JoinKeepsSuffix` and `Download.CallerNameUsed` |
| `Download.SaveName` | server.py:89-94 | the caller's name, or else the path's last segment, passed through the suffix rule; stated by `Download.DerivedNameStaysInDownloads` and `Download.CallerNameUsed` |
| `Download.LocalPath` | server.py:96 | the save name joined to "downloads"; stated by `Download.DerivedNameStaysInDownloads`, `Download.CallerNameUsed` and `Download.DocumentScenario` |
| `Download.DownloadDocument` | server.py:75-108 | the URL is `BASE_URL + "/api/" + relative_path`; the local path is the join of "downloads" and the derived save name and ends in ".pdf"; the reply is the saved path iff the transfer completed; the save name defaults to None |
| `Download.DerivedNameStaysInDownloads` | server.py:89-96 | with no caller name, the save name is the suffixed last segment of the path, contains no `/`, and the local path is "downloads/" + name |
| `Download.CallerNameUsed` | server.py:89-96 | a non-empty caller name is kept up to the suffix rule; a relative one goes under "downloads/", an absolute one replaces the directory |
| `Download.TrailingSlashGivesBarePdf` | server.py:89-96 | a path ending in `/` has an empty last segment and is saved to "downloads/.pdf" |
| `Download.DocumentScenario` | server.py:83-96 | "uploads/2024/04/01/doc" with no save name is saved to "downloads/doc.pdf" |

## Left out

- HTTP requests (`httpx.AsyncClient`, `client.get`, `client.stream`, `raise_for_status`, `response.json()`): network I/O through a library. Their outcome is the `Fetch` parameter, or the `transferred` flag.
- Async execution, FastMCP tool registration and `mcp.run()`: protocol and concurrency plumbing.
- `os.makedirs`, opening and writing the file in chunks, and `os.path.abspath`: filesystem effects. `Saved(localPath)` stands for the success message with the absolute path. A transfer that fails after the file is opened leaves a partial file, which the model does not track. `os.makedirs` sits outside the `try`, so its failure would raise out of the tool; the model does not cover this.
- `json.dumps` formatting (`indent=2`, `ensure_ascii=False`): serialisation is the symbolic reply `Serialized(records)`.
- Exception texts in "Error connecting to Adala: ..." and "Failed to download file: ...": they come from libraries. The model keeps only the kind of fault.
- The User-Agent header, the build ID, the search URL and the fixed query parameters: configuration constants with no behaviour here.
- `JsonValue.Str`: Python `str()` of a truthy path that is a list or a dict yields its `repr()`, which the model does not render. For a dict that text depends on key insertion order, which a map does not keep. A list's `repr()` needs the `repr()` of each element: Python's quoting and escaping of strings, and for a nested dict its key order again. The model gives the `Unrendered` fault instead. Because a fault aborts the loop, a search whose kept items include such a path answers `Failed(Unrendered)` as a whole, where the source serialises every record with a link built from that `repr()` text.
- JSON floating-point numbers: numbers are integers in this model.
- `Download.HasPdfSuffix`: full Unicode `str.lower()` is not modelled; only ASCII letters are lower-cased.
- `Download.BaseName`: only the POSIX separator `/` is modelled; Windows `\` separators are not.
