# RSASParser report normalisation, modelled in Dafny

RSASParser converts an exported vulnerability-scanner report into one spreadsheet. The
report is a folder of HTML pages. Each page carries its findings as a JSON payload
assigned to `window.data` in its first script element. This project models the part
that turns decoded payloads into rows:

- choosing the layout of the report (host scan or web application scan) from its index page;
- walking one page's payload and appending one row per finding, with the level and
  "dangerous" flags localised through two lookup tables;
- rebuilding the raw HTTP request and response text of web findings;
- the ordered, all-text column schema;
- merging the per-page row lists into one table.

Two revisions are modelled side by side:

- `src/modules/Versions/V60_R04F04SP06.py` is the current revision. It is built on the
  skeleton in `src/modules/Versions/base.py` (module `V60`).
- `main.py` is the earlier single-file script (module `Legacy`).

The two revisions share the page walkers in module `Extract`, which take the revision as
a parameter. They differ in three places:
- the current host extractor reads a group's port, service and protocol for each row,
  while the earlier one reads them once per group before the rows;
- the current web extractor accepts a `raw_data` of length zero, while the earlier one
  indexes `raw_data[0]` unconditionally;
- the current chooser classifies the section titles, while the earlier detector matches
  the template name.

Module `Revisions` states how the two revisions relate.

Layout of the project:

- `wrappers.dfy`: `Option`, `Result` (for `:-`), and `Outcome`, the pass-or-raise result of a method that only changes state.
- `collections.dfy`: stop-at-first-failure map (`MapAll`), flatten, dedupe and their lemmas.
- `json.dfy`: the decoded payload and the Python operations the core applies to it. These are
  `d[k]`, `d.get(k, v)`, `x[i]`, iteration, `len`, truthiness and `str()` in f-strings, each
  with the exception it raises modelled as an `Error`.
- `base.dfy`: `BaseTemparser.schema` and the row and table types.
- `records.dfy`: the host and web row layouts, the two lookup tables, the fragment join, and the raw request and response text.
- `extract.dfy`: the page walkers for both revisions, as functions, and the lemmas about row count, order and field provenance.
- `v60.dfy`: the current revision's chooser, schemas, parser classes (imperative, with nested loops over `rows`), `parser_map` and `parse`.
- `legacy.dfy`: the earlier revision's template enum, detector, dispatch table, parser classes, `parse_host` and `run_main`.
- `revisions.dfy`: where both revisions succeed they agree; where their choosers disagree.
- `loader.dfy`: how the JSON text is cut out of the script element, and the finding below.

A parser class is modelled as a `class` with a `rows: seq<Row>` field. In both revisions
the constructor sets `rows` to empty and then runs the parse, which appends in nested
loops. A Dafny constructor cannot raise, so construction is split in two:
- a constructor that leaves `rows` empty;
- a method (`Parse` in `V60`, `Init` in `Legacy`) returning `Pass` or `Fail(error)`.

Each loop method is proved against a walker function of `Extract`. Its outcome is the
walker's outcome. On success its new `rows` are the old rows followed by the walker's
records rendered as rows.

## Model

| member | source | states |
|---|---|---|
| Json.Lookup | src/modules/Versions/V60_R04F04SP06.py:38-42 | `d[k]` on a decoded object succeeds exactly when `k` is a key. It yields the value of the last binding of `k`, as the decoder keeps it. A missing key fails with `KeyError(k)`. |
| Json.GetOr | src/modules/Versions/V60_R04F04SP06.py:113-115 | `d.get(k, default)` is the bound value when `k` is present and the default when it is absent. It fails only on a value that is not a dict. |
| Json.Length | src/modules/Versions/V60_R04F04SP06.py:95 | `len(x)` succeeds exactly on the values that can be iterated, and counts their elements. |
| Json.Text | src/modules/Versions/V60_R04F04SP06.py:101-108 | `str()` inside an f-string renders a string as itself. It fails exactly on the floats, lists and dicts the model does not render. |
| Json.NatTextRoundTrip | src/modules/Versions/V60_R04F04SP06.py:106 | The decimal text of a non-negative integer (a numeric `status`) reads back as that integer. |
| Json.IntTextInjective | src/modules/Versions/V60_R04F04SP06.py:106 | Different integers render as different texts. |
| Base.SchemaOf | src/modules/Versions/base.py:21-23 | The schema's key set is exactly the set of elements of `output_keys`. Every column has the text type, and no column appears twice. |
| Base.SchemaOrder | src/modules/Versions/base.py:21-23 | The columns are `output_keys` in first-occurrence order, with duplicates collapsed into one column. |
| Base.SchemaOfDistinct | src/modules/Versions/base.py:21-23 | When `output_keys` has no duplicates, the columns are `output_keys` exactly. |
| Records.HostRow | src/modules/Versions/V60_R04F04SP06.py:46-62 | A host row's keys are the 15 host columns in output order. |
| Records.WebRow | src/modules/Versions/V60_R04F04SP06.py:110-127 | A web row's keys are the 16 web columns in output order. |
| Records.KeysDistinct | src/modules/Versions/V60_R04F04SP06.py:28-32 | The built-in key lists have 15 host keys and 16 web keys, with no duplicates. |
| Records.LevelLabel | src/modules/Versions/V60_R04F04SP06.py:13-17 | The level table maps `low`, `middle` and `high` to 低, 中 and 高, each in both directions. Every other code fails: with `KeyError` of the code, or `TypeError` for an unhashable code. No default is substituted. |
| Records.LevelLabelInjective | src/modules/Versions/V60_R04F04SP06.py:13-17 | Different level codes that both succeed give different labels. |
| Records.DangerLabel | src/modules/Versions/V60_R04F04SP06.py:19-22 | The flag table gives 是 exactly for values equal to `True` (which includes `1` and `1.0`). It gives 否 exactly for values equal to `False`. Any other value fails with `KeyError`, or `TypeError` for an unhashable value. |
| Records.DangerLabelOnBooleans | src/modules/Versions/V60_R04F04SP06.py:19-22 | `True` gives 是 and `False` gives 否, and the two labels differ. |
| Records.JoinFragmentsList | src/modules/Versions/V60_R04F04SP06.py:53-54 | Joining succeeds exactly when every fragment is falsy or a string, and fails with `TypeError` otherwise. The result is the concatenation of the fragments, with each falsy fragment replaced by `"\r\n"`. |
| Records.JoinFragmentsPlain | src/modules/Versions/V60_R04F04SP06.py:53-54 | When no fragment is empty, the join is the plain concatenation. |
| Records.HeaderLineOfPair | src/modules/Versions/V60_R04F04SP06.py:103 | A header line renders exactly when `item[0]` and `item[1]` both exist and both have a text. It is then `str(item[0]) + ": " + str(item[1]) + "\n"`, whatever kind of values they are. |
| Records.HeaderLines | src/modules/Versions/V60_R04F04SP06.py:103 | A list of rendering headers gives the header lines concatenated in list order. |
| Records.ContentLines | src/modules/Versions/V60_R04F04SP06.py:108 | A list of rendering content chunks gives each chunk's text followed by `\n`, in order. |
| Records.RequestText | src/modules/Versions/V60_R04F04SP06.py:101-104 | A rendered raw request is never empty: it always holds at least the URL line. |
| Records.ResponseText | src/modules/Versions/V60_R04F04SP06.py:105-109 | A rendered raw response is never empty: it always holds at least the status line. |
| Records.RequestTextFormat | src/modules/Versions/V60_R04F04SP06.py:101-104 | The raw request is `str(url) + "\n"` followed by one `name: value\n` line per header, in order. This holds for any URL and header values that render, numeric ones included. |
| Records.ResponseTextFormat | src/modules/Versions/V60_R04F04SP06.py:105-109 | The raw response is `str(status) + "\n"`, then the header lines, then each content chunk's text followed by `"\n"`. This holds for any status, header and content values that render, so a numeric status prints its decimal digits. |
| Records.StatusDigits | src/modules/Versions/V60_R04F04SP06.py:106 | A non-negative integer status prints as its decimal digits. The digits read back as the status, and different integer statuses print differently. |
| Records.ResponseOfStatus200 | src/modules/Versions/V60_R04F04SP06.py:105-109 | A response with status `200`, no headers and no contents renders as `"200\n"`. |
| Extract.FirstExchange | src/modules/Versions/V60_R04F04SP06.py:99-109 | The first exchange of a non-empty `raw_data` list renders as a request and a response that are both non-empty. |
| Extract.RawExchangeEmpty | src/modules/Versions/V60_R04F04SP06.py:95-109 | In the current revision, the raw request is `''` exactly when `raw_data` has length zero, and so is the raw response. Otherwise both come from `raw_data[0]`. |
| Extract.RawExchangeFirstOnly | src/modules/Versions/V60_R04F04SP06.py:99-100 | Pages whose non-empty `raw_data` lists start with the same exchange get the same raw texts, whatever follows it. |
| Extract.FirstExchangeFormat | src/modules/Versions/V60_R04F04SP06.py:99-109 | The exact raw request and response text built from `raw_data[0]`, for any URL, status, header and content values that render (numeric ones included). |
| Extract.HostFindingOf | src/modules/Versions/V60_R04F04SP06.py:45-61 | A host row takes each field from its source. The IP and scan times come from the page. Port, service and protocol come from the group. The name, level label, joined description and solution, points, flag label, date, CVE and id come from the occurrence. |
| Extract.HostGroupRows | src/modules/Versions/V60_R04F04SP06.py:44-62 | A group that succeeds gives exactly one row per `vuls` entry, in `vuls` order, each with full field provenance. This holds in both revisions. |
| Extract.HostGroupBlock | src/modules/Versions/V60_R04F04SP06.py:44-62 | A group that succeeds has an iterable `vuls`, and its row count is the number of its items. Every row carries the page's IP and scan times. |
| Extract.HostWalkRows | src/modules/Versions/V60_R04F04SP06.py:43-62 | A host page that succeeds gives the concatenation of its groups' rows in group order. Each group's rows equal that group's own result. The total is the sum over `vul_items` of `len(vuls)`, and every row carries the page's IP and scan times. |
| Extract.HostLookupMiss | src/modules/Versions/V60_R04F04SP06.py:52-56 | An unknown level code or flag value in an occurrence makes its whole group fail. |
| Extract.HostWalkGroupFails | src/modules/Versions/V60_R04F04SP06.py:43-44 | A failing group makes its whole page fail. |
| Extract.WebGroupInfoOf | src/modules/Versions/V60_R04F04SP06.py:85-92 | The shared part of a web group comes from the group and its `web_vuln_obj`. The level and flag are localised, and the description and solution are copied verbatim. |
| Extract.WebOccurrenceOf | src/modules/Versions/V60_R04F04SP06.py:110-127 | A web row carries the page's IP and scan times and the group's shared fields. It also carries the page's URL, its method, parameter and verification (each `''` when missing) and its raw exchange. |
| Extract.WebGroupRows | src/modules/Versions/V60_R04F04SP06.py:84-127 | A web group that succeeds gives exactly one row per page, in order, each with full provenance. Any two of its rows agree on name, points, level, CVSS, description, solution and flag. |
| Extract.WebGroupBlock | src/modules/Versions/V60_R04F04SP06.py:94-127 | A web group that succeeds has an iterable `pages`, and its row count is the number of its items. Every row carries the page's IP and scan times. |
| Extract.WebWalkRows | src/modules/Versions/V60_R04F04SP06.py:84-127 | A web page that succeeds gives the concatenation of its groups' rows in group order. The total is the sum over groups of `len(pages)`, and every row carries the page's IP and scan times. |
| Extract.WebLookupMiss | src/modules/Versions/V60_R04F04SP06.py:87-92 | An unknown risk level or flag value makes the whole group fail. |
| Extract.WebWalkGroupFails | src/modules/Versions/V60_R04F04SP06.py:84 | A failing group makes its whole page fail. |
| Extract.PageRows | src/modules/Versions/V60_R04F04SP06.py:143-144 | Every row that one page yields has exactly its layout's columns, in order. |
| Extract.PagesRowsFlatten | src/modules/Versions/V60_R04F04SP06.py:150-154 | Over many pages: one row list per page, each equal to that page's own result and contiguous in the flattened list. The total row count is the sum of the page counts, and every row has the layout's columns. |
| Extract.PagesRowsFail | src/modules/Versions/V60_R04F04SP06.py:150-154 | When some page fails, the run fails with the error of the first failing page in host order. |
| Extract.RawExchangeRevisions | main.py:157-158 | The two revisions render a page's raw exchange differently exactly when its `raw_data` has length zero (an empty list, string or object). The current revision then gives two empty texts, and the earlier one fails. |
| Extract.RawExchangeNoData | main.py:157-158 | A page with `raw_data: []` gives `("", "")` in the current revision and `IndexError` in the earlier one. |
| Extract.RawExchangeNoDataOtherKinds | main.py:157-158 | An empty string or an empty object as `raw_data` gives `("", "")` in the current revision. The earlier one fails with `IndexError` for the string and `KeyError(0)` for the object. |
| Extract.HostGroupWithoutPort | main.py:83-87 | A group with no `port` and no occurrences gives no rows in the current revision, but fails with `KeyError('port')` in the earlier one. |
| Extract.OccurrenceRevisions | main.py:88-105 | With the group's port, service and protocol readable, both revisions build the same row from an occurrence. |
| Extract.HostGroupRevisions | main.py:82-105 | Where the earlier revision reads a host group, the current one gives the same rows. |
| Extract.HostRevisions | main.py:81-105 | Where the earlier revision reads a host page, the current one gives the same rows. |
| Extract.WebGroupRevisions | main.py:146-185 | Where the earlier revision reads a web group, the current one gives the same rows. |
| Extract.WebRevisions | main.py:145-185 | Where the earlier revision reads a web page, the current one gives the same rows. |
| V60.Classify | src/modules/Versions/V60_R04F04SP06.py:136-141 | The titles give Web exactly when both web sections are present and the host pair is not. They give All exactly in the inverse case. Otherwise there is no layout, so the two outcomes exclude each other. |
| V60.ChooseOutcome | src/modules/Versions/V60_R04F04SP06.py:130-141 | When titles and template are readable, the chooser returns the classification. When no layout fits, it fails with an error carrying the `vulnTemplate` value. |
| V60.ChooseNeedsTemplate | src/modules/Versions/V60_R04F04SP06.py:134 | A missing template name fails the chooser even when the titles would decide. |
| V60.SchemaDefaults | src/modules/Versions/V60_R04F04SP06.py:28-33 | With no key list or an empty one, `SCHEMA()` uses the built-in 15 host or 16 web keys, all text. A non-empty key list gives its first-occurrence order. |
| V60.AllTemparser.constructor | src/modules/Versions/base.py:18 | The rows start empty. |
| V60.AllTemparser.Parse | src/modules/Versions/V60_R04F04SP06.py:35-62 | The nested loops raise exactly what the host walker fails with. On success they append exactly the walker's rows, in order. |
| V60.AllTemparser.ParseGroup | src/modules/Versions/V60_R04F04SP06.py:44-62 | The inner loop over `vuls` raises what the group walker fails with. On success it appends that group's rows. |
| V60.WebTemparser.constructor | src/modules/Versions/base.py:18 | The rows start empty. |
| V60.WebTemparser.Parse | src/modules/Versions/V60_R04F04SP06.py:75-127 | The nested loops raise exactly what the web walker fails with. On success they append exactly its rows, in order. |
| V60.WebTemparser.ParseGroup | src/modules/Versions/V60_R04F04SP06.py:85-127 | The group lookups and the inner loop over `pages` raise what the group walker fails with. On success they append that group's rows. |
| V60.ParserMap | src/modules/Versions/V60_R04F04SP06.py:143-144 | Constructing a parser and taking its rows gives the page's rows under the chosen layout, or its error. |
| V60.Parse | src/modules/Versions/V60_R04F04SP06.py:147-156 | The merge loop computes the merged table, or the first error. |
| V60.MergeRows | src/modules/Versions/V60_R04F04SP06.py:147-156 | A merged table has the default schema of the chosen layout, and its rows are the flatten of the per-page rows in host order. Each page's rows are contiguous. The row count is the sum of the page counts, and every row conforms to the schema. |
| V60.MergeFails | src/modules/Versions/V60_R04F04SP06.py:150-151 | A page that fails, with every earlier page succeeding, makes the merge fail with that page's error. |
| Legacy.TemplateTypeOf | main.py:17-20 | `TEMPLATE_TYPE(value)` is a member exactly when the value is that member's template string. |
| Legacy.DetectOutcome | main.py:198-206 | The detector succeeds exactly when `vulnTemplate` equals one of the three template strings, and returns that member. Any other value stops the run with an error carrying the value. |
| Legacy.ParserType | main.py:192-195 | WEB dispatches to the web parser, and ALL and AUTO dispatch to the host parser. |
| Legacy.ClassSchema | main.py:52-130 | The class schemas, the host one at lines 52-68 and the web one at lines 113-130, list the 15 host or 16 web columns in order, all text. |
| Legacy.AllTemparser.constructor | main.py:72 | The rows start empty. |
| Legacy.AllTemparser.Init | main.py:70-79 | Construction raises exactly what the host walker fails with. On success the rows are the walker's rows, and the fields hold the page's IP, scan times and main info. |
| Legacy.AllTemparser.ParseVulns | main.py:81-105 | The nested loops over the stored main info raise what the walker fails with. On success they append its rows. |
| Legacy.AllTemparser.ParseGroup | main.py:82-105 | Reading port, service and protocol first, then the inner loop, raises what the group walker fails with. On success it appends that group's rows. |
| Legacy.AllTemparser.ParseOccurrences | main.py:87-105 | The loop over `vuls` with a group's port, service and protocol fixed appends the rows of those occurrences, or raises the first failure. |
| Legacy.WebTemparser.constructor | main.py:135 | The rows start empty. |
| Legacy.WebTemparser.Init | main.py:132-143 | Construction raises exactly what the web walker fails with. On success the rows are its rows, and the fields hold the page's context. |
| Legacy.WebTemparser.ParseVulns | main.py:145-185 | The nested loops raise what the web walker fails with. On success they append its rows. |
| Legacy.WebTemparser.ParseGroup | main.py:146-185 | One group's lookups and page loop append that group's rows, or raise its failure. |
| Legacy.ParseHost | main.py:216-217 | Dispatching on the template type and parsing gives the page's rows under that type's layout. |
| Legacy.RunMain | main.py:237-247 | The detect, map and flatten sequence computes the merged table or the first error, including the second detection for the schema. |
| Legacy.MergeAllRows | main.py:241-247 | The merged table has the class schema of the detected type. Its rows are the flatten of the per-host rows in host order, each host's rows contiguous, with the count being the sum of the host counts. |
| Revisions.SchemasAgree | main.py:52-68 | The earlier class schemas equal the current default `SCHEMA()` of the same layout. |
| Revisions.PageRowsAgree | src/modules/Versions/V60_R04F04SP06.py:35-127 | A page the earlier script reads is read to the same rows by the current one. |
| Revisions.MergesAgree | src/modules/Versions/V60_R04F04SP06.py:147-156 | Suppose the earlier script succeeds, and the current chooser picks the layout the detected template dispatches to. Then both produce the same table. |
| Revisions.TitlesOfMixed | src/modules/Versions/V60_R04F04SP06.py:133 | The section titles of a concrete index page. |
| Revisions.TemplateOfMixed | main.py:201 | The template name of the same page. |
| Revisions.ChoosersDisagree | src/modules/Versions/V60_R04F04SP06.py:130-141 | The same index page selects the host parser in the earlier script and the web parser in the current one. |
| Loader.RemoveAllAbsent | src/modules/Versions/V60_R04F04SP06.py:37 | `replace` of a pattern that does not occur returns the text unchanged. |
| Loader.RemoveCharacter | src/modules/Versions/V60_R04F04SP06.py:37 | `replace(';', '')` keeps exactly the characters other than `;`, in order. |
| Loader.UnwrapHasNoSemicolon | src/modules/Versions/V60_R04F04SP06.py:37 | The text handed to the JSON decoder never contains `;`. |
| Loader.UnwrapDeletesSemicolons | src/modules/Versions/V60_R04F04SP06.py:37 | Take `window.data = body;` whose body does not contain the prefix. The extracted text is the body with every `;` deleted. |
| Loader.UnwrapFaithfulIff | src/modules/Versions/V60_R04F04SP06.py:37 | The extracted text equals the body exactly when the body contains no `;`. |
| Loader.UnwrapCounterexample | src/modules/Versions/V60_R04F04SP06.py:37 | The payload `";"` (a JSON string holding a semicolon) is extracted as `""`. |
| Loader.UnwrapIntendedRoundTrip | src/modules/Versions/V60_R04F04SP06.py:37 | Stripping only the assignment and the trailing `;` returns the body of `window.data = body;` for every body. |
| Loader.UnwrapAgreesWithoutSemicolons | src/modules/Versions/V60_R04F04SP06.py:37 | On bodies without `;` or the prefix, the code as written and the intended unwrapping agree. |

## Left out

- HTML parsing (`etree.HTML`, the `//script[1]/text()` XPath) is a foreign library. The model takes the script text as a string (`Loader`) or starts from the decoded payload.
- JSON decoding (`json.loads`) is a library. The walkers start from a decoded `JSON` value, so the rest of the model reads the payload as the intended unwrapping would deliver it.
- Json.Text: `str()` of floats, lists and dicts in the raw-text f-strings is not rendered. Such a value gives an `Unrendered` error rather than Python's text. NaN and infinities are not modelled.
- The process pool (`ProcessPoolExecutor.map`) is a sequential, order-preserving map.
- Polars `DataFrame` construction, its coercion of values to `Utf8`, and `write_excel` are out. A table is a schema plus the rows with their JSON values.
- Archive extraction, temporary folders, TOML configuration, the `rglob` host discovery, `importlib` version selection, the GUI and the command line (including `print`) are I/O.
- `exit(-1)` in the earlier detector is modelled as an `UnknownTemplate` failure of the run.
- Both revisions' parser constructors are modelled as an empty constructor followed by a method (`Parse`, `Init`) that returns the exception instead of raising it.
- V60.AllTemparser.Parse: on failure the rows already appended are not stated. Construction raises in both revisions, so those rows are never observable.
- Legacy.AllTemparser.Init: on failure the rows already appended are not stated, for the same reason.
- V60.WebTemparser.Parse, V60.AllTemparser.ParseGroup, V60.WebTemparser.ParseGroup, Legacy.WebTemparser.Init, Legacy.AllTemparser.ParseVulns, Legacy.AllTemparser.ParseGroup, Legacy.AllTemparser.ParseOccurrences, Legacy.WebTemparser.ParseVulns and Legacy.WebTemparser.ParseGroup: on failure the rows already appended are not stated either. Every failure raises out of construction, so those rows are never observable.
- The inner loops of the parsers are separate methods (`ParseGroup`, `ParseOccurrences`). Each of them is one loop body of the source.
- `Loader` stops at the extracted text: the value the decoder then builds from it is not modelled.
- The prefix removal `replace("window.data = ", '')` also deletes that phrase inside the payload. That effect is characterised only for bodies that do not contain the phrase (`Loader.UnwrapDeletesSemicolons`).
- `_BOOL_MAP` and `boolean_map` follow Python's hashing. The values `0`, `1`, `0.0` and `1.0` hit the table as `False` and `True` do, so `Records.DangerLabel` accepts them.
- `level_map` and `boolean_map` in `main.py` are identical to `_LEVEL_MAP` and `_BOOL_MAP`, so one definition (`Records.LevelLabel`, `Records.DangerLabel`) serves both revisions.

## Findings

| source | as written | input that shows it | evidently intended | confidence | as-written member | corrected member |
|---|---|---|---|---|---|---|
| src/modules/Versions/V60_R04F04SP06.py:37 | The JSON text is cut out with `.replace("window.data = ", '').replace(';', '')`, which deletes every semicolon in the script, including those inside JSON strings. The same code appears at V60_R04F04SP06.py:77 and 132 and at main.py:73, 136 and 200. | `window.data = ";";` decodes to `""` instead of `";"`. A response header such as `text/html; charset=utf-8` in `raw_data` loses its semicolon the same way. | Strip the leading assignment and only the statement's trailing `;`. | not executed | Loader.UnwrapCounterexample | Loader.UnwrapIntendedRoundTrip |
