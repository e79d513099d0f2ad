# PoCSmith data pipeline, modelled in Dafny

This project models PoCSmith's data pipeline, the part that builds its training dataset:

- **CVE scraper.** It fetches CVE records from the NVD CVE API 2.0, one quarter of the year at a time, page by page. Each vulnerability object is projected onto a canonical record.
- **Metasploit scraper.** It scans each Ruby exploit module for its `'Name'`, `'Description'`, `'CVE'` and `'Platform'` markers.
- **Shellcode scraper.** It reads Exploit-DB's `files_shellcodes.csv` and resolves each row against the files of the repository.
- **Data processor.** It joins CVE records with Exploit-DB exploits and Metasploit modules on CVE ids, and renders every pair and every shellcode as an instruction / input / output example. It then shuffles the examples in place and cuts them into train, validation and test slices.

## Form of the model

Pure code becomes datatypes, functions and lemmas:

- the record projections: `_process_cve`, `_process_module` and `_process_shellcode`;
- the regular-expression searches;
- the date windows.

Code that updates state step by step becomes classes and methods:

- `CveScraper`, `MetasploitScraper` and `ShellcodeScraper` are classes whose mutable fields are the `stats` counters the source increments (`total_fetched` or `total_processed`, `total_saved`, `errors`). `CveScraper` also holds the HTTP session it sends its requests through.
- `DataProcessor` is a class holding the four lists `load_data` reads, as constants, and the `linked_pairs` counter, which `link_data` assigns its result's length.
- The HTTP session is a class `NvdSession`. It holds a script of responses and a log of the requests it was sent.

Each loop-carrying method is proved equal to a specification function over the inputs and the old state:

| specification function | loop it specifies |
|---|---|
| `TakeRecords` | one page |
| `RangePass` / `RangeLoop` | one date window |
| `FetchRanges` / `Fetch` | the whole call |
| `TakeModules`, `TakeShellcodes` | the file and row loops |
| `Links`, `TrainingExamples` | the linker and the formatter |
| `Shuffled`, `Split` | the shuffle and the split |

The properties of these functions are then proved as lemmas.

### Modelling of the source's conventions

- **Caps and filters.** Python truthiness of caps and filters is modelled exactly, in `Limits.Capped`. A cap of `None` or `0` means "no cap", and so does an empty platform filter or an empty severity.
- **Upstream service.** It is a finite script of `Page(vulnerabilities, totalResults)`, `RateLimited` (HTTP 403) and `TransportError` answers.
  - Every request, a 403 included, consumes one answer. An exhausted script answers `TransportError`.
  - So the `while True` loop terminates in the model without a retry cap that the code does not have.
- **JSON values.** They are a `Json` datatype.
  - `dict.get` with its default is modelled, and so is iterating a value whose elements are then sent `.get`.
  - A non-empty string or dict yields strings, which raise. An empty one yields nothing. A scalar is not iterable.
  - Any of these raises makes `_process_cve` return `None`, as its `except Exception` does.
- **File system.** The shellcode scraper's file system is a map from relative path to the outcome of reading the file as UTF-8 and as Latin-1. The Metasploit walk is the sequence of files `rglob` yields, each with its text or a read failure.
- **Shuffle.** `random.shuffle` is CPython's Fisher–Yates pass, with its draws given as input (`draws[i] <= i`).
- **Ratios.** They are exact `real`s. `int()` truncates toward zero. Slice bounds are resolved as Python resolves them, with negative bounds counted from the end and then clamped.

### Behaviour of the code that is easy to misread

- **`parse_modules` never counts errors.** The loop's `except` branch would count an error, but `_process_module` catches every exception itself and returns `None`, so the branch is dead. In the model, `errors` is unchanged by `parse_modules`.
- **A filtered shellcode parse can abort.** `row.get('platform', '')` returns `None` for a short CSV row, whose missing columns are `None`. With an active platform filter, the following `.lower()` then raises outside the inner `try`, and `parse_shellcodes` re-raises it. The model returns `Raised("AttributeError")` for it. The counters keep what the earlier rows added.
- **A year of `0` is no year.** `date_ranges` tests `if year`, so a year of `0` gives the single unbounded pass.

## Model

| member | source | states |
|---|---|---|
| CveScraper.FirstEnglishSpec | src/data_collection/cve_scraper.py:170-175 | The description is the `value` (default `""`) of the first entry whose `lang` is `"en"`, or `""` when no entry is English; the loop raises exactly when a non-dict entry comes before any English one |
| CveScraper.CweFilterCounts | src/data_collection/cve_scraper.py:189-195 | Every weakness value starting with `CWE-` is kept as many times as it occurs, and every other value is dropped |
| CveScraper.CweFilterConcat | src/data_collection/cve_scraper.py:189-195 | The filter distributes over concatenation, so the kept values stay in weakness order, then description order |
| CveScraper.References | src/data_collection/cve_scraper.py:198-203 | The flattened references exist exactly when every entry is a dict, and then there is one per entry, in order |
| CveScraper.ProjectionOfNvdVulnerability | src/data_collection/cve_scraper.py:165-218 | Round trip: a vulnerability laid out as the NVD API lays it out projects back to the id, description, dates, CVSS score and severity, `CWE-` values and references it was built from, with `raw_data` the inner `cve` dict |
| CveScraper.ProcessCve | src/data_collection/cve_scraper.py:155-222 | The loops of `_process_cve` compute `CveProjection`: the record, or `None` when any lookup or iteration raises |
| CveScraper.CollectCweIds | src/data_collection/cve_scraper.py:189-195 | The nested weakness loops give the `CWE-` filtered values of all weaknesses, or fail exactly when the list-of-lists walk raises |
| CveScraper.DescriptionCweIds | src/data_collection/cve_scraper.py:192-195 | The inner loop succeeds exactly when every entry has a string `value`, and then it gives those values' `CWE-` subsequence |
| CveScraper.FlattenReferences | src/data_collection/cve_scraper.py:198-203 | The reference loop computes `References`: one `{url, source}` pair per entry, with `""` for missing keys |
| CveScraper.DateRanges | src/data_collection/cve_scraper.py:62-75 | With a non-zero year there are four windows, the calendar quarters: window `k` runs from 00:00:00 on the first day of month `3k+1` to 23:59:59 on the last day of month `3k+3` of that year, and is at most 120 days long; together they tile the year in chronological order, from day 1 to its last day; without a year there is one unbounded pass |
| CveScraper.TakeRecordsCount | src/data_collection/cve_scraper.py:120-124 | One page only appends records, counts each appended record once, and sends nothing |
| CveScraper.TakeRecordsCap | src/data_collection/cve_scraper.py:126-127 | A positive `max_results` not yet reached is not overshot within a page |
| CveScraper.TakeRecordsPrefix | src/data_collection/cve_scraper.py:120-127 | The records a page appends are those of a prefix of the page, in page order, with failed projections skipped; the page is cut short only when the cap is reached |
| CveScraper.RangePassFacts | src/data_collection/cve_scraper.py:84-151 | One pass sends exactly one request, for the current offset, and reads the next scripted answer; it counts exactly one error when that answer is a transport error, which ends the window, and none otherwise; with a positive cap not yet reached, it neither overshoots the cap nor goes on once the cap is reached |
| CveScraper.RangePassAnswer | src/data_collection/cve_scraper.py:104-143 | The window loop goes on only after a 403, which retries the same offset, or after a non-empty page short of `totalResults`, which advances the offset by `results_per_page`; when it stops, the answer was a transport error, an empty page, a page that reached the cap, or the last page |
| CveScraper.RangeLoopFacts | src/data_collection/cve_scraper.py:81-151 | One window sends at least one request, only appends records and requests, adds exactly one error per transport error among the answers it read and at most one in all, and stays within a positive cap |
| CveScraper.WindowErrors | src/data_collection/cve_scraper.py:81-151 | A window adds exactly one error when its last answer is a transport error, and none otherwise |
| CveScraper.TraceFailures | src/data_collection/cve_scraper.py:104-151 | In a window's conversation only the last answer can be a transport error, since every other answer made the loop go on |
| CveScraper.TraceRequests | src/data_collection/cve_scraper.py:84-96 | Every request of a window carries that window's dates, the page size and the severity filter, and the first one carries the starting offset |
| CveScraper.RangeLoopTrace | src/data_collection/cve_scraper.py:81-151 | The conversation of one window, read off the script: every answer but the last makes the loop go on from the offset `NextIndex` gives, and the last answer ends it |
| CveScraper.FetchRangesFacts | src/data_collection/cve_scraper.py:77-151 | Over all windows the state is only extended, each window adds at most one error, a positive cap is never overshot, and once it is reached no further window is queried |
| CveScraper.FetchRangesFailures | src/data_collection/cve_scraper.py:77-151 | Over all windows `errors` grows by exactly the number of transport errors among the answers read |
| CveScraper.FetchRangesTried | src/data_collection/cve_scraper.py:77-151 | Every window is entered, in order, with a first request for offset 0, whatever the earlier windows answered, so a transport error abandons only its own window; a window can be left untried only when the cap has been reached |
| CveScraper.FetchRangesInOrder | src/data_collection/cve_scraper.py:77-96 | The requests sent follow the windows in order and each carries the dates of the window it was sent for |
| CveScraper.FetchFacts | src/data_collection/cve_scraper.py:33-153 | One `fetch_cves` call returns exactly as many records as it added to `total_fetched`, stays within a positive cap, adds exactly one error per transport error and at most one per window (four with a year, one without), sends its requests window by window, enters every window with offset 0 unless the cap was reached first, and sends nothing when the cap was already reached |
| CveScraper.NvdSession.Get | src/data_collection/cve_scraper.py:101 | A GET logs its request and reads the next answer of the script, or fails like a dead connection when the script is exhausted |
| CveScraper.CveScraper.FetchCves | src/data_collection/cve_scraper.py:33-153 | The method leaves the returned list, `total_fetched`, `errors` and the session exactly as `Fetch` computes them from its arguments and the old state, and `total_saved` unchanged |
| CveScraper.CveScraper.FetchRange | src/data_collection/cve_scraper.py:81-151 | The `while True` loop of one window leaves the state exactly as `RangeLoop` says |
| CveScraper.CveScraper.FetchPage | src/data_collection/cve_scraper.py:84-147 | One turn of the request loop leaves the state as `RangePass` says, and continues with the offset it gives, or breaks |
| CveScraper.CveScraper.TakePage | src/data_collection/cve_scraper.py:120-127 | The loop over one page's `vulnerabilities` leaves the list and `total_fetched` as `TakeRecords` says |
| MetasploitScraper.MatchAtSpec | src/data_collection/metasploit_scraper.py:90-101 | At a position, the marker scanner misses no match of `'<Key>'\s*=>\s*<open>(.+?)<close>`, and the group it finds is the lazy, shortest one |
| MetasploitScraper.MatchAtSound | src/data_collection/metasploit_scraper.py:90-101 | What the scanner finds at a position is a match of the pattern |
| MetasploitScraper.SearchSpec | src/data_collection/metasploit_scraper.py:90-101 | `re.search`: the group returned belongs to the leftmost match, and to the shortest match there; nothing is returned exactly when the pattern matches nowhere |
| MetasploitScraper.NameShape | src/data_collection/metasploit_scraper.py:90-91 | A found `name` has at least one character, lies on one line, and holds no quote after its first character |
| MetasploitScraper.DescriptionShape | src/data_collection/metasploit_scraper.py:94 | A found description group has at least one character, may span lines, and holds no `}` after its first character |
| MetasploitScraper.PlatformShape | src/data_collection/metasploit_scraper.py:101-102 | A found `platform` has at least one character, lies on one line, and holds no `']` after its first character |
| MetasploitScraper.PlatformGroup | src/data_collection/metasploit_scraper.py:101-102 | `'Platform' => ['<g>']` yields `g` itself when `g` holds no `']` and no newline |
| MetasploitScraper.PlatformListQuirk | src/data_collection/metasploit_scraper.py:101-102 | A module listing two platforms gets both as one `platform` string, joined by the list's own `', '` separator |
| MetasploitScraper.FindAllShape | src/data_collection/metasploit_scraper.py:98 | Every `cve_ids` capture is a bare `YYYY-N…` number: four digits, a hyphen and at least one digit |
| MetasploitScraper.FindAllSkipTo | src/data_collection/metasploit_scraper.py:98 | Positions where no match of `'CVE',\s*'(\d{4}-\d+)'` starts contribute nothing: the scan passes over them |
| MetasploitScraper.FindAllLeftmost | src/data_collection/metasploit_scraper.py:98 | `re.findall`: the first capture is the group of the leftmost match, and the scan resumes right after that match's closing quote, so matches do not overlap |
| MetasploitScraper.FindAllNone | src/data_collection/metasploit_scraper.py:98 | A text in which no match starts anywhere yields no capture |
| MetasploitScraper.FindAllOccur | src/data_collection/metasploit_scraper.py:98 | Every capture is the group of a match starting somewhere in the text, right after its `'CVE',`, the spaces and the opening quote |
| MetasploitScraper.NoCapturedCvePrefix | src/data_collection/metasploit_scraper.py:98 | No capture starts with `CVE-`, so none can equal an NVD id such as `CVE-2021-1234` |
| MetasploitScraper.FindAllOfReferences | src/data_collection/metasploit_scraper.py:98 | Round trip: a `References` list written out from CVE numbers yields exactly those numbers, in order and with duplicates kept |
| MetasploitScraper.ModuleRecordFields | src/data_collection/metasploit_scraper.py:80-119 | A file that reads yields a record and one that fails yields `None`; the record keeps the relative path and the text verbatim, with `source` `metasploit` and `language` `ruby`; a field whose marker matches nowhere takes its default, and one whose marker matches takes the group of the leftmost, shortest match (the description stripped), with its marker's shape; the CVE ids are the captures of the `findall` scan, bare numbers |
| MetasploitScraper.TakeModulesCount | src/data_collection/metasploit_scraper.py:65-73 | Each appended record is counted once; a positive limit not yet reached is never overshot; a limit already reached lets at most one more record through |
| MetasploitScraper.OneMoreThrough | src/data_collection/metasploit_scraper.py:68-73 | A limit already reached still lets exactly one more record through when a later file yields one, because the limit check follows the append |
| MetasploitScraper.TakeModulesPrefix | src/data_collection/metasploit_scraper.py:65-73 | The modules returned are the records of a prefix of the files, in walk order, with failed files skipped; the walk is cut short only when the limit is reached |
| MetasploitScraper.MetasploitScraper.ParseModules | src/data_collection/metasploit_scraper.py:53-78 | Without `modules/exploits` the call raises `FileNotFoundError` before anything is counted; otherwise it returns the modules, and leaves `total_processed`, as `TakeModules` computes them; `errors` and `total_saved` are unchanged |
| ShellcodeScraper.ProcessShellcodeOutcome | src/data_collection/shellcode_scraper.py:77-112 | `_process_shellcode` raises exactly when the `file` column is missing or the UTF-8 read fails other than by decoding. It yields `None` exactly when the file is absent, or UTF-8 decoding fails and the Latin-1 read fails too. Otherwise the record copies the six columns unchanged, holds the UTF-8 text (or, after a decode error, the Latin-1 text) and is tagged `exploit-db` |
| ShellcodeScraper.ClassifyFilter | src/data_collection/shellcode_scraper.py:55-66 | Without an active filter no row is filtered out. With one, a row with a platform string is skipped exactly when the lowercased filter does not occur in its lowercased platform; a row without the column is skipped; a `None` cell aborts the parse |
| ShellcodeScraper.TakeShellcodesCount | src/data_collection/shellcode_scraper.py:58-68 | Each appended record is counted once, errors only grow, a positive limit not yet reached is never overshot, and without an aborting row the parse does not raise |
| ShellcodeScraper.TakeShellcodesPrefix | src/data_collection/shellcode_scraper.py:53-68 | The loop consumes a prefix of the rows: their records are appended in row order and each of their failures counted once; it stops early only at an aborting row or at a record that reaches the limit |
| ShellcodeScraper.TakeShellcodesUncapped | src/data_collection/shellcode_scraper.py:53-68 | With no cap and no aborting row every row is consumed: all records are kept in row order and every failure is counted, so processing continues past a failing row |
| ShellcodeScraper.InactiveFilterNoAbort | src/data_collection/shellcode_scraper.py:55 | Without an active platform filter no row can abort the parse |
| ShellcodeScraper.ShellcodeScraper.HandleRow | src/data_collection/shellcode_scraper.py:55-68 | One row of the loop reports whether the filter raised and whether the limit breaks the loop; otherwise it advances the list and the counters by one `Step` of the row's outcome |
| ShellcodeScraper.ShellcodeScraper.ParseShellcodes | src/data_collection/shellcode_scraper.py:30-75 | Without `files_shellcodes.csv` the call raises `FileNotFoundError` before reading a row. Otherwise `total_processed`, `errors` and the result are as `TakeShellcodes` computes them from the rows: the records, or the re-raised `AttributeError` of an aborting row |
| DataProcessor.CveMapLastWins | src/data_processing/data_processor.py:61 | The keys of the CVE map are exactly the ids the records carry, and each key maps to the last record carrying it |
| DataProcessor.FindIds | src/data_processing/data_processor.py:71 | Every id the `CVE-\d{4}-\d+` scan returns has that shape |
| DataProcessor.FindIdsSkipTo | src/data_processing/data_processor.py:71 | Positions where no match starts contribute nothing: the scan passes over them |
| DataProcessor.FindIdsLeftmost | src/data_processing/data_processor.py:71 | `re.findall`: the first id is taken at the leftmost match with every digit that follows, and the scan resumes right after it |
| DataProcessor.FindIdsNone | src/data_processing/data_processor.py:71 | A text in which no match starts anywhere names no id |
| DataProcessor.FindIdsOccur | src/data_processing/data_processor.py:71 | Every id returned is the text of a maximal match starting somewhere in the scanned text |
| DataProcessor.ExploitLinksNamed | src/data_processing/data_processor.py:66-84 | Every Exploit-DB pair comes from an exploit with that `id` whose `codes` text holds a match taking exactly the pair's CVE id |
| DataProcessor.FindIdsOfSpacedIds | src/data_processing/data_processor.py:71 | Round trip: the scan recovers every id of a space-separated list, in order and with repeats |
| DataProcessor.LinksSound | src/data_processing/data_processor.py:66-101 | Every linked pair's id is a key of the map; the pair snapshots that key's record and is built from an exploit or module that names the id |
| DataProcessor.PairsForFacts | src/data_processing/data_processor.py:72-84 | One source's pairs carry exactly its ids that are in the map, in match order and without deduplication; ids not in the map produce nothing |
| DataProcessor.LinkedDataOrder | src/data_processing/data_processor.py:66-101 | All Exploit-DB pairs (tagged `exploit-db`) come before all Metasploit pairs (tagged `metasploit`, of type `metasploit_module`) |
| DataProcessor.NoCodesNoPairs | src/data_processing/data_processor.py:67-69 | An exploit with missing or empty `codes` contributes no pair |
| DataProcessor.PrefixlessModuleIdsNeverLink | src/data_processing/data_processor.py:87-101 | When every map key starts with `CVE-` and no module id does, which is what the module scanner produces, the Metasploit part of the join is empty |
| DataProcessor.KnownIdsSubset | src/data_processing/data_processor.py:72-73 | A linked id is one of the ids its source named |
| DataProcessor.TrainingExamplesShape | src/data_processing/data_processor.py:112-146 | There is one example per pair, then one per shellcode, tagged `cve-exploit` and `shellcode`; each output is the code or content verbatim; each pair's instruction names its CVE id right after the fixed prefix |
| DataProcessor.ShuffledPermutation | src/data_processing/data_processor.py:150 | The shuffle keeps the multiset of examples |
| DataProcessor.Trunc | src/data_processing/data_processor.py:153-154 | Python's `int()` on a float truncates toward zero: a non-negative value lies in `[r, r + 1)` and a negative one in `(r - 1, r]` |
| DataProcessor.ScaledIsProduct | src/data_processing/data_processor.py:153-154 | The scaled ratio is `n * ratio` |
| DataProcessor.SplitPartition | src/data_processing/data_processor.py:152-158 | With non-negative ratios of any size, the train, validation and test slices concatenate to the shuffled list |
| DataProcessor.SplitPermutation | src/data_processing/data_processor.py:152-158 | With non-negative ratios the three slices hold exactly the shuffled list's elements |
| DataProcessor.SplitSizes | src/data_processing/data_processor.py:152-158 | For ratios in `[0, 1]` with a sum of at most 1, the slice sizes are `floor(n*tr)`, `floor(n*(tr+vr)) - floor(n*tr)` and the rest |
| DataProcessor.DefaultSplitOfHundred | src/data_processing/data_processor.py:148-158 | With the default ratios, a hundred examples split 80 / 10 / 10 |
| DataProcessor.NegativeRatioOverlaps | src/data_processing/data_processor.py:153-158 | The ratios are not checked: a negative training ratio makes `train_end` negative, Python counts it from the end, and the slices overlap |
| DataProcessor.AppendPairs | src/data_processing/data_processor.py:72-84 | The inner `for cve_id` loop appends one pair per id found in the map, as `PairsFor` says |
| DataProcessor.LinkExploits | src/data_processing/data_processor.py:66-84 | The Exploit-DB loop produces the pairs of every exploit, in exploit order |
| DataProcessor.LinkModules | src/data_processing/data_processor.py:87-101 | The Metasploit loop appends the pairs of every module, in module order, after those already linked |
| DataProcessor.DataProcessor.LinkData | src/data_processing/data_processor.py:56-105 | `link_data` returns the join of the loaded lists, and sets `linked_pairs` to its length |
| DataProcessor.DataProcessor.FormatForTraining | src/data_processing/data_processor.py:107-146 | `format_for_training` returns the rendered pairs, then the rendered shellcodes |
| DataProcessor.Shuffle | src/data_processing/data_processor.py:150 | The in-place shuffle leaves the array as the draws' sequence of swaps says, and keeps its multiset |
| DataProcessor.SplitAndSave | src/data_processing/data_processor.py:148-158 | The data is shuffled in place and then cut into the three slices; with non-negative ratios, the slices together hold the input's examples |

## Left out

- HTTP, `time.sleep` and `print` are left out. The requests session is a script of already-decoded answers. The sleeps change no data.
- Status codes and JSON decoding. An HTTP status other than 403 that `raise_for_status` rejects, a connection failure and a body that is not JSON all fold into `TransportError`.
- A decoded page whose top level is not a dict, or whose `totalResults` is not an integer, is not modelled. A page is its `vulnerabilities` list and an integer `totalResults`, with `[]` and `0` for absent keys.
- The year is not validated, as in the source. `IsoFormat` renders it as `f"{year}"` does, a negative one with its minus sign.
- `\d` in the two CVE patterns matches only the ASCII digits. Python's `re` also matches other Unicode decimal digits. `\s` and `strip()` use Python's list of whitespace characters.
- `str.lower()`, as `Text.LowerChar`, maps only the ASCII capitals and the Latin-1 capitals U+00C0–U+00DE, except U+00D7. Other scripts' case mappings are not included.
- Universal-newline translation on reading is not modelled. Each file's text is taken as already read.
- The regular-expression engine in general is not modelled. Only the four specific patterns of `_process_module` and the one of `link_data` are modelled, as scanners. The three marker searches are proved against a declarative match predicate. The two `findall` scans are characterised by the match at each position: positions without a match are passed over, the leftmost match is taken in full, the scan resumes after it, and every result is such a match.
- `rglob`'s traversal order: the module files are a given sequence.
- CSV parsing by `csv.DictReader` is not modelled. Rows are given maps from column name to a cell, with `None` for the missing cells of a short row.
- The `repo_dir / file` path join is modelled as a lookup of the `file` cell in the file-system map.
- `DataProcessor.LinkData`: the `KeyError`s that `link_data` and `format_for_training` raise for a record lacking `cve_id`, `description`, `id`, `content` and so on are ruled out by the typed records.
- The exact text `str()` gives for a number is taken as part of the loaded data: `Scalar.Num` carries it.
- `DataProcessor.SplitAndSave`: floating-point ratio arithmetic is modelled exactly, with ratios as `real`s and `n * ratio` as `Scaled`. A product that rounds across an integer in binary floating point may cut one element differently from this model.
- `load_data` and JSON loading: the `DataProcessor` constructor takes the four lists already loaded. The `cves_loaded` and the other load-time counters are not modelled.
- `_save_jsonl`, `save_cves`, `save_modules` and `save_shellcodes`, and so every change to `total_saved`, are left out. So are `mkdir`, timestamped file names and `sync_repo`'s `git` calls, which are I/O.
- `random.shuffle`'s random number generator is not modelled. Its draws are an input; the model proves the outcome is a permutation.
- `DataProcessor.LinkExploits`, `DataProcessor.LinkModules`, `CveScraper.CveScraper.FetchPage`, `CveScraper.CveScraper.TakePage`, `ShellcodeScraper.ShellcodeScraper.HandleRow` and `CveScraper.ProcessRest` split the body of a source loop into a method of its own. They keep its order of effects.
- `raw_data` is the inner `cve` dict itself. `cvss_score` and `severity` are JSON values copied through.
- `CveScraper.CveRecord`: a `baseScore` or `baseSeverity` key holding JSON `null` gives `Some(JNull)`, and a missing key gives `None`. Python's `.get` turns both into `None`, so the model keeps a distinction the record does not have. Nothing in the model reads the record's two values back.
- The `main()` and argparse entry points, and the training and inference scripts, are outside the pipeline this project models.
