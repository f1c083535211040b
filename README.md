# Reel extractor: the extraction-and-append core

A Dafny model of the part of the reel extractor that turns one Instagram
reel link into spreadsheet rows. The core has these steps:

1. It builds a text blob from the caption, the transcript and the on-screen text.
2. It extracts items from the blob, through the language model's reply or the naive fallback.
3. It enriches places with coordinates and address parts, and products with a price source.
4. It routes the batch to the travel, products or default spreadsheet.
5. It numbers the rows after the last index in the sheet.
6. It appends the rows to the spreadsheet's tab named Sheet1 and duplicates them into a local CSV backup. The backup is written whether or not the append raised.

Modules, one per source file plus shared ones:

- `Values` (values.dfy): Python values as read from JSON and dicts (None, bools, ints, floats as reals, strings, lists, dicts), plus `Option`, `Result`, the raised exceptions, truthiness, `dict.get` and `setdefault`.
- `Text` (text.dfy): `strip`, `lower`, slicing, `split("\n")[0]`, the substring test, and `int()` / `float()` on values.
- `Utils` (utils.dfy): the 21 sheet headers, the reel-URL recogniser and the back-off delay.
- `Config` (config.dfy): the settings the core reads.
- `Sheets` (sheets.dfy): the client's configuration checks.
  - A `Remote` object holds every spreadsheet's rows. The class `SheetsClient` works on it through header assurance, the normalising append, the error translation and the tail read.
  - The backup file is a `BackupFile` object.
- `Llm` (llm.dfy): the fallback extraction and the default-filling loop.
- `Enrich` (enrich.dfy): `enrich_item`, `enrich_place` and `enrich_product` as methods on the item.
- `Pipeline` (pipeline.dfy): `item_to_row` and `process_reel_url`, split into a preparation half (download to enrichment) and a writing half (routing to backup).

The following collaborators are inputs, not computations:

- The downloader's caption (`Meta`), or the exception it raised.
- The media text (`Option<Media>`).
- The model's parsed reply (`LlmReply`).
- The geocoder's search, reverse and distance answers (`Geocoder`).
- The timestamp.
- Whether the service-account file exists, and its e-mail.
- Which Sheets API calls fail, and with what text (`ApiFaults`).

## Model

| member | source | states |
|---|---|---|
| Pipeline.ItemToRow | src/agent/pipeline.py:15-38 | a row has exactly as many cells as the header (21); cells 1-3 are the global index, the timestamp and the link; cell 4+k is `item.get` of the k-th row field, None when missing |
| Pipeline.ItemFields | src/agent/pipeline.py:20-37 | the 18 item cells are `item.get` of the row fields in column order |
| Pipeline.RowNeedsNoFit | src/agent/sheets.py:114-120 | the pad/truncate normalisation leaves every row built by `item_to_row` unchanged |
| Pipeline.RunRows | src/agent/pipeline.py:117-120 | one full-width row per item, row i carrying global index `next + i` |
| Pipeline.BuildRows | src/agent/pipeline.py:117-120 | the loop builds exactly the consecutive numbered rows of `RunRows` |
| Pipeline.NonEmpty | src/agent/pipeline.py:60 | `filter(None, …)` returns no more parts than it is given, and every part it returns is a given part that is non-empty |
| Pipeline.NonEmptyCounts | src/agent/pipeline.py:60 | the filter drops every empty part and keeps each non-empty part exactly as often as it occurs |
| Pipeline.NonEmptyAppend | src/agent/pipeline.py:60 | the filter keeps order: filtering `a + b` gives the filtered `a` followed by the filtered `b` |
| Pipeline.NonEmptySingle | src/agent/pipeline.py:60 | a single part is kept exactly when it is not empty |
| Pipeline.NonEmptyOfThree | src/agent/pipeline.py:60-64 | the three labelled parts filter to the caption part, then the transcript part and the ocr part each only when non-empty |
| Pipeline.JoinHead | src/agent/pipeline.py:60 | `sep.join` of a non-empty list starts with its first element |
| Pipeline.SourceBlob | src/agent/pipeline.py:60-64 | the blob always starts with `caption: ` followed by the caption |
| Pipeline.SourceBlobLayout | src/agent/pipeline.py:60-64 | the blob is the caption part, then "\n\n" and the transcript part only when the transcript is non-empty, then "\n\n" and the ocr part only when that text is non-empty |
| Pipeline.Stamped | src/agent/pipeline.py:76 | the item gains `source_text`, the first min(200, len) caption characters as a string, and keeps every other key and value |
| Pipeline.StampAndEnrich | src/agent/pipeline.py:75-80 | one turn of the loop: the stamped item goes through the `enrich_item` rules, and the stamp and every original key survive |
| Pipeline.EnrichAll | src/agent/pipeline.py:75-80 | every item is stamped with the first 200 caption characters and then enriched by `enrich_item`; an exception is swallowed and the item keeps what was done before it; the stamp and every original key survive |
| Pipeline.AnyKind | src/agent/pipeline.py:84 | false iff every item's type converts and none is in the kinds; any failure is an AttributeError |
| Pipeline.AnyKindFirst | src/agent/pipeline.py:84 | true iff some item matches with no earlier item raising; an AttributeError iff some item's type is a truthy non-string with no earlier match |
| Pipeline.AnyKindShift | src/agent/pipeline.py:84 | past a first item that neither matches nor raises, the first match and the first raise are those of the remaining items |
| Pipeline.ChooseSheet | src/agent/pipeline.py:83-90 | the travel id when a place/hotel item exists and that id is set, else the products id when a product item exists and that id is set, else the default id; an AttributeError from the travel test, or from the product test when it is reached, propagates; when neither test selects a sheet the default id, or ValueError "No Google Sheet ID configured" when it is unset; the result is always one of the three non-empty ids, and the travel id (when distinct) only after a travel match |
| Pipeline.NextIndex | src/agent/pipeline.py:97-115 | `int(first cell) + 1` when the last data row has a first cell that converts; 1 when the read failed, there is no row, the row is empty, the cell is empty, or it does not convert |
| Pipeline.LastRowRead | src/agent/sheets.py:155-172 | `get_last_n_rows(n=1)`: the API error exactly when the read fails; otherwise at most one row of an existing spreadsheet |
| Pipeline.LastRowReadIsLast | src/agent/sheets.py:163-172 | the row read is the sheet's last row through column U, with the same first cell; nothing is read only for an empty sheet or a sheet holding just its header |
| Pipeline.AppendedEndsWith | src/agent/sheets.py:125-135 | after an append the spreadsheet ends with the last row appended |
| Pipeline.NextAfterLastRow | src/agent/pipeline.py:99-108 | a readable sheet whose last row starts with the integer n gives next index n + 1 |
| Pipeline.NextAfterTextRow | src/agent/pipeline.py:99-108 | a readable sheet whose last row starts with the text of the integer n, as the service renders it, also gives next index n + 1 |
| Pipeline.NextAfterAppend | src/agent/pipeline.py:99-108 | after appending rows whose last one starts with n, the next run is numbered from n + 1 |
| Pipeline.RunsContinue | src/agent/pipeline.py:97-120 | a run after a successful run numbered from `next` with k items starts at `next + k`: numbering continues without gaps or repeats |
| Pipeline.NextIndexContinues | src/agent/pipeline.py:101-108 | after a sheet whose last row starts with an integer n (below a header or another row), the next index is n + 1 |
| Pipeline.PrepareItems | src/agent/pipeline.py:44-80 | a download error propagates; the items are the extraction of the blob; no items raises ValueError "No items extracted from reel"; otherwise every extracted item is stamped and enriched |
| Pipeline.AppendedExactly | src/agent/sheets.py:114-135 | a sheet that holds the old rows and then the normalised full-width rows is exactly the old rows followed by the rows given |
| Pipeline.AppendWithBackup | src/agent/pipeline.py:122-136 | the rows reach the backup exactly once on both paths; on success the sheet ends with them; on failure the translated error is returned and the sheet only has its header assured |
| Pipeline.AppendRun | src/agent/pipeline.py:97-139 | `RunWritten`: the rows are `RunRows` numbered from `NextIndex` of the last row read, they reach the backup, and either the append succeeded and `(next, next + len - 1, items)` is returned, or the translated append error is returned and the sheet only has its header assured |
| Pipeline.WriteRows | src/agent/pipeline.py:83-139 | `Written`: the routing error or the client-configuration error is returned with the spreadsheets and the backup unchanged; otherwise the id is the one `ChooseSheet` picked and `RunWritten` holds (rows numbered after the last row, backup on both paths, the append or the append error); a success reports `end = start + len - 1` |
| Pipeline.ProcessReel | src/agent/pipeline.py:41-139 | a download error or an empty extraction raises with nothing written; otherwise the items are `EnrichedAll` of the extraction of the blob and `Written` holds for them, append failure included; a success returns a non-empty item list, `start <= end`, `end = start + len - 1`, rows numbered start, start+1, …, appended to the chosen sheet and written to the backup |
| Sheets.OpenClient | src/agent/sheets.py:19-32 | the checks in order: no sheet id raises RuntimeError, no service-account path raises RuntimeError, a missing file raises FileNotFoundError naming the path; the given id wins over the default |
| Sheets.SaFileMissingNamesPath | src/agent/sheets.py:27-32 | the missing-file message names the configured path |
| Sheets.SheetsClient.constructor | src/agent/sheets.py:17-19 | the client holds the sheet id, the service-account e-mail and the spreadsheet it talks to |
| Sheets.HeadersPresent | src/agent/sheets.py:61-68 | the headers count as present iff the sheet has a first row of at least five cells starting with "Index" |
| Sheets.Window | src/agent/sheets.py:159 | a read of columns A..U keeps at most the first 21 cells of a row |
| Sheets.ReadAll | src/agent/sheets.py:156-163 | the read gives every row of the sheet, cut to columns A..U |
| Sheets.OverwriteHeader | src/agent/sheets.py:74-83 | a missing row 1 is created; row 1's first 21 cells become the headers and its cells beyond U are kept, so its length is max(21, old length); every later row is unchanged; the headers then count as present |
| Sheets.HeaderAssuranceIdempotent | src/agent/sheets.py:61-86 | with the header read answering, a second header assurance does not rewrite row 1 and changes nothing; when the first one rewrote row 1, the headers are then present |
| Sheets.HeaderOverwritesFirstRow | src/agent/sheets.py:61-83 | on a sheet whose row 1 is not a header, a data row included, header assurance with a successful write overwrites the first 21 cells of that row with the headers and keeps the row count |
| Sheets.HeaderRewriteOnlyRowOne | src/agent/sheets.py:78-83 | header assurance touches only row 1 of the one spreadsheet |
| Sheets.SheetsClient.EnsureHeaders | src/agent/sheets.py:47-105 | row 1 is overwritten and true returned exactly when the header write succeeds and either the header read failed (the retry) or row 1 lacks "Index" with at least 5 cells; otherwise nothing changes |
| Sheets.Fit | src/agent/sheets.py:117-119 | a normalised row has 21 cells, the first min(len, 21) from the input and "" padding after |
| Sheets.FitFullWidth | src/agent/sheets.py:116-119 | a row of 21 cells is normalised to itself |
| Sheets.SheetsClient.NormalizeRow | src/agent/sheets.py:117-119 | the pad loop computes `Fit` of the row |
| Sheets.SheetsClient.NormalizeRows | src/agent/sheets.py:114-120 | the row loop keeps the count and order and normalises every row |
| Sheets.AppendError | src/agent/sheets.py:140-153 | an error text with "403" or "PERMISSION_DENIED" becomes a PermissionError naming the e-mail and the sheet id; any other text propagates as the same API error |
| Sheets.PermissionMessageNames | src/agent/sheets.py:144-152 | the permission message names the service-account e-mail and the sheet id |
| Sheets.SheetsClient.AppendRows | src/agent/sheets.py:107-153 | headers assured first; on success the normalised rows follow the existing rows unchanged, the other spreadsheets are untouched, and the reply gives the first new row and the count; on failure the translated error and only the header assurance |
| Sheets.SliceStart | src/agent/sheets.py:172 | Python's start of `s[k:]`: min(k, len) for k >= 0, len + k for -len <= k < 0, and 0 below that |
| Sheets.DataRows | src/agent/sheets.py:166-170 | the rows after the first when it starts with "Index", else all rows: a suffix missing at most one row; all but the first under a header; all of them when the first cell is a number |
| Sheets.TailRows | src/agent/sheets.py:163-172 | [] for an empty read; otherwise the data rows (the first dropped only when it starts with "Index"), and for n >= 1 their last min(n, len) rows as a suffix |
| Sheets.TailOfLong | src/agent/sheets.py:164-172 | with two rows or more, `n=1` reads exactly the last row |
| Sheets.TailOfOne | src/agent/sheets.py:164-172 | with one row, `n=1` reads nothing iff that row starts with "Index", and otherwise that row through column U |
| Sheets.TailSkipsHeader | src/agent/sheets.py:166-172 | under a header row the tail is the last min(n, len - 1) rows of the sheet |
| Sheets.SheetsClient.GetLastNRows | src/agent/sheets.py:155-172 | a failed read raises the API error; otherwise the tail of the sheet read through columns A..U |
| Sheets.BackupAppend | src/agent/sheets.py:175-182 | after a backup the file exists, keeps every previous line in front, has the header next only when it was new, and ends with the rows; its length counts exactly those |
| Sheets.BackupAll | src/agent/sheets.py:175-182 | over several backups the previous lines stay in front, and the file exists iff it existed or some batch was written |
| Sheets.BackupFile.Append | src/agent/sheets.py:175-183 | the file's new state is `BackupAppend` of the old one: it then exists, the header is written only when it did not, and the rows follow the previous lines in order |
| Sheets.BackupHeaderOnce | src/agent/sheets.py:177-182 | over any number of appends the header appears at most once, before all batches in order |
| Sheets.HeaderRowShape | src/agent/utils.py:27-49 | the header row has 21 cells and starts with "Index" |
| Utils.HeaderSchema | src/agent/utils.py:27-49 | 21 headers, at least 5, the first "Index" |
| Utils.IsValidReelUrlIff | src/agent/utils.py:11-12 | the link test is true iff some substring is `http[s]://[www.]instagram.com/(reel\|p)/` followed by one or more id characters |
| Utils.MatchInsideIfValid | src/agent/utils.py:11-12 | a positive search exhibits the matching substring |
| Utils.ValidIfMatchInside | src/agent/utils.py:11-12 | any matching substring makes the search positive |
| Utils.SearchFrom | src/agent/utils.py:12 | a match starting at any position is found by the search |
| Utils.FrameMatches | src/agent/utils.py:8 | a link with valid scheme, host and kind matches iff its id starts with an id character |
| Utils.MatchesAtFrame | src/agent/utils.py:8 | every match decomposes into scheme, optional www, kind and a non-empty id |
| Utils.MatchesAtSound | src/agent/utils.py:8 | every match begins with a full link as the pattern describes |
| Utils.ValidWithSuffix | src/agent/utils.py:12 | text after a valid link keeps it valid |
| Utils.ValidWithPrefix | src/agent/utils.py:12 | text before a valid link keeps it valid |
| Utils.SurroundedLinkIsValid | src/agent/utils.py:12 | a valid link inside any surrounding text is still valid |
| Utils.EmptyIdRejected | src/agent/utils.py:8 | a link with an empty id after `/reel/` or `/p/` does not match |
| Utils.Pow2Monotone | src/agent/utils.py:24 | the power of two grows with the attempt |
| Utils.BackoffDelay | src/agent/utils.py:23-24 | the delay is `min(60, 2**attempt)`: positive, at most 60, `2**attempt` for attempts 0..5, 60 from 6 on, the reciprocal power for negative attempts |
| Llm.FallbackName | src/agent/llm.py:16-22 | the name is a prefix of the blob, at most 60 characters, without a newline, and stops early only at a newline |
| Llm.FallbackItem | src/agent/llm.py:19-37 | the item has all 17 fields: index 1, type "other", the name, the note, confidence 0.3, status "review", the other eleven None |
| Llm.FallbackExtract | src/agent/llm.py:14-37 | [] exactly when the first 160 characters are whitespace, otherwise the one review item |
| Llm.WithDefaults | src/agent/llm.py:63-66 | the object gains `item_index` (its position), `confidence` 0.5 and `processing_status` "review" only where missing, and keeps every value it had |
| Llm.Defaulted | src/agent/llm.py:63-66 | every object of the list, in order, gets its defaults with its 1-based position |
| Llm.Candidate | src/agent/llm.py:60 | the "items" entry of an object (None when missing), any other value as itself |
| Llm.UsesReply | src/agent/llm.py:42-62 | the reply is used only with the feature on, a key set and a parsed reply; never for an object without "items" or a scalar; for a list, exactly when every element is an object |
| Llm.Extraction | src/agent/llm.py:40-73 | every item carries index, confidence and status; the result is empty iff the usable reply list is empty or, otherwise, the snippet is blank; a usable reply keeps its length and every key; the fallback has at most one item |
| Llm.ExtractItems | src/agent/llm.py:40-73 | the fallback when the model is off, has no key, the reply is not JSON, the candidate is not a list or holds a non-object; otherwise the loop fills the defaults of every object |
| Text.Strip | src/agent/llm.py:17 | the stripped text is no longer than the text, empty iff the text is only whitespace, and otherwise neither starts nor ends with whitespace |
| Text.StripMiddle | src/agent/enrich.py:22 | the stripped text is the stretch of the text that starts where `lstrip` stopped, character for character |
| Text.StripDropsSpace | src/agent/enrich.py:22 | what `strip` drops before and after that stretch is whitespace |
| Text.StripLeft | src/agent/enrich.py:22 | `lstrip` keeps a suffix, empty iff the text is blank, not starting with whitespace |
| Text.StripRight | src/agent/enrich.py:22 | `rstrip` keeps a prefix not ending with whitespace |
| Text.StripLeftDropsSpace | src/agent/enrich.py:22 | what `lstrip` drops is whitespace |
| Text.StripRightDropsSpace | src/agent/enrich.py:22 | what `rstrip` drops is whitespace |
| Text.BlankIsAllSpace | src/agent/llm.py:17 | the blank test holds iff every character is whitespace |
| Text.Lower | src/agent/enrich.py:78 | `lower()` keeps the length, turns each capital into its small letter and leaves every other character; the result has no capitals |
| Text.ToInt | src/agent/pipeline.py:107 | `int(v)`: ints as themselves, bools as 0/1, floats truncated toward zero, strings by the integer syntax or a ValueError; TypeError exactly for None, lists and dicts |
| Text.IntRoundTrip | src/agent/pipeline.py:107 | `int(str(n)) == n`: an index written as text reads back as itself |
| Text.ToFloat | src/agent/enrich.py:44-45 | `float(v)`: ints and bools as reals, floats as themselves, strings by the decimal syntax or a ValueError; TypeError exactly for None, lists and dicts |
| Text.FloatOfIntText | src/agent/enrich.py:44-45 | every text that `int()` accepts, `float()` accepts with the same value |
| Text.Take | src/agent/pipeline.py:76 | `s[:n]` is the prefix of length min(n, len) |
| Text.FirstLine | src/agent/llm.py:22 | `split("\n")[0]` is the prefix before the first newline |
| Text.ContainsIff | src/agent/sheets.py:142 | the substring test is true iff the text occurs at some position |
| Enrich.TextField | src/agent/enrich.py:22 | `(item.get(key) or "")` gives the string, "" for a falsy value, and an AttributeError on `.strip()`/`.lower()` for any other truthy value |
| Enrich.PlaceQuery | src/agent/enrich.py:22 | the query is `Strip` of the name text, and fails exactly when the name is a truthy non-string |
| Enrich.Lookup | src/agent/enrich.py:25-45 | coordinates exactly when the search has a first hit whose lat and lon both convert with `float()`, and then those two floats |
| Enrich.ItemKind | src/agent/enrich.py:78 | "" for a falsy type, the lower-cased string for a string type, an AttributeError exactly for a truthy non-string |
| Enrich.FillAddress | src/agent/enrich.py:54-58 | with an answered reverse lookup, city (city, else town, else village), state and country are set only where missing; nothing else changes |
| Enrich.SetDistance | src/agent/enrich.py:59-60 | `distance_km` is set to the distance exactly when both origin coordinates are truthy; nothing else changes |
| Enrich.FinishPlace | src/agent/enrich.py:61-62 | an existing status is kept, "done" set otherwise; confidence becomes max(float(old, default 0.5), 0.7), or, when `float()` fails, the confidence is left as it was |
| Enrich.SettleAnswered | src/agent/enrich.py:54-62 | the address, distance, status and confidence updates of a geocoded place, nothing else |
| Enrich.SettlePlace | src/agent/enrich.py:46-65 | after a hit, lat and lng are written; a raising reverse lookup stops there, otherwise the answered updates follow |
| Enrich.EnrichPlace | src/agent/enrich.py:20-65 | a blank name or a failed or empty search returns the item unchanged; a hit sets lat/lng and the follow-up updates; it only adds place fields and only overwrites lat, lng, distance and confidence |
| Enrich.PlaceFrame | src/agent/enrich.py:46-62 | a place update only adds place fields and only overwrites lat, lng, distance and confidence |
| Enrich.PlaceConfidence | src/agent/enrich.py:62 | confidence never drops below what the item had, and is at least 0.7 once the reverse lookup answered |
| Enrich.PlaceDistanceAndStatus | src/agent/enrich.py:59-61 | the distance changes only with both origin coordinates; an existing status is never changed; "done" when none was set |
| Enrich.EnrichProduct | src/agent/enrich.py:68-74 | a truthy price leaves the item unchanged; otherwise price source "web-scrape", status "review" only if missing, confidence as a float (0.5 default), or the conversion error |
| Enrich.EnrichItem | src/agent/enrich.py:77-83 | place/hotel (case-insensitive) goes to the place rules, product to the product rules, anything else unchanged, a non-string type raises; only enrichment fields are added or overwritten |

## Left out

- String operations are ASCII only: `strip`, `isspace` and `lower` ignore the other Unicode whitespace and letters.
- `float()` accepts only plain decimals. Exponents, `inf`, `nan` and underscores are not modelled. `int()` accepts no underscores and no non-ASCII digits.
- Floats are exact reals. Rounding of the distance to two places and the haversine formula are inside the `Geocoder.distanceKm` parameter.
- The HTTP requests of the geocoder, the `float()` of the coordinates and the status codes are reduced to the `Search` and `Reverse` outcomes.
- The spreadsheet service is reduced to the rows of the tab named Sheet1 of each spreadsheet, the tab every call names in its range. Value rendering and the trimming of trailing empty cells by the service are not modelled. A read returns the stored cells.
- A spreadsheet without a tab named Sheet1 is not modelled as such. It shows up only as the failure of every call, through `ApiFaults`.
- The CSV serialisation of the backup and any failure to write it are not modelled. The backup is the list of rows it holds.
- Credential loading, the service build and the read of the service-account e-mail (src/agent/sheets.py:33-45) are not modelled. The e-mail is a parameter.
- Header assurance retries the header write in its `except` branch (src/agent/sheets.py:87-105). That branch is reached after a failed read and also after a failed first write of the headers. The model folds each write and its retry into one `headerWrite` outcome. So a failed first write followed by a successful retry looks like one successful write, and the model cannot tell the two apart.
- The downloader, the media processing, the model call and `json.loads` are inputs. The `source_blob[:18000]` cut applies only to the model prompt, so it does not appear.
- The clock (`now_iso`), `ensure_dir`, the temp directory and `time.sleep` are not modelled. The timestamp is a parameter and the back-off gives the delay value.
- Concurrent runs are not modelled. The read-then-append index allocation is a single-writer model.
- Items are values, not shared dicts. The pipeline's enriched list stands for the mutated dicts, and aliasing between them is not modelled.
- The `except` around `extract_items_with_llm` in `process_reel_url` (src/agent/pipeline.py:68-70) cannot fire in the model, because the extraction handles every failure itself.
- Config is a record of the settings used; reading the environment is not modelled.

Behaviour of the source worth noting:

- An enrichment that raises part-way leaves the updates it already made in the item, and the item is written with them. Examples are lat/lng before a bad confidence, and the price source before a bad confidence. It is not restored to its pre-enrichment values.
- A routing error, or a client configuration error, raises before any write and before the backup. Only a failure of the append itself is followed by the backup.
- The next index is `int(cell) + 1` for any integer in the last row. A negative or out-of-order number in the sheet therefore gives a non-increasing index.
- Header assurance runs after the next index was read, inside the append. When row 1 of the sheet is a data row (no "Index" header), it overwrites that row's first 21 cells with the headers, so that row's data is lost. This holds even when that row is the one the index was just read from (src/agent/sheets.py:61-83, `HeaderOverwritesFirstRow`).
