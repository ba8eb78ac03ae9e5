# datos.gob.es client — a Dafny model of its decision logic

The repository is a thin Python client for the datos.gob.es open-data catalogue.
It exists in two near-duplicate lineages, `datosgobes/` and `pyopendataes/src/`,
and each lineage has three parts. This project models each lineage separately:

- **`download_data`**, the content resolver (modules `DatosgobesDownload` and
  `PyopendataesDownload`, over the shared `Web` module). It takes a URL and an
  optional output path. It fetches the resource and then either streams the body
  into the file and returns `None`, returns a pandas DataFrame, returns the raw
  bytes, or returns `None` when something fails. The DataFrame branch is chosen by
  an ordered chain of `Content-Type` prefix tests (`text/csv`, `application/json`,
  `application/vnd.ms-excel`, the openxml spreadsheet type). In `datosgobes`, CSV
  is read by trying `utf-8`, `latin-1`, `cp1252` and `utf-16` in that order. In
  `pyopendataes`, CSV is read once, with pandas' default encoding.
- **The metadata views** of `OpenDataSet` and `Distribution` (modules
  `Metadata`, `DatosgobesDataset` and `PyopendataesDataset`). These are the
  dataset id taken from the URL, the language → text maps `title` and
  `description`, keywords grouped by language, the distribution list, and the
  filter by format.
- **`Manager`** (modules `Paging`, `DatosgobesManager` and
  `PyopendataesManager`). It walks the catalogue's listing and search pages, keeps
  the last result in the `_search_result` cache (`datosgobes` only), and turns
  listing entries into `OpenDataSet`s.

How the outside world is represented:

- The HTTP layer is a function from URL to `Fetch`. A `Fetch` is either a raised
  exception or a response holding a status, an optional `Content-Type` and the body
  as a sequence of chunks. A chunk may be `Broken`, which stands for a fault while
  the body is streamed.
- The pandas readers are uninterpreted `Option`-returning functions, gathered in
  `Decoders`. Encodings are opaque tags.
- The file system is a `FileSystem` object that maps each path to its bytes.
- Python exceptions are `Result` values (`Ok` or `Raises`). For a metadata document
  whose fields have the shapes the datatypes give them, every `KeyError` and
  `TypeError` the source can raise is a case of the model, not a precondition. The
  shapes the datatypes cannot express are listed under "Left out".
- A missing output path (`None` or `""`, both falsy) is written `""`.
- The metadata document, which the source fetches on every property access, is a
  parameter of type `DatasetMeta`.
- The catalogue API is a `Portal` object. It answers each URL with a page (its
  `items` and `next`) or an exception, and it logs every URL it is asked for. The
  log is how the model states what a walk fetches.

Three behaviours of the code that a reader might not expect:

- Without an output file, an absent or empty `Content-Type` gives `None`, not the
  raw bytes.
- A decoding or transport failure gives `None`, not an explicit failure value.
- A stream that breaks part-way leaves the file holding the chunks written so far,
  and the result is `None`.

## Model

| member | source | states |
|---|---|---|
| `Web.Classify` | datosgobes/data_download.py:35-56 | the prefix chain selects branch csv, json, ms-excel or openxml exactly when the Content-Type starts with that prefix, and the raw-bytes branch exactly when it starts with none of them |
| `Web.PrefixesExclusive` | datosgobes/data_download.py:36-53 | no Content-Type starts with two of the four prefixes, so the first test that matches is the only one that could |
| `Web.Content` | datosgobes/data_download.py:45 | `response.content` is available exactly when no chunk breaks, and it is then the in-order concatenation of the chunks |
| `Web.WrittenCons` | datosgobes/data_download.py:29-30 | the bytes the chunk loop writes are the first chunk's bytes followed by the bytes of the rest |
| `Web.FileSystem.Open` | datosgobes/data_download.py:28 | opening in `'wb'` mode creates or truncates that one file and leaves every other file unchanged |
| `Web.FileSystem.Write` | datosgobes/data_download.py:30 | a write appends to that one file and leaves every other file unchanged |
| `Web.SaveToFile` | datosgobes/data_download.py:27-31 | after the chunk loop, the file holds the chunks delivered before any break, in order (the whole body when the stream is intact), no other file changes, and the loop completes exactly when the body is intact |
| `DatosgobesDownload.FirstSuccess` | datosgobes/data_download.py:37-42 | the ladder gives `None` exactly when every encoding fails; otherwise it gives the table of some encoding, and every earlier encoding failed |
| `DatosgobesDownload.ReadCsv` | datosgobes/data_download.py:37-42 | the `for encoding` loop with early return computes the first success over `utf-8`, `latin-1`, `cp1252`, `utf-16` |
| `DatosgobesDownload.LadderOutcome` | datosgobes/data_download.py:37-42 | for each of the four encodings: it is returned when it succeeds and every earlier one failed; the result is `None` exactly when all four fail |
| `DatosgobesDownload.LadderDependsOnTried` | datosgobes/data_download.py:38-42 | the ladder's result depends only on the reads of the encodings it reaches: two readers that agree on each encoding tried after every earlier one failed give the same result, whatever they answer for the encodings after the first success |
| `DatosgobesDownload.Resolved` | datosgobes/data_download.py:33-59 | a missing or empty Content-Type gives `None`; each prefix gives its own decoder's table, or `None` when that decoder fails; an unrecognised Content-Type gives the body's bytes when the body is intact and `None` when it breaks |
| `DatosgobesDownload.InMemory` | datosgobes/data_download.py:21-56 | a transport exception or a non-200 status gives `None`; anything else than `None` needs a 200 response with a non-empty Content-Type |
| `DatosgobesDownload.SelectedDecoderDecides` | datosgobes/data_download.py:36-53 | only the decoder the matching prefix selects influences the result: decoders that agree on it give the same outcome |
| `DatosgobesDownload.DownloadData` | datosgobes/data_download.py:20-61 | a transport exception or a non-200 status gives `None` and writes nothing; with an output file the result is `None` and the file holds the streamed body; without one the result is the in-memory resolution and no file changes |
| `PyopendataesDownload.Resolved` | pyopendataes/src/data_download.py:31-52 | as in `datosgobes` (including `None` for an unrecognised Content-Type whose body breaks), except that `text/csv` gives the single default-encoding read's table, or `None` |
| `PyopendataesDownload.InMemory` | pyopendataes/src/data_download.py:19-49 | a transport exception or a non-200 status gives `None`; anything else than `None` needs a 200 response with a non-empty Content-Type |
| `PyopendataesDownload.SingleCsvAttempt` | pyopendataes/src/data_download.py:35-36 | `text/csv` depends on one read only: its table when it succeeds, `None` when it fails, whatever the other encodings would give |
| `PyopendataesDownload.AgreesWithDatosgobesOutsideCsv` | pyopendataes/src/data_download.py:34-49 | outside `text/csv`, the two lineages resolve every response identically |
| `PyopendataesDownload.LadderExtendsSingleAttempt` | pyopendataes/src/data_download.py:35-36 | when the default encoding reads as UTF-8 does, a table found by the single attempt is also found by the `datosgobes` ladder, and a ladder that finds nothing means the single attempt found nothing |
| `PyopendataesDownload.DownloadData` | pyopendataes/src/data_download.py:18-54 | a transport exception or a non-200 status gives `None` and writes nothing; with an output file the result is `None` and the file holds the streamed body; without one the result is the in-memory resolution |
| `Metadata.Split` | datosgobes/opendataset.py:14 | `str.split('/')` yields at least one piece, and no piece holds the separator |
| `Metadata.SplitJoin` | datosgobes/opendataset.py:14 | joining the pieces of a split gives the string back |
| `Metadata.DatasetId` | datosgobes/opendataset.py:14 | `url.split('/')[-1]` holds no `/` |
| `Metadata.IdIsLastSegment` | datosgobes/opendataset.py:14 | the URL ends with the id, and the id is either the whole URL or preceded by a `/` |
| `Metadata.IdUnique` | datosgobes/opendataset.py:14 | those three facts determine the id: any such suffix of the URL is the id |
| `Metadata.IdAfterSlash` | datosgobes/opendataset.py:14 | a `/`-free id placed after a `/` is what the split recovers |
| `Metadata.DatasetIdSnoc` | datosgobes/opendataset.py:14 | appending `/` to a URL makes its id empty, and appending any other character extends the id by that character |
| `Metadata.LangMap` | datosgobes/opendataset.py:37 | the comprehension raises exactly when some entry lacks `_lang` or `_value`, and then raises the `KeyError` of the first such entry |
| `Metadata.LangMapLastWins` | datosgobes/opendataset.py:37 | the map's key set is exactly the set of languages present, and a repeated language maps to its last entry's value |
| `Metadata.LangsSnoc` | datosgobes/opendataset.py:37 | the languages of a list of entries are those of all but the last, plus the last entry's |
| `Metadata.LangMapMeetsSpec` | datosgobes/opendataset.py:43 | the comprehension result satisfies the full language-map specification (keys, last value wins, first failing entry) |
| `Metadata.ListOf` | datosgobes/opendataset.py:54 | `list(values)` is a duplicate-free list holding exactly the elements of the set |
| `Metadata.GroupSets` | datosgobes/opendataset.py:49-53 | the `setdefault(...).add` loop maps each language present, and only those, to the set of values given for it, or raises at the first malformed entry |
| `Metadata.ListValues` | datosgobes/opendataset.py:54 | the final comprehension keeps the key set, and each list is duplicate-free and holds exactly its set |
| `Metadata.GroupKeywords` | datosgobes/opendataset.py:48-54 | keys are exactly the languages present; each list is duplicate-free and, as a set, equals the values given for its language; a malformed entry raises at the first one |
| `Metadata.SnocLangs` | datosgobes/opendataset.py:50-53 | one well-formed entry adds its language to the key set, and its value to that language's set only |
| `Seqs.Filter` | datosgobes/opendataset.py:72-76 | the accumulating filter keeps only elements that pass the test and never grows the list |
| `Seqs.FilterAppend` | datosgobes/opendataset.py:73-75 | filtering a concatenation concatenates the filtered parts, so relative order is preserved |
| `Seqs.FilterMembership` | datosgobes/opendataset.py:74 | an element is kept exactly when it occurs in the input and passes the test |
| `Seqs.FilterCount` | datosgobes/opendataset.py:73-75 | every kept element is kept as many times as it occurs in the input |
| `DatosgobesDataset.NewOpenDataSet` | datosgobes/opendataset.py:12-14 | the object keeps the URL, and its id is the last `/`-free segment of the URL |
| `DatosgobesDataset.Title` | datosgobes/opendataset.py:35-38 | `title` is the language map of the `title` entries, and it is empty when the field is missing |
| `DatosgobesDataset.Description` | datosgobes/opendataset.py:41-44 | `description` is the language map of the `description` entries, and it is empty when the field is missing |
| `DatosgobesDataset.Keywords` | datosgobes/opendataset.py:47-54 | `keywords` groups the keyword entries as `Metadata.GroupKeywords` states |
| `DatosgobesDataset.Format` | datosgobes/opendataset.py:104 | a missing `format` raises `TypeError`, a format without `value` raises `KeyError`, and a format with `value` gives that value |
| `DatosgobesDataset.Titles` | datosgobes/opendataset.py:109 | `titles` is the language map of the distribution's `title` entries |
| `DatosgobesDataset.Objects` | datosgobes/opendataset.py:62-66 | one `Distribution` per metadata entry, same length, same order |
| `DatosgobesDataset.Distributions` | datosgobes/opendataset.py:62-66 | the append loop yields one `Distribution` per metadata entry, same length, same order |
| `DatosgobesDataset.ByFormat` | datosgobes/opendataset.py:68-76 | the result is the order-preserving filter on `format == f`; it raises exactly when some distribution's format cannot be read, and then raises that of the first one |
| `DatosgobesDataset.GetDistributionByFormat` | datosgobes/opendataset.py:68-76 | the loop over `self.distributions` computes `ByFormat` of the document's distributions |
| `DatosgobesDataset.ByFormatSelects` | datosgobes/opendataset.py:68-76 | a distribution is in the result exactly when it is in the document and has format `f`, and it occurs as often as in the document |
| `DatosgobesDataset.DownloadData` | datosgobes/opendataset.py:111-126 | `download_data(self.access_url, output_file)`; a missing access URL gives `None` and writes nothing |
| `DatosgobesDataset.Data` | datosgobes/opendataset.py:128-136 | a missing or empty access URL gives `None` whatever `web` answers; otherwise the result is the in-memory `download_data` of the access URL; no file changes |
| `PyopendataesDataset.NewOpenDataSet` | pyopendataes/src/opendataset.py:7-9 | the object keeps the URL, and its id is the last `/`-free segment of the URL |
| `PyopendataesDataset.Title` | pyopendataes/src/opendataset.py:27-30 | `title` is the language map of the `title` entries, and it is empty when the field is missing |
| `PyopendataesDataset.Description` | pyopendataes/src/opendataset.py:33-36 | `description` is the language map of the `description` entries (last value wins), and it is empty when the field is missing |
| `PyopendataesDataset.Keywords` | pyopendataes/src/opendataset.py:39-46 | `keywords` groups the keyword entries as `Metadata.GroupKeywords` states |
| `PyopendataesDataset.Info` | pyopendataes/src/opendataset.py:67-72 | the dict is built exactly when the entry has a `format` with a `value` and well-formed titles; it then has `accessURL`, `byteSize`, `format` (the entry's `format.value`) and `titles` (the language map of its titles); a missing format raises `TypeError`, a format without `value` raises `KeyError`, both before the titles are read, and a malformed title raises that title's `KeyError` |
| `PyopendataesDataset.InfoList` | pyopendataes/src/opendataset.py:64-74 | one dict per entry, in order, or the exception of the first entry that raises |
| `PyopendataesDataset.Distributions` | pyopendataes/src/opendataset.py:59-74 | the append loop computes `InfoList` of the document's distribution entries |
| `PyopendataesDataset.GetDistributionByFormat` | pyopendataes/src/opendataset.py:49-57 | raises what `distributions` raises; otherwise it is the order-preserving filter on `d['format'] == f` |
| `PyopendataesDataset.SelectByFormat` | pyopendataes/src/opendataset.py:53-57 | the `+=` loop computes the order-preserving filter on `d['format'] == f` |
| `Paging.NextUrl` | datosgobes/manager.py:39-40 | the walk's next URL is empty, so the walk stops, exactly when `next` is null or empty |
| `Paging.Requested` | datosgobes/manager.py:26-42 | the URLs a walk fetches; none exactly when the start URL is empty or the page budget is not positive |
| `Paging.Collected` | datosgobes/manager.py:25-43 | what a walk returns or raises; with an empty start URL or no budget, the empty list |
| `Paging.RaisedByRequestedPage` | datosgobes/manager.py:29-30 | an exception out of the walk is the one that fetching or decoding one of the requested URLs raised |
| `Paging.Portal.Get` | datosgobes/manager.py:29-30 | a fetch returns the portal's page for that URL and appends the URL to the request log |
| `Paging.WalkStep` | datosgobes/manager.py:29-40 | a page that does not raise is fetched and contributes its items first, and the walk continues at its `next` link with one page less |
| `Paging.RequestedBound` | datosgobes/manager.py:26-27 | the walk makes at most `pages_limit` fetches, none when `pages_limit <= 0`, and the first is at the start URL |
| `Paging.RequestedChain` | datosgobes/manager.py:38-40 | every fetched URL is non-empty, and each fetch after the first is at the `next` link of the page fetched before it |
| `Paging.RequestedEndsAtLastPage` | datosgobes/manager.py:39-40 | a fetched page whose `next` is empty or null is the last page fetched |
| `Paging.StopsAtLastPage` | pyopendataes/src/manager.py:34-35 | a first page with an empty `next` ends the walk after one fetch, with that page's items |
| `Paging.CollectedIsConcatenation` | datosgobes/manager.py:33-36 | the walk succeeds exactly when every page it fetches does, and then returns the concatenation of those pages' items in fetch order |
| `Paging.WalkPages` | datosgobes/manager.py:24-43 | the `while` loop requests exactly the URLs of `Requested` and returns `Collected`; an exception from a fetch propagates |
| `DatosgobesManager.ListUrl` | datosgobes/manager.py:24 | the listing's first URL: the API base, `/catalog/dataset.json?_page=` and the decimal start page |
| `DatosgobesManager.QueryUrl` | datosgobes/manager.py:57 | the search's first URL: the API base, `/catalog/dataset/title/`, the query, `.json?_page=` and the decimal start page |
| `DatosgobesManager.Walk` | datosgobes/manager.py:24-43 | `pages_limit=None` raises `TypeError` before any fetch, and a non-positive limit gives the empty list |
| `DatosgobesManager.Cached` | datosgobes/manager.py:89 | the cache is reused exactly when it is truthy: present and non-empty |
| `DatosgobesManager.Manager.constructor` | datosgobes/manager.py:9-11 | a new manager starts with no cached result |
| `DatosgobesManager.ListingStartsAtStartPage` | datosgobes/manager.py:24-27 | the listing fetches at most `pages_limit` pages, and the first is page `start_page` of the listing |
| `DatosgobesManager.Manager.ListDatasets` | datosgobes/manager.py:13-43 | `_list_datasets` walks from the listing URL of `start_page`; `pages_limit=None` raises `TypeError` before any fetch |
| `DatosgobesManager.Manager.QueryDatasets` | datosgobes/manager.py:45-76 | `_query_datasets` runs the same walk from the title-search URL of `query` and `start_page` |
| `DatosgobesManager.Manager.GetDatasets` | datosgobes/manager.py:78-96 | a non-empty cache is reused whatever the arguments, and nothing is fetched; otherwise the listing walk runs; on success the cache holds the walk's entries (an empty list when `pages_limit <= 0`, which fetches nothing), and on an exception (`pages_limit=None` raises `TypeError` before any fetch) the cache is unchanged and the exception propagates; otherwise the result is `DatasetsOf` the cached entries: one dataset per entry in order, or the `KeyError` of the first entry without `_about`, with the cache already updated |
| `DatosgobesManager.Manager.SearchDatasets` | datosgobes/manager.py:98-115 | the search always runs the title-search walk; on success the cache holds the walk's entries (none fetched when `pages_limit <= 0`), and on an exception (`pages_limit=None` raises `TypeError` before any fetch) the cache is unchanged and the exception propagates; otherwise the result is `DatasetsOf` the entries: one dataset per entry in order, or the `KeyError` of the first entry without `_about`, with the cache already updated |
| `DatosgobesManager.CreateDataset` | datosgobes/manager.py:117-128 | the dataset's URL is the entry's `_about`; an entry without `_about` raises `KeyError` |
| `DatosgobesManager.DatasetsOf` | datosgobes/manager.py:92-95 | one `OpenDataSet` per entry, same length and order, `url = entry["_about"]`; otherwise the `KeyError` of the first entry without `_about` |
| `Py.MapOrRaise` | datosgobes/manager.py:93-95 | an append loop whose step may raise yields one result per element in order, or raises exactly when some element raises, with the exception of the first such element |
| `DatosgobesManager.CreateDatasets` | datosgobes/manager.py:112-115 | the append loop over the cached entries computes `DatasetsOf` |
| `DatosgobesManager.GetDataset` | datosgobes/manager.py:130-140 | the URL is `base + "/catalog/dataset/" + id`, and the result's id is `id` whenever `id` holds no `/` |
| `PyopendataesManager.ListUrl` | pyopendataes/src/manager.py:19 | the listing's first URL: the API base, `/catalog/dataset.json?_page=` and the decimal start page |
| `PyopendataesManager.Listing` | pyopendataes/src/manager.py:19-39 | `pages_limit=None` raises `TypeError` before any fetch, and a non-positive limit gives the empty list |
| `PyopendataesManager.ListDatasets` | pyopendataes/src/manager.py:9-39 | `list_datasets` walks from the listing URL of `start_page`; `pages_limit=None` raises `TypeError` before any fetch |
| `PyopendataesManager.ListingShape` | pyopendataes/src/manager.py:19-37 | at most `pages_limit` fetches, the first at page `start_page`; on success, the items of the fetched pages in fetch order |
| `PyopendataesManager.CreateDataset` | pyopendataes/src/manager.py:41-45 | as written: an entry without `_about` raises `KeyError`, and every other entry raises `AttributeError` for `_extract_from_meta` |
| `PyopendataesManager.CreateDatasetAlwaysRaises` | pyopendataes/src/manager.py:43 | no listing entry can ever be turned into a dataset |
| `PyopendataesManager.CreateDatasetIntended` | pyopendataes/src/manager.py:41-42 | as intended: the dataset whose URL is the entry's `_about`, or `KeyError` without it |
| `PyopendataesManager.CreateDatasetIntendedSucceeds` | pyopendataes/src/manager.py:41-45 | for a catalogue dataset URL the intended version yields the dataset with that id, where the version as written raises |

## Left out

- HTTP itself is left out: redirects, the 10-second timeout, headers other than
  `Content-Type`, and the network fetch behind the `metadata` property. Responses,
  pages and metadata documents are parameters or oracles.
- What pandas does inside `read_csv`, `read_json` and `read_excel` is left out, and
  so are real character encodings. Decoders are uninterpreted functions, and an
  encoding is a tag. The tag `PandasDefault` stands for a call without an encoding.
- The real file system is left out. A file is a byte sequence in a path → bytes map.
- The `print` diagnostics and the `__repr__` strings are left out, because they are
  output only.
- `publisher_data_url`, which is `metadata.get('identifier')`, is not modelled:
  the metadata record has no `identifier` field.
- `byte_size` and `access_url` are plain `dict.get` reads. They appear only as
  fields of the metadata record.
- Metadata documents whose fields have another JSON shape than the datatypes give
  them are left out, because each field has a single type in the model. In the
  source these raise, and the model has no case for them:
  - a field present as JSON `null`: `metadata.get('title', [])` gives `None` and
    iterating it raises `TypeError` (the model's `None` means an absent field and
    gives the empty map);
  - a multilingual field given as one object instead of a list: iterating it yields
    its keys, and `d['_lang']` on a string raises `TypeError`;
  - a `format` that is a string: `'...'['value']` raises `TypeError`;
  - a non-string `_about` or URL: `.split('/')` raises `AttributeError`.
- The `data` property's "no download" is stated only as a result: `web` is a pure
  function with no request log, so the contract of `DatosgobesDataset.Data` says the
  result is `None` whatever `web` answers, not that no request was made.
- `DatosgobesDataset.Distributions`: the source re-fetches the metadata document on
  every property access. The model reads one document, so it does not show that two
  accesses may see different documents.
- The `if pages_limit is not None: i += 1` guard of the page loop is taken as
  always true, because a `None` limit has already raised `TypeError` at the loop
  test.
- `Metadata.ListOf`: Python's order for `list(set)` is unspecified, so the contract
  fixes only the elements and the absence of duplicates, not the order.
- The `title`, `description`, `titles` and `keywords` dicts keep Python's insertion
  order, which is the order in which each language first occurs. A Dafny `map` has
  no order, so the model states the keys and values but not that order.
- Page numbers in the start URLs are rendered as decimal text by
  `Paging.IntToString`. Nothing is proved about that rendering.

## Findings

| source | as written | input that shows it | evidently intended | confidence | as-written member | corrected member |
|---|---|---|---|---|---|---|
| pyopendataes/src/manager.py:43 | `_create_dataset` calls `dataset._extract_from_meta(dataset_meta)`, which `OpenDataSet` in pyopendataes/src/opendataset.py does not define | any entry with `_about`, e.g. `{"_about": "http://datos.gob.es/apidata/catalog/dataset/a"}`, raises `AttributeError` | return `OpenDataSet(url=dataset_meta["_about"])`, as the `datosgobes` lineage does | high (not executed) | `PyopendataesManager.CreateDatasetAlwaysRaises` | `PyopendataesManager.CreateDatasetIntendedSucceeds` |
