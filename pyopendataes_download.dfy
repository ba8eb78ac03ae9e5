/** `download_data` of the older `pyopendataes` lineage
    (pyopendataes/src/data_download.py): the same status check, save-to-file
    path and Content-Type dispatch as `datosgobes`, but a single CSV attempt
    with pandas' default encoding instead of an encoding ladder. */
module PyopendataesDownload {
  import opened Py
  import opened Web
  import DatosgobesDownload

  /** What a 200 response yields when no output file is given. */
  function Resolved(resp: Response, url: string, dec: Decoders): (r: Returned)
    ensures !Truthy(resp.contentType) ==> r == NoValue
    ensures Truthy(resp.contentType) && StartsWith(resp.contentType.value, CsvPrefix) ==>
      r == FromTable(dec.csv(url, PandasDefault))
    ensures Truthy(resp.contentType) && StartsWith(resp.contentType.value, JsonPrefix) ==>
      r == if Content(resp.chunks).Some? then FromTable(dec.json(Content(resp.chunks).value)) else NoValue
    ensures Truthy(resp.contentType) && StartsWith(resp.contentType.value, XlsPrefix) ==>
      r == FromTable(dec.excel(url, Xlrd))
    ensures Truthy(resp.contentType) && StartsWith(resp.contentType.value, XlsxPrefix) ==>
      r == FromTable(dec.excel(url, Openpyxl))
    ensures r.RawContent? <==>
      Truthy(resp.contentType) && Classify(resp.contentType.value) == Unknown && Content(resp.chunks).Some?
    ensures r.RawContent? ==> r.bytes == Written(resp.chunks)
    ensures Truthy(resp.contentType) && Classify(resp.contentType.value) == Unknown ==>
      r == if Content(resp.chunks).Some? then RawContent(Content(resp.chunks).value) else NoValue
  {
    if !Truthy(resp.contentType) then NoValue
    else
      match Classify(resp.contentType.value)
      case Csv => FromTable(dec.csv(url, PandasDefault))
      case Json =>
        var body := Content(resp.chunks);
        if body.Some? then FromTable(dec.json(body.value)) else NoValue
      case Xls => FromTable(dec.excel(url, Xlrd))
      case Xlsx => FromTable(dec.excel(url, Openpyxl))
      case Unknown =>
        var body := Content(resp.chunks);
        if body.Some? then RawContent(body.value) else NoValue
  }

  /** The result of `download_data(url)` without an output file. */
  function InMemory(fetch: Fetch, url: string, dec: Decoders): (r: Returned)
    ensures fetch.Failed? || fetch.response.status != 200 ==> r == NoValue
    ensures r != NoValue ==> fetch.Received? && fetch.response.status == 200 && Truthy(fetch.response.contentType)
  {
    if fetch.Failed? || fetch.response.status != 200 then NoValue
    else Resolved(fetch.response, url, dec)
  }

  /** For `text/csv` the outcome depends on one CSV read only, with no encoding
      given: whatever the other encodings would yield, a failed read is `None`. */
  lemma SingleCsvAttempt(resp: Response, url: string, dec: Decoders)
    requires Truthy(resp.contentType) && StartsWith(resp.contentType.value, CsvPrefix)
    ensures dec.csv(url, PandasDefault).None? ==> Resolved(resp, url, dec) == NoValue
    ensures dec.csv(url, PandasDefault).Some? ==> Resolved(resp, url, dec) == DataFrame(dec.csv(url, PandasDefault).value)
    ensures forall other: Decoders ::
      other.csv(url, PandasDefault) == dec.csv(url, PandasDefault) ==> Resolved(resp, url, other) == Resolved(resp, url, dec)
  {
  }

  /** Outside `text/csv` the two lineages resolve a response identically. */
  lemma AgreesWithDatosgobesOutsideCsv(resp: Response, url: string, dec: Decoders)
    requires !Truthy(resp.contentType) || !StartsWith(resp.contentType.value, CsvPrefix)
    ensures Resolved(resp, url, dec) == DatosgobesDownload.Resolved(resp, url, dec)
  {
  }

  /** For `text/csv`, when pandas' default encoding reads as UTF-8 does, the
      single attempt is the first rung of the `datosgobes` ladder: whatever it
      finds the ladder finds too, and the ladder can only recover more. */
  lemma LadderExtendsSingleAttempt(resp: Response, url: string, dec: Decoders)
    requires Truthy(resp.contentType) && StartsWith(resp.contentType.value, CsvPrefix)
    requires dec.csv(url, PandasDefault) == dec.csv(url, Utf8)
    ensures Resolved(resp, url, dec).DataFrame? ==>
      DatosgobesDownload.Resolved(resp, url, dec) == Resolved(resp, url, dec)
    ensures DatosgobesDownload.Resolved(resp, url, dec) == NoValue ==> Resolved(resp, url, dec) == NoValue
  {
    DatosgobesDownload.LadderOutcome(dec.csv, url);
  }

  /** `download_data(url, output_file)`. `web` is what `requests.get` gives for
      each URL; `outputFile == ""` stands for a missing (falsy) output path. */
  method DownloadData(web: string -> Fetch, url: string, dec: Decoders, fs: FileSystem, outputFile: string := "")
    returns (r: Returned)
    modifies fs
    ensures web(url).Failed? || web(url).response.status != 200 ==>
      r == NoValue && fs.files == old(fs.files)
    ensures web(url).Received? && web(url).response.status == 200 && outputFile != "" ==>
      r == NoValue && fs.files == old(fs.files)[outputFile := Written(web(url).response.chunks)]
    ensures outputFile == "" ==> r == InMemory(web(url), url, dec) && fs.files == old(fs.files)
  {
    var fetch := web(url);
    if fetch.Failed? {
      return NoValue;
    }
    var response := fetch.response;
    if response.status != 200 {
      return NoValue;
    }
    var contentType := response.contentType;
    if outputFile != "" {
      var completed := SaveToFile(fs, outputFile, response.chunks);
      return NoValue;
    }
    if !Truthy(contentType) {
      return NoValue;
    }
    match Classify(contentType.value) {
      case Csv =>
        r := FromTable(dec.csv(url, PandasDefault));
      case Json =>
        var body := Content(response.chunks);
        r := if body.Some? then FromTable(dec.json(body.value)) else NoValue;
      case Xls =>
        r := FromTable(dec.excel(url, Xlrd));
      case Xlsx =>
        r := FromTable(dec.excel(url, Openpyxl));
      case Unknown =>
        var body := Content(response.chunks);
        r := if body.Some? then RawContent(body.value) else NoValue;
    }
  }
}
