/** `download_data` of the `datosgobes` package (datosgobes/data_download.py):
    status check, save-to-file path, Content-Type dispatch, and the CSV
    encoding ladder. Every failure is caught and becomes `None`. */
module DatosgobesDownload {
  import opened Py
  import opened Web

  /** The encodings `pd.read_csv` is tried with, in order. */
  const CsvEncodings: seq<Encoding> := [Utf8, Latin1, Cp1252, Utf16]

  /** The first table `read` yields for `url` over the encodings `encs`, in order. */
  function FirstSuccess(read: (string, Encoding) -> Option<Table>, url: string, encs: seq<Encoding>): (r: Option<Table>)
    ensures r.None? <==> forall k :: 0 <= k < |encs| ==> read(url, encs[k]).None?
    ensures r.Some? ==>
      exists k :: 0 <= k < |encs| && read(url, encs[k]) == r &&
        forall j :: 0 <= j < k ==> read(url, encs[j]).None?
  {
    if encs == [] then None
    else if read(url, encs[0]).Some? then read(url, encs[0])
    else
      var r := FirstSuccess(read, url, encs[1..]);
      assert forall k :: 1 <= k < |encs| ==> encs[k] == encs[1..][k - 1];
      r
  }

  /** The `for encoding in encodings` loop: returns the first successful parse;
      when every encoding fails the loop ends and nothing is returned. */
  method ReadCsv(url: string, read: (string, Encoding) -> Option<Table>) returns (r: Option<Table>)
    ensures r == FirstSuccess(read, url, CsvEncodings)
  {
    for i := 0 to |CsvEncodings|
      invariant FirstSuccess(read, url, CsvEncodings) == FirstSuccess(read, url, CsvEncodings[i..])
    {
      var attempt := read(url, CsvEncodings[i]);
      if attempt.Some? {
        return attempt;
      }
      assert CsvEncodings[i..][1..] == CsvEncodings[i + 1..];
    }
    return None;
  }

  /** What a 200 response yields when no output file is given. */
  function Resolved(resp: Response, url: string, dec: Decoders): (r: Returned)
    ensures !Truthy(resp.contentType) ==> r == NoValue
    ensures Truthy(resp.contentType) && StartsWith(resp.contentType.value, CsvPrefix) ==>
      r == FromTable(FirstSuccess(dec.csv, url, CsvEncodings))
    ensures Truthy(resp.contentType) && StartsWith(resp.contentType.value, JsonPrefix) ==>
      r == if Content(resp.chunks).Some? then FromTable(dec.json(Content(resp.chunks).value)) else NoValue
    ensures Truthy(resp.contentType) && StartsWith(resp.contentType.value, XlsPrefix) ==>
      r == FromTable(dec.excel(url, Xlrd))
    ensures Truthy(resp.contentType) && StartsWith(resp.contentType.value, XlsxPrefix) ==>
      r == FromTable(dec.excel(url, Openpyxl))
    ensures r.RawContent? <==>
      Truthy(resp.contentType) && Classify(resp.contentType.value) == Unknown && Content(resp.chunks).Some?
    ensures r.RawContent? ==> r.bytes == Written(resp.chunks)
    ensures Truthy(resp.contentType) && Classify(resp.contentType.value) == Unknown ==>
      r == if Content(resp.chunks).Some? then RawContent(Content(resp.chunks).value) else NoValue
  {
    if !Truthy(resp.contentType) then NoValue
    else
      match Classify(resp.contentType.value)
      case Csv => FromTable(FirstSuccess(dec.csv, url, CsvEncodings))
      case Json =>
        var body := Content(resp.chunks);
        if body.Some? then FromTable(dec.json(body.value)) else NoValue
      case Xls => FromTable(dec.excel(url, Xlrd))
      case Xlsx => FromTable(dec.excel(url, Openpyxl))
      case Unknown =>
        var body := Content(resp.chunks);
        if body.Some? then RawContent(body.value) else NoValue
  }

  /** The result of `download_data(url)` without an output file. */
  function InMemory(fetch: Fetch, url: string, dec: Decoders): (r: Returned)
    ensures fetch.Failed? || fetch.response.status != 200 ==> r == NoValue
    ensures r != NoValue ==> fetch.Received? && fetch.response.status == 200 && Truthy(fetch.response.contentType)
  {
    if fetch.Failed? || fetch.response.status != 200 then NoValue
    else Resolved(fetch.response, url, dec)
  }

  /** Only the decoder that the matching prefix selects can influence the
      result: decoders that agree on it give the same outcome. */
  lemma SelectedDecoderDecides(resp: Response, url: string, d1: Decoders, d2: Decoders)
    requires Truthy(resp.contentType)
    requires StartsWith(resp.contentType.value, CsvPrefix) ==>
      forall k :: 0 <= k < |CsvEncodings| ==> d1.csv(url, CsvEncodings[k]) == d2.csv(url, CsvEncodings[k])
    requires StartsWith(resp.contentType.value, JsonPrefix) ==> d1.json == d2.json
    requires StartsWith(resp.contentType.value, XlsPrefix) ==> d1.excel(url, Xlrd) == d2.excel(url, Xlrd)
    requires StartsWith(resp.contentType.value, XlsxPrefix) ==> d1.excel(url, Openpyxl) == d2.excel(url, Openpyxl)
    ensures Resolved(resp, url, d1) == Resolved(resp, url, d2)
  {
    if StartsWith(resp.contentType.value, CsvPrefix) {
      LadderDependsOnTried(d1.csv, d2.csv, url, CsvEncodings);
    }
  }

  /** The ladder's result is determined by the answers for the encodings it
      reaches: an encoding tried only after every earlier one failed. Readers
      that differ on an encoding the ladder never reaches give the same result. */
  lemma {:induction false} LadderDependsOnTried(
    r1: (string, Encoding) -> Option<Table>, r2: (string, Encoding) -> Option<Table>,
    url: string, encs: seq<Encoding>)
    requires forall k :: 0 <= k < |encs| && (forall j :: 0 <= j < k ==> r1(url, encs[j]).None?) ==>
      r1(url, encs[k]) == r2(url, encs[k])
    ensures FirstSuccess(r1, url, encs) == FirstSuccess(r2, url, encs)
    decreases |encs|
  {
    if encs != [] && r1(url, encs[0]).None? {
      var rest := encs[1..];
      forall k | 0 <= k < |rest| && (forall j :: 0 <= j < k ==> r1(url, rest[j]).None?)
        ensures r1(url, rest[k]) == r2(url, rest[k])
      {
        assert rest[k] == encs[k + 1];
        forall j | 0 <= j < k + 1 ensures r1(url, encs[j]).None? {
          if j > 0 { assert encs[j] == rest[j - 1]; }
        }
      }
      LadderDependsOnTried(r1, r2, url, rest);
    }
  }

  /** The CSV ladder ends in `None` only when all four encodings fail, and a
      later encoding's table is returned only if every earlier one failed. */
  lemma LadderOutcome(read: (string, Encoding) -> Option<Table>, url: string)
    ensures FirstSuccess(read, url, CsvEncodings) == None <==>
      read(url, Utf8).None? && read(url, Latin1).None? && read(url, Cp1252).None? && read(url, Utf16).None?
    ensures read(url, Utf8).Some? ==> FirstSuccess(read, url, CsvEncodings) == read(url, Utf8)
    ensures read(url, Utf8).None? && read(url, Latin1).Some? ==>
      FirstSuccess(read, url, CsvEncodings) == read(url, Latin1)
    ensures read(url, Utf8).None? && read(url, Latin1).None? && read(url, Cp1252).Some? ==>
      FirstSuccess(read, url, CsvEncodings) == read(url, Cp1252)
    ensures read(url, Utf8).None? && read(url, Latin1).None? && read(url, Cp1252).None? ==>
      FirstSuccess(read, url, CsvEncodings) == read(url, Utf16)
  {
    var e := CsvEncodings;
    assert e[1..] == [Latin1, Cp1252, Utf16];
    assert e[1..][1..] == [Cp1252, Utf16];
    assert e[1..][1..][1..] == [Utf16];
    assert e[1..][1..][1..][1..] == [];
    var last := FirstSuccess(read, url, [Utf16]);
    assert last == if read(url, Utf16).Some? then read(url, Utf16) else None;
    var third := FirstSuccess(read, url, [Cp1252, Utf16]);
    assert third == if read(url, Cp1252).Some? then read(url, Cp1252) else last;
    var second := FirstSuccess(read, url, [Latin1, Cp1252, Utf16]);
    assert second == if read(url, Latin1).Some? then read(url, Latin1) else third;
    assert FirstSuccess(read, url, e) == if read(url, Utf8).Some? then read(url, Utf8) else second;
  }

  /** `download_data(url, output_file)`. `web` is what `requests.get` gives for
      each URL; `outputFile == ""` stands for a missing (falsy) output path. */
  method DownloadData(web: string -> Fetch, url: string, dec: Decoders, fs: FileSystem, outputFile: string := "")
    returns (r: Returned)
    modifies fs
    ensures web(url).Failed? || web(url).response.status != 200 ==>
      r == NoValue && fs.files == old(fs.files)
    ensures web(url).Received? && web(url).response.status == 200 && outputFile != "" ==>
      r == NoValue && fs.files == old(fs.files)[outputFile := Written(web(url).response.chunks)]
    ensures outputFile == "" ==> r == InMemory(web(url), url, dec) && fs.files == old(fs.files)
  {
    var fetch := web(url);
    if fetch.Failed? {
      return NoValue;
    }
    var response := fetch.response;
    if response.status != 200 {
      return NoValue;
    }
    var contentType := response.contentType;
    if outputFile != "" {
      var completed := SaveToFile(fs, outputFile, response.chunks);
      return NoValue;
    }
    if !Truthy(contentType) {
      return NoValue;
    }
    match Classify(contentType.value) {
      case Csv =>
        var table := ReadCsv(url, dec.csv);
        r := FromTable(table);
      case Json =>
        var body := Content(response.chunks);
        r := if body.Some? then FromTable(dec.json(body.value)) else NoValue;
      case Xls =>
        r := FromTable(dec.excel(url, Xlrd));
      case Xlsx =>
        r := FromTable(dec.excel(url, Openpyxl));
      case Unknown =>
        var body := Content(response.chunks);
        r := if body.Some? then RawContent(body.value) else NoValue;
    }
  }
}
