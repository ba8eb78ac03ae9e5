/** What `download_data` sees of the outside world, shared by both lineages:
    the HTTP response, the pandas decoders (as uninterpreted oracles), the
    local file system, and the ordered `Content-Type` prefix chain, which the two
    lineages have in identical form. */
module Web {
  import opened Py

  newtype byte = x: int | 0 <= x < 256
  type Bytes = seq<byte>

  /** One item of `response.iter_content(1024)`: a block of bytes, or a
      transport fault raised while the body is being streamed. */
  datatype Chunk = Data(bytes: Bytes) | Broken

  /** The parts of a `requests` response that `download_data` reads. */
  datatype Response = Response(status: int, contentType: Option<string>, chunks: seq<Chunk>)

  /** The outcome of `requests.get(url, ...)`: it raised, or it gave a response. */
  datatype Fetch = Failed | Received(response: Response)

  /** A pandas DataFrame, taken as an opaque value. */
  datatype Table = Table(columns: seq<string>, rows: seq<seq<string>>)

  /** Character-encoding tags passed to `pd.read_csv`; `PandasDefault` is a call
      that passes none. */
  datatype Encoding = Utf8 | Latin1 | Cp1252 | Utf16 | PandasDefault

  /** The `engine=` argument of `pd.read_excel`. */
  datatype ExcelEngine = Xlrd | Openpyxl

  /** The pandas readers. Each one either yields a table or raises (`None`).
      `csv` and `excel` read the URL themselves; `json` reads the buffered body. */
  datatype Decoders = Decoders(
    csv: (string, Encoding) -> Option<Table>,
    json: Bytes -> Option<Table>,
    excel: (string, ExcelEngine) -> Option<Table>)

  /** What `download_data` returns: Python `None`, a DataFrame, or raw bytes. */
  datatype Returned = NoValue | DataFrame(table: Table) | RawContent(bytes: Bytes)

  /** A decoder's outcome as a return value: a table, or `None` when it raised. */
  function FromTable(t: Option<Table>): Returned
  {
    if t.Some? then DataFrame(t.value) else NoValue
  }

  const CsvPrefix := "text/csv"
  const JsonPrefix := "application/json"
  const XlsPrefix := "application/vnd.ms-excel"
  // application/vnd.openxmlformats-officedocument.spreadsheetml.sheet, written in
  // pieces so that the verifier can inspect its characters
  const XlsxPrefix := "application/vnd." + "openxmlformats-" + "officedocument." + "spreadsheetml.sheet"

  /** The branch of the `if`/`elif` chain a Content-Type selects. */
  datatype Kind = Csv | Json | Xls | Xlsx | Unknown

  /** No Content-Type starts with two of the four registered prefixes. */
  lemma PrefixesExclusive(ct: string)
    ensures !(StartsWith(ct, CsvPrefix) && StartsWith(ct, JsonPrefix))
    ensures !(StartsWith(ct, CsvPrefix) && StartsWith(ct, XlsPrefix))
    ensures !(StartsWith(ct, CsvPrefix) && StartsWith(ct, XlsxPrefix))
    ensures !(StartsWith(ct, JsonPrefix) && StartsWith(ct, XlsPrefix))
    ensures !(StartsWith(ct, JsonPrefix) && StartsWith(ct, XlsxPrefix))
    ensures !(StartsWith(ct, XlsPrefix) && StartsWith(ct, XlsxPrefix))
  {
    PrefixesDisagree(ct, CsvPrefix, JsonPrefix, 0);
    PrefixesDisagree(ct, CsvPrefix, XlsPrefix, 0);
    PrefixesDisagree(ct, CsvPrefix, XlsxPrefix, 0);
    PrefixesDisagree(ct, JsonPrefix, XlsPrefix, 12);
    PrefixesDisagree(ct, JsonPrefix, XlsxPrefix, 12);
    PrefixesDisagree(ct, XlsPrefix, XlsxPrefix, 16);
  }

  /** The prefix chain of `download_data`, tested csv, json, ms-excel, openxml in
      that order. Because no Content-Type matches two prefixes, the branch taken
      is exactly the prefix that matches, whatever the order. */
  function Classify(ct: string): (k: Kind)
    ensures k == Csv <==> StartsWith(ct, CsvPrefix)
    ensures k == Json <==> StartsWith(ct, JsonPrefix)
    ensures k == Xls <==> StartsWith(ct, XlsPrefix)
    ensures k == Xlsx <==> StartsWith(ct, XlsxPrefix)
    ensures k == Unknown <==>
      !StartsWith(ct, CsvPrefix) && !StartsWith(ct, JsonPrefix) &&
      !StartsWith(ct, XlsPrefix) && !StartsWith(ct, XlsxPrefix)
  {
    PrefixesExclusive(ct);
    if StartsWith(ct, CsvPrefix) then Csv
    else if StartsWith(ct, JsonPrefix) then Json
    else if StartsWith(ct, XlsPrefix) then Xls
    else if StartsWith(ct, XlsxPrefix) then Xlsx
    else Unknown
  }

  /** The number of chunks delivered before the stream breaks. */
  function IntactPrefix(cs: seq<Chunk>): (n: nat)
    ensures n <= |cs|
    ensures forall j :: 0 <= j < n ==> cs[j].Data?
    ensures n < |cs| ==> cs[n].Broken?
  {
    if cs == [] then 0
    else if cs[0].Broken? then 0
    else 1 + IntactPrefix(cs[1..])
  }

  /** The bytes of a run of intact chunks, in order. */
  function Flatten(cs: seq<Chunk>): Bytes
    requires forall j :: 0 <= j < |cs| ==> cs[j].Data?
  {
    if cs == [] then [] else Flatten(cs[..|cs| - 1]) + cs[|cs| - 1].bytes
  }

  /** What the chunk loop leaves in the output file: every chunk delivered
      before the stream broke (the whole body when it did not). */
  function Written(cs: seq<Chunk>): Bytes {
    Flatten(cs[..IntactPrefix(cs)])
  }

  /** `response.content`: the whole body, or `None` when reading it raises. */
  function Content(cs: seq<Chunk>): (r: Option<Bytes>)
    ensures r.Some? <==> forall j :: 0 <= j < |cs| ==> cs[j].Data?
    ensures r.Some? ==> r.value == Written(cs)
  {
    if IntactPrefix(cs) == |cs| then (assert cs[..|cs|] == cs; Some(Flatten(cs))) else None
  }

  /** The bytes of consecutive chunk runs are the concatenation of each run's bytes. */
  lemma {:induction false} FlattenAppend(a: seq<Chunk>, b: seq<Chunk>)
    requires forall j :: 0 <= j < |a| ==> a[j].Data?
    requires forall j :: 0 <= j < |b| ==> b[j].Data?
    ensures Flatten(a + b) == Flatten(a) + Flatten(b)
    decreases |b|
  {
    if b == [] {
      assert a + b == a;
    } else {
      var b' := b[..|b| - 1];
      assert (a + b)[..|a + b| - 1] == a + b';
      FlattenAppend(a, b');
    }
  }

  /** A file's contents after an intact stream is the body chunk after chunk:
      the first chunk's bytes followed by the rest. */
  lemma WrittenCons(c: Bytes, rest: seq<Chunk>)
    ensures Written([Data(c)] + rest) == c + Written(rest)
  {
    var cs := [Data(c)] + rest;
    assert cs[1..] == rest;
    var n := IntactPrefix(rest);
    assert cs[..1 + n] == [Data(c)] + rest[..n];
    FlattenAppend([Data(c)], rest[..n]);
    assert Flatten([Data(c)]) == Flatten([]) + c;
  }

  /** The local file system, reduced to path -> contents. */
  class FileSystem {
    var files: map<string, Bytes>

    constructor (files: map<string, Bytes>)
      ensures this.files == files
    {
      this.files := files;
    }

    /** `open(path, 'wb')`: creates the file or truncates it. */
    method Open(path: string)
      modifies this
      ensures files == old(files)[path := []]
    {
      files := files[path := []];
    }

    /** `f.write(data)` on an open file: appends. */
    method Write(path: string, data: Bytes)
      requires path in files
      modifies this
      ensures files == old(files)[path := old(files)[path] + data]
    {
      files := files[path := files[path] + data];
    }
  }

  /** The `with open(output_file, 'wb')` block of `download_data`: writes each
      chunk as it arrives; a broken stream raises and leaves the chunks already
      written. `ok` says whether the loop ran to completion. */
  method SaveToFile(fs: FileSystem, path: string, cs: seq<Chunk>) returns (ok: bool)
    modifies fs
    ensures fs.files == old(fs.files)[path := Written(cs)]
    ensures ok <==> Content(cs).Some?
  {
    fs.Open(path);
    var i := 0;
    while i < |cs|
      invariant 0 <= i <= |cs|
      invariant forall j :: 0 <= j < i ==> cs[j].Data?
      invariant fs.files == old(fs.files)[path := Flatten(cs[..i])]
    {
      if cs[i].Broken? {
        assert IntactPrefix(cs) == i;
        return false;
      }
      fs.Write(path, cs[i].bytes);
      assert cs[..i + 1][..i] == cs[..i];
      i := i + 1;
    }
    assert cs[..i] == cs;
    ok := true;
  }
}
