/** `OpenDataSet` and `Distribution` of the `datosgobes` package
    (datosgobes/opendataset.py). The metadata document, which the source fetches
    on every property access, is a parameter of each view. */
module DatosgobesDataset {
  import opened Py
  import opened Web
  import opened Metadata
  import Seqs
  import DatosgobesDownload

  datatype OpenDataSet = OpenDataSet(url: string, id: string)

  /** `OpenDataSet(url)`: keeps the URL, and its last `/`-separated piece as id. */
  function NewOpenDataSet(url: string): (d: OpenDataSet)
    ensures d.url == url
    ensures '/' !in d.id && EndsWith(url, d.id)
    ensures |d.id| == |url| || url[|url| - |d.id| - 1] == '/'
  {
    IdIsLastSegment(url);
    OpenDataSet(url, DatasetId(url))
  }

  /** The `title` property. */
  function Title(meta: DatasetMeta): (r: Result<map<string, string>>)
    ensures LangMapOf(Entries(meta.title), r)
    ensures meta.title.None? ==> r == Ok(map[])
  {
    LangMapMeetsSpec(Entries(meta.title));
    LangMap(Entries(meta.title))
  }

  /** The `description` property. */
  function Description(meta: DatasetMeta): (r: Result<map<string, string>>)
    ensures LangMapOf(Entries(meta.description), r)
    ensures meta.description.None? ==> r == Ok(map[])
  {
    LangMapMeetsSpec(Entries(meta.description));
    LangMap(Entries(meta.description))
  }

  /** The `keywords` property. */
  method Keywords(meta: DatasetMeta) returns (r: Result<map<string, seq<string>>>)
    ensures KeywordsOf(Entries(meta.keyword), r)
  {
    r := GroupKeywords(Entries(meta.keyword));
  }

  /** A `Distribution` object wraps one entry of the `distribution` list. */
  datatype Distribution = Distribution(metadata: DistMeta)

  /** `Distribution.format`: `metadata.get('format')['value']`, which raises
      when the entry has no `format` or the format has no `value`. */
  function Format(d: Distribution): (r: Result<string>)
    ensures d.metadata.format.None? ==> r == Raises(TypeError)
    ensures d.metadata.format.Some? && "value" !in d.metadata.format.value ==> r == Raises(KeyError("value"))
    ensures d.metadata.format.Some? && "value" in d.metadata.format.value ==> r == Ok(d.metadata.format.value["value"])
  {
    match d.metadata.format
    case None => Raises(TypeError)
    case Some(f) => if "value" in f then Ok(f["value"]) else Raises(KeyError("value"))
  }

  /** `Distribution.titles`. */
  function Titles(d: Distribution): (r: Result<map<string, string>>)
    ensures LangMapOf(Entries(d.metadata.title), r)
  {
    LangMapMeetsSpec(Entries(d.metadata.title));
    LangMap(Entries(d.metadata.title))
  }

  /** The distributions of a metadata document as objects, in order. */
  function Objects(meta: DatasetMeta): (ds: seq<Distribution>)
    ensures |ds| == |DistributionEntries(meta)|
    ensures forall k :: 0 <= k < |ds| ==> ds[k].metadata == DistributionEntries(meta)[k]
  {
    seq(|DistributionEntries(meta)|, k requires 0 <= k < |DistributionEntries(meta)| =>
      Distribution(DistributionEntries(meta)[k]))
  }

  /** The `distributions` property: one `Distribution` per metadata entry, same
      order. It never raises: formats are read only when asked for. */
  method Distributions(meta: DatasetMeta) returns (ds: seq<Distribution>)
    ensures |ds| == |DistributionEntries(meta)|
    ensures forall k :: 0 <= k < |ds| ==> ds[k].metadata == DistributionEntries(meta)[k]
  {
    var entries := DistributionEntries(meta);
    ds := [];
    for i := 0 to |entries|
      invariant |ds| == i
      invariant forall k :: 0 <= k < i ==> ds[k].metadata == entries[k]
    {
      ds := ds + [Distribution(entries[i])];
    }
  }

  /** The test of `get_distribution_by_format(f)`. */
  function Keep(f: string): Distribution -> bool {
    d => Format(d) == Ok(f)
  }

  /** What `get_distribution_by_format(f)` computes over `ds`: raises as the first
      distribution without a readable format does, and otherwise keeps, in
      order, the distributions whose format is `f`. */
  function ByFormat(ds: seq<Distribution>, f: string): (r: Result<seq<Distribution>>)
    ensures r.Ok? <==> forall k :: 0 <= k < |ds| ==> Format(ds[k]).Ok?
    ensures r.Ok? ==> r.value == Seqs.Filter(ds, Keep(f))
    ensures r.Raises? ==>
      exists k :: 0 <= k < |ds| && Format(ds[k]) == Raises(r.error) &&
        forall j :: 0 <= j < k ==> Format(ds[j]).Ok?
  {
    if ds == [] then Ok([])
    else
      var init := ds[..|ds| - 1];
      var last := ds[|ds| - 1];
      var matched := ByFormat(init, f);
      assert forall k :: 0 <= k < |init| ==> init[k] == ds[k];
      if matched.Raises? then matched
      else
        match Format(last)
        case Raises(e) => Raises(e)
        case Ok(v) => Ok(matched.value + if v == f then [last] else [])
  }

  /** `get_distribution_by_format(f)`: loops over `self.distributions` and
      appends the ones whose format equals `f`. */
  method GetDistributionByFormat(meta: DatasetMeta, f: string) returns (r: Result<seq<Distribution>>)
    ensures r == ByFormat(Objects(meta), f)
  {
    var ds := Distributions(meta);
    assert ds == Objects(meta);
    var matched: seq<Distribution> := [];
    for i := 0 to |ds|
      invariant forall j :: 0 <= j < i ==> Format(ds[j]).Ok?
      invariant matched == Seqs.Filter(ds[..i], Keep(f))
    {
      var format := Format(ds[i]);
      if format.Raises? {
        return Raises(format.error);
      }
      assert Keep(f)(ds[i]) <==> format.value == f;
      if format.value == f {
        matched := matched + [ds[i]];
      }
      assert ds[..i + 1][..i] == ds[..i];
    }
    assert ds[..|ds|] == ds;
    r := Ok(matched);
  }

  /** The result holds exactly the distributions whose format is `f`, each as
      often as in the document, in the document's order. */
  lemma ByFormatSelects(meta: DatasetMeta, f: string, x: Distribution)
    requires ByFormat(Objects(meta), f).Ok?
    ensures x in ByFormat(Objects(meta), f).value <==> x in Objects(meta) && Format(x) == Ok(f)
    ensures multiset(ByFormat(Objects(meta), f).value)[x] ==
      if Format(x) == Ok(f) then multiset(Objects(meta))[x] else 0
  {
    Seqs.FilterMembership(Objects(meta), Keep(f), x);
    Seqs.FilterCount(Objects(meta), Keep(f), x);
  }

  /** `Distribution.download_data(output_file)`: `download_data(self.access_url,
      output_file)`; without an access URL `requests.get(None)` raises, which
      `download_data` turns into `None`. */
  method DownloadData(d: Distribution, web: string -> Fetch, dec: Decoders, fs: FileSystem, outputFile: string := "")
    returns (r: Returned)
    modifies fs
    ensures d.metadata.accessURL.None? ==> r == NoValue && fs.files == old(fs.files)
    ensures d.metadata.accessURL.Some? ==>
      var url := d.metadata.accessURL.value;
      && (web(url).Failed? || web(url).response.status != 200 ==> r == NoValue && fs.files == old(fs.files))
      && (web(url).Received? && web(url).response.status == 200 && outputFile != "" ==>
            r == NoValue && fs.files == old(fs.files)[outputFile := Written(web(url).response.chunks)])
      && (outputFile == "" ==> r == DatosgobesDownload.InMemory(web(url), url, dec) && fs.files == old(fs.files))
  {
    if d.metadata.accessURL.None? {
      return NoValue;
    }
    r := DatosgobesDownload.DownloadData(web, d.metadata.accessURL.value, dec, fs, outputFile);
  }

  /** The `data` property: `None` without downloading when the access URL is
      missing or empty, otherwise the in-memory result of `download_data`. */
  method Data(d: Distribution, web: string -> Fetch, dec: Decoders, fs: FileSystem) returns (r: Returned)
    modifies fs
    ensures fs.files == old(fs.files)
    ensures !Truthy(d.metadata.accessURL) ==> r == NoValue
    ensures Truthy(d.metadata.accessURL) ==>
      r == DatosgobesDownload.InMemory(web(d.metadata.accessURL.value), d.metadata.accessURL.value, dec)
  {
    if Truthy(d.metadata.accessURL) {
      r := DownloadData(d, web, dec, fs);
    } else {
      r := NoValue;
    }
  }
}
