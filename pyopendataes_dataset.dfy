/** `OpenDataSet` of the older `pyopendataes` lineage
    (pyopendataes/src/opendataset.py). It has no `Distribution` class: each
    distribution is summarised as a dict. The metadata document is a parameter. */
module PyopendataesDataset {
  import opened Py
  import opened Metadata
  import Seqs

  datatype OpenDataSet = OpenDataSet(url: string, id: string)

  /** `OpenDataSet(url)`: keeps the URL, and its last `/`-separated piece as id. */
  function NewOpenDataSet(url: string): (d: OpenDataSet)
    ensures d.url == url
    ensures '/' !in d.id && EndsWith(url, d.id)
    ensures |d.id| == |url| || url[|url| - |d.id| - 1] == '/'
  {
    IdIsLastSegment(url);
    OpenDataSet(url, DatasetId(url))
  }

  /** The `title` property. */
  function Title(meta: DatasetMeta): (r: Result<map<string, string>>)
    ensures LangMapOf(Entries(meta.title), r)
    ensures meta.title.None? ==> r == Ok(map[])
  {
    LangMapMeetsSpec(Entries(meta.title));
    LangMap(Entries(meta.title))
  }

  /** The `description` property (the last value per language, despite the
      source comment speaking of the first). */
  function Description(meta: DatasetMeta): (r: Result<map<string, string>>)
    ensures LangMapOf(Entries(meta.description), r)
    ensures meta.description.None? ==> r == Ok(map[])
  {
    LangMapMeetsSpec(Entries(meta.description));
    LangMap(Entries(meta.description))
  }

  /** The `keywords` property. */
  method Keywords(meta: DatasetMeta) returns (r: Result<map<string, seq<string>>>)
    ensures KeywordsOf(Entries(meta.keyword), r)
  {
    r := GroupKeywords(Entries(meta.keyword));
  }

  /** The dict built for one distribution, with keys `accessURL`, `byteSize`,
      `format` and `titles`. */
  datatype DistInfo = DistInfo(
    accessURL: Option<string>,
    byteSize: Option<string>,
    format: string,
    titles: map<string, string>)

  /** The loop body of `distributions` for one entry. `format` is read before
      `titles`, so a missing format raises first. */
  function Info(d: DistMeta): (r: Result<DistInfo>)
    ensures d.format.None? ==> r == Raises(TypeError)
    ensures d.format.Some? && "value" !in d.format.value ==> r == Raises(KeyError("value"))
    ensures d.format.Some? && "value" in d.format.value && LangMap(Entries(d.title)).Raises? ==>
      r == Raises(LangMap(Entries(d.title)).error)
    ensures r.Ok? <==> d.format.Some? && "value" in d.format.value && LangMap(Entries(d.title)).Ok?
    ensures r.Ok? ==>
      && r.value.accessURL == d.accessURL
      && r.value.byteSize == d.byteSize
      && d.format.Some? && r.value.format == d.format.value["value"]
      && LangMapOf(Entries(d.title), Ok(r.value.titles))
  {
    LangMapMeetsSpec(Entries(d.title));
    match d.format
    case None => Raises(TypeError)
    case Some(f) =>
      if "value" !in f then Raises(KeyError("value"))
      else
        var titles := LangMap(Entries(d.title));
        if titles.Raises? then Raises(titles.error)
        else Ok(DistInfo(d.accessURL, d.byteSize, f["value"], titles.value))
  }

  /** What `distributions` computes: one dict per entry, in order, or the
      exception of the first entry that raises. */
  function InfoList(es: seq<DistMeta>): (r: Result<seq<DistInfo>>)
    ensures r.Ok? <==> forall k :: 0 <= k < |es| ==> Info(es[k]).Ok?
    ensures r.Ok? ==> |r.value| == |es| && forall k :: 0 <= k < |es| ==> Info(es[k]) == Ok(r.value[k])
    ensures r.Raises? ==>
      exists k :: 0 <= k < |es| && Info(es[k]) == Raises(r.error) &&
        forall j :: 0 <= j < k ==> Info(es[j]).Ok?
  {
    MapOrRaise(Info, es)
  }

  /** The `distributions` property: builds a dict per entry and appends it. */
  method Distributions(meta: DatasetMeta) returns (r: Result<seq<DistInfo>>)
    ensures r == InfoList(DistributionEntries(meta))
  {
    var entries := DistributionEntries(meta);
    var infos: seq<DistInfo> := [];
    for i := 0 to |entries|
      invariant |infos| == i
      invariant forall k :: 0 <= k < i ==> Info(entries[k]) == Ok(infos[k])
    {
      var info := Info(entries[i]);
      if info.Raises? {
        ghost var expected := InfoList(entries);
        ghost var k :| 0 <= k < |entries| && Info(entries[k]) == Raises(expected.error) &&
          forall j :: 0 <= j < k ==> Info(entries[j]).Ok?;
        assert k == i;
        return Raises(info.error);
      }
      infos := infos + [info.value];
    }
    assert InfoList(entries).value == infos;
    r := Ok(infos);
  }

  /** The test of `get_distribution_by_format(f)`: `d['format'] == f`. */
  function Keep(f: string): DistInfo -> bool {
    (d: DistInfo) => d.format == f
  }

  /** `get_distribution_by_format(f)`: raises what `distributions` raises;
      otherwise extends a list with each dict whose format is `f`. */
  method GetDistributionByFormat(meta: DatasetMeta, f: string) returns (r: Result<seq<DistInfo>>)
    ensures InfoList(DistributionEntries(meta)).Raises? ==> r == Raises(InfoList(DistributionEntries(meta)).error)
    ensures InfoList(DistributionEntries(meta)).Ok? ==>
      r == Ok(Seqs.Filter(InfoList(DistributionEntries(meta)).value, Keep(f)))
  {
    var ds := Distributions(meta);
    if ds.Raises? {
      return Raises(ds.error);
    }
    var matched := SelectByFormat(ds.value, f);
    r := Ok(matched);
  }

  /** The loop of `get_distribution_by_format`: `matched_distributions +=
      [distribution]` for every dict whose format is `f`, in order. */
  method SelectByFormat(all: seq<DistInfo>, f: string) returns (matched: seq<DistInfo>)
    ensures matched == Seqs.Filter(all, Keep(f))
  {
    matched := [];
    for i := 0 to |all|
      invariant matched == Seqs.Filter(all[..i], Keep(f))
    {
      if all[i].format == f {
        matched := matched + [all[i]];
      }
      assert all[..i + 1][..i] == all[..i];
    }
    assert all[..|all|] == all;
  }
}
