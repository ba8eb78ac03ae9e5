/** `Manager` of the `datosgobes` package (datosgobes/manager.py): lists or
    searches the catalogue page by page, caches the last listing in
    `_search_result`, and turns its entries into `OpenDataSet`s. */
module DatosgobesManager {
  import opened Py
  import opened Paging
  import opened Metadata
  import opened DatosgobesDataset

  /** `self.url`. */
  const BaseUrl := "http://datos.gob.es/apidata"

  /** The first page of the full listing. */
  function ListUrl(startPage: int): string {
    BaseUrl + "/catalog/dataset.json?_page=" + IntToString(startPage)
  }

  /** The first page of a title search. */
  function QueryUrl(query: string, startPage: int): string {
    BaseUrl + "/catalog/dataset/title/" + query + ".json?_page=" + IntToString(startPage)
  }

  /** What a walk from `url` yields: `pages_limit=None` raises `TypeError` at the
      loop test, before any page is fetched. */
  function Walk(pages: string -> Result<Page>, url: string, pagesLimit: Option<int>): (r: Result<seq<Item>>)
    ensures pagesLimit.None? ==> r == Raises(TypeError)
    ensures pagesLimit.Some? && pagesLimit.value <= 0 ==> r == Ok([])
  {
    if pagesLimit.None? then Raises(TypeError) else Collected(pages, url, pagesLimit.value)
  }

  /** The URLs a walk from `url` fetches. */
  function WalkRequests(pages: string -> Result<Page>, url: string, pagesLimit: Option<int>): seq<string> {
    if pagesLimit.None? then [] else Requested(pages, url, pagesLimit.value)
  }

  /** The listing fetches at most `pages_limit` pages, none when it is not
      positive, and the first at page `start_page` of the listing. */
  lemma ListingStartsAtStartPage(pages: string -> Result<Page>, startPage: int, pagesLimit: int)
    ensures |WalkRequests(pages, ListUrl(startPage), Some(pagesLimit))| <= if pagesLimit > 0 then pagesLimit else 0
    ensures pagesLimit > 0 ==>
      |WalkRequests(pages, ListUrl(startPage), Some(pagesLimit))| >= 1 &&
      WalkRequests(pages, ListUrl(startPage), Some(pagesLimit))[0] == ListUrl(startPage)
  {
    RequestedBound(pages, ListUrl(startPage), pagesLimit);
  }

  /** `_create_dataset(dataset_meta)`: `OpenDataSet(url=dataset_meta["_about"])`. */
  function CreateDataset(item: Item): (r: Result<OpenDataSet>)
    ensures r.Ok? <==> "_about" in item
    ensures r.Raises? ==> r.error == KeyError("_about")
    ensures r.Ok? ==> r.value.url == item["_about"] && r.value.id == DatasetId(item["_about"])
  {
    if "_about" in item then Ok(NewOpenDataSet(item["_about"])) else Raises(KeyError("_about"))
  }

  /** What the loop over `_search_result` yields: one `OpenDataSet` per entry,
      in order, or the `KeyError` of the first entry without `_about`. */
  function DatasetsOf(items: seq<Item>): (r: Result<seq<OpenDataSet>>)
    ensures r.Ok? <==> forall k :: 0 <= k < |items| ==> "_about" in items[k]
    ensures r.Raises? ==> r.error == KeyError("_about")
    ensures r.Ok? ==> |r.value| == |items|
    ensures r.Ok? ==> forall k :: 0 <= k < |items| ==> r.value[k] == NewOpenDataSet(items[k]["_about"])
  {
    MapOrRaise(CreateDataset, items)
  }

  /** `for dataset in self._search_result: datasets.append(self._create_dataset(dataset))`. */
  method CreateDatasets(items: seq<Item>) returns (r: Result<seq<OpenDataSet>>)
    ensures r == DatasetsOf(items)
  {
    var datasets: seq<OpenDataSet> := [];
    for i := 0 to |items|
      invariant |datasets| == i
      invariant forall k :: 0 <= k < i ==> "_about" in items[k] && datasets[k] == NewOpenDataSet(items[k]["_about"])
    {
      var created := CreateDataset(items[i]);
      if created.Raises? {
        return Raises(created.error);
      }
      datasets := datasets + [created.value];
    }
    assert DatasetsOf(items).value == datasets;
    r := Ok(datasets);
  }

  /** `get_dataset(id)`: the dataset behind `base + "/catalog/dataset/" + id`;
      its id is `id` itself whenever `id` holds no `/`. */
  function GetDataset(id: string): (d: OpenDataSet)
    ensures d.url == BaseUrl + "/catalog/dataset/" + id
    ensures '/' !in id ==> d.id == id
  {
    var url := BaseUrl + "/catalog/dataset/" + id;
    assert url == (BaseUrl + "/catalog/dataset") + "/" + id;
    // Both branches build the same object; the split only lets the `/`-free
    // case call `IdAfterSlash` for the second ensures.
    if '/' in id then NewOpenDataSet(url)
    else
      IdAfterSlash(BaseUrl + "/catalog/dataset", id);
      NewOpenDataSet(url)
  }

  /** `not self._search_result`: `None` and the empty list both count as absent. */
  predicate Cached(cache: Option<seq<Item>>) {
    cache.Some? && cache.value != []
  }

  class Manager {
    /** `_search_result`, the entries of the last listing or search. */
    var searchResult: Option<seq<Item>>

    constructor ()
      ensures searchResult == None
    {
      searchResult := None;
    }

    /** `_list_datasets(start_page, pages_limit)`. */
    method ListDatasets(portal: Portal, startPage: int := 0, pagesLimit: Option<int> := Some(1)) returns (r: Result<seq<Item>>)
      modifies portal
      ensures portal.requested == old(portal.requested) + WalkRequests(portal.pages, ListUrl(startPage), pagesLimit)
      ensures r == Walk(portal.pages, ListUrl(startPage), pagesLimit)
    {
      if pagesLimit.None? {
        return Raises(TypeError);
      }
      r := WalkPages(portal, ListUrl(startPage), startPage, pagesLimit.value);
    }

    /** `_query_datasets(query, start_page, pages_limit)`. */
    method QueryDatasets(portal: Portal, query: string, startPage: int := 0, pagesLimit: Option<int> := Some(1))
      returns (r: Result<seq<Item>>)
      modifies portal
      ensures portal.requested == old(portal.requested) + WalkRequests(portal.pages, QueryUrl(query, startPage), pagesLimit)
      ensures r == Walk(portal.pages, QueryUrl(query, startPage), pagesLimit)
    {
      if pagesLimit.None? {
        return Raises(TypeError);
      }
      r := WalkPages(portal, QueryUrl(query, startPage), startPage, pagesLimit.value);
    }

    /** `get_datasets(start_page, pages_limit)`: a non-empty cache is used as it
        is, whatever the arguments, and nothing is fetched; otherwise the listing
        is fetched and cached. An exception leaves the cache as it was. */
    method GetDatasets(portal: Portal, startPage: int := 0, pagesLimit: Option<int> := Some(1)) returns (r: Result<seq<OpenDataSet>>)
      modifies this, portal
      ensures Cached(old(searchResult)) ==>
        && searchResult == old(searchResult)
        && portal.requested == old(portal.requested)
        && r == DatasetsOf(searchResult.value)
      ensures !Cached(old(searchResult)) ==>
        var listing := Walk(portal.pages, ListUrl(startPage), pagesLimit);
        && portal.requested == old(portal.requested) + WalkRequests(portal.pages, ListUrl(startPage), pagesLimit)
        && (listing.Raises? ==> r == Raises(listing.error) && searchResult == old(searchResult))
        && (listing.Ok? ==> searchResult == Some(listing.value) && r == DatasetsOf(listing.value))
    {
      if !Cached(searchResult) {
        var listing := ListDatasets(portal, startPage, pagesLimit);
        if listing.Raises? {
          return Raises(listing.error);
        }
        searchResult := Some(listing.value);
      }
      r := CreateDatasets(searchResult.value);
    }

    /** `search_datasets(query, start_page, pages_limit)`: always runs the
        title-search walk, which fetches nothing when `pages_limit <= 0` and raises
        `TypeError` before any fetch when it is `None`. On success the cache is
        replaced by the walk's entries before the datasets are built; on an
        exception the cache is unchanged. */
    method SearchDatasets(portal: Portal, query: string, startPage: int := 0, pagesLimit: Option<int> := Some(1))
      returns (r: Result<seq<OpenDataSet>>)
      modifies this, portal
      ensures portal.requested == old(portal.requested) + WalkRequests(portal.pages, QueryUrl(query, startPage), pagesLimit)
      ensures
        var found := Walk(portal.pages, QueryUrl(query, startPage), pagesLimit);
        && (found.Raises? ==> r == Raises(found.error) && searchResult == old(searchResult))
        && (found.Ok? ==> searchResult == Some(found.value) && r == DatasetsOf(found.value))
    {
      var found := QueryDatasets(portal, query, startPage, pagesLimit);
      if found.Raises? {
        return Raises(found.error);
      }
      searchResult := Some(found.value);
      r := CreateDatasets(found.value);
    }
  }
}
