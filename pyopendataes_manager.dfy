/** `Manager` of the older `pyopendataes` lineage (pyopendataes/src/manager.py):
    the listing walk, and the conversion of a listing entry to an
    `OpenDataSet`. The class holds no state besides its constant base URL. */
module PyopendataesManager {
  import opened Py
  import opened Paging
  import opened Metadata
  import opened PyopendataesDataset

  /** `self.url`. */
  const BaseUrl := "http://datos.gob.es/apidata"

  /** The first page of the listing. */
  function ListUrl(startPage: int): string {
    BaseUrl + "/catalog/dataset.json?_page=" + IntToString(startPage)
  }

  /** What the listing yields: `pages_limit=None` raises `TypeError` at the loop
      test, before any page is fetched. */
  function Listing(pages: string -> Result<Page>, startPage: int, pagesLimit: Option<int>): (r: Result<seq<Item>>)
    ensures pagesLimit.None? ==> r == Raises(TypeError)
    ensures pagesLimit.Some? && pagesLimit.value <= 0 ==> r == Ok([])
  {
    if pagesLimit.None? then Raises(TypeError) else Collected(pages, ListUrl(startPage), pagesLimit.value)
  }

  /** The URLs the listing fetches. */
  function ListingRequests(pages: string -> Result<Page>, startPage: int, pagesLimit: Option<int>): seq<string> {
    if pagesLimit.None? then [] else Requested(pages, ListUrl(startPage), pagesLimit.value)
  }

  /** `list_datasets(start_page, pages_limit)`. */
  method ListDatasets(portal: Portal, startPage: int := 0, pagesLimit: Option<int> := Some(1)) returns (r: Result<seq<Item>>)
    modifies portal
    ensures portal.requested == old(portal.requested) + ListingRequests(portal.pages, startPage, pagesLimit)
    ensures r == Listing(portal.pages, startPage, pagesLimit)
  {
    if pagesLimit.None? {
      return Raises(TypeError);
    }
    r := WalkPages(portal, ListUrl(startPage), startPage, pagesLimit.value);
  }

  /** The listing fetches at most `pages_limit` pages, none when it is not
      positive, the first at page `start_page`; when it succeeds it returns the
      items of the fetched pages in fetch order. */
  lemma ListingShape(pages: string -> Result<Page>, startPage: int, pagesLimit: int)
    ensures |ListingRequests(pages, startPage, Some(pagesLimit))| <= if pagesLimit > 0 then pagesLimit else 0
    ensures pagesLimit > 0 ==>
      |ListingRequests(pages, startPage, Some(pagesLimit))| >= 1 &&
      ListingRequests(pages, startPage, Some(pagesLimit))[0] == ListUrl(startPage)
    ensures Listing(pages, startPage, Some(pagesLimit)).Ok? ==>
      (forall k :: 0 <= k < |ListingRequests(pages, startPage, Some(pagesLimit))| ==>
        pages(ListingRequests(pages, startPage, Some(pagesLimit))[k]).Ok?) &&
      Listing(pages, startPage, Some(pagesLimit)).value == ItemsOf(pages, ListingRequests(pages, startPage, Some(pagesLimit)))
  {
    RequestedBound(pages, ListUrl(startPage), pagesLimit);
    CollectedIsConcatenation(pages, ListUrl(startPage), pagesLimit);
  }

  /** `_create_dataset(dataset_meta)` as written: builds the `OpenDataSet`, then
      calls `_extract_from_meta`, which `OpenDataSet` does not define. */
  function CreateDataset(item: Item): (r: Result<OpenDataSet>)
    ensures "_about" !in item ==> r == Raises(KeyError("_about"))
    ensures "_about" in item ==> r == Raises(AttributeError("_extract_from_meta"))
  {
    if "_about" !in item then Raises(KeyError("_about"))
    else
      // `OpenDataSet(url=dataset_meta["_about"])` succeeds (it only splits the
      // URL); the call on it that follows is what raises.
      Raises(AttributeError("_extract_from_meta"))
  }

  /** No listing entry can ever be turned into a dataset. */
  lemma CreateDatasetAlwaysRaises(item: Item)
    ensures CreateDataset(item).Raises?
    ensures CreateDataset(map["_about" := BaseUrl + "/catalog/dataset/a"]) == Raises(AttributeError("_extract_from_meta"))
  {
  }

  /** `_create_dataset` as evidently intended, as in the `datosgobes` lineage:
      the dataset whose URL is the entry's `_about`. */
  function CreateDatasetIntended(item: Item): (r: Result<OpenDataSet>)
    ensures r.Ok? <==> "_about" in item
    ensures r.Raises? ==> r.error == KeyError("_about")
    ensures r.Ok? ==> r.value.url == item["_about"] && r.value.id == DatasetId(item["_about"])
  {
    if "_about" in item then Ok(NewOpenDataSet(item["_about"])) else Raises(KeyError("_about"))
  }

  /** For a catalogue dataset URL, the intended version yields the dataset with
      that id, where the version as written raises. */
  lemma CreateDatasetIntendedSucceeds(id: string)
    requires '/' !in id
    ensures CreateDatasetIntended(map["_about" := BaseUrl + "/catalog/dataset/" + id]) ==
      Ok(OpenDataSet(BaseUrl + "/catalog/dataset/" + id, id))
    ensures CreateDataset(map["_about" := BaseUrl + "/catalog/dataset/" + id]).Raises?
  {
    assert BaseUrl + "/catalog/dataset/" + id == (BaseUrl + "/catalog/dataset") + "/" + id;
    IdAfterSlash(BaseUrl + "/catalog/dataset", id);
  }
}
