/** The pagination walk that `Manager` runs over the catalogue's listing and
    search endpoints (the same loop appears three times in the source:
    datosgobes/manager.py `_list_datasets` and `_query_datasets`, and
    pyopendataes/src/manager.py `list_datasets`). The HTTP calls are made
    through a `Portal` object that records every URL it is asked for. */
module Paging {
  import opened Py

  /** One dataset summary of a listing page, a JSON object of strings. */
  type Item = map<string, string>

  /** `data["result"]` of one page: its `items` and its `next` link. */
  datatype Page = Page(items: seq<Item>, next: Option<string>)

  /** `start_url = next_page_url if next_page_url else None`, with `""` for `None`. */
  function NextUrl(p: Page): (url: string)
    ensures url == "" <==> p.next.None? || p.next.value == ""
  {
    if p.next.Some? then p.next.value else ""
  }

  /** The catalogue API as the walk sees it: `pages(url)` is the page behind
      `url`, or what raises while fetching or decoding it; `requested` is the log
      of every URL fetched so far. */
  class Portal {
    const pages: string -> Result<Page>
    var requested: seq<string>

    constructor (pages: string -> Result<Page>)
      ensures this.pages == pages && requested == []
    {
      this.pages := pages;
      requested := [];
    }

    /** `requests.get(url).json()["result"]`. */
    method Get(url: string) returns (r: Result<Page>)
      modifies this
      ensures r == pages(url)
      ensures requested == old(requested) + [url]
    {
      r := pages(url);
      requested := requested + [url];
    }
  }

  /** The URLs the walk fetches, starting at `url`, with `budget` pages left. */
  function Requested(pages: string -> Result<Page>, url: string, budget: int): (urls: seq<string>)
    ensures urls == [] <==> url == "" || budget <= 0
    decreases if budget > 0 then budget else 0
  {
    if url == "" || budget <= 0 then []
    else match pages(url)
      case Raises(_) => [url]
      case Ok(p) => [url] + Requested(pages, NextUrl(p), budget - 1)
  }

  /** The items the walk collects, or what it raises. */
  function Collected(pages: string -> Result<Page>, url: string, budget: int): (r: Result<seq<Item>>)
    ensures url == "" || budget <= 0 ==> r == Ok([])
    decreases if budget > 0 then budget else 0
  {
    if url == "" || budget <= 0 then Ok([])
    else match pages(url)
      case Raises(e) => Raises(e)
      case Ok(p) => Prepend(p.items, Collected(pages, NextUrl(p), budget - 1))
  }

  /** `xs + rest` when the rest of the walk succeeded. */
  function Prepend(xs: seq<Item>, rest: Result<seq<Item>>): Result<seq<Item>> {
    if rest.Ok? then Ok(xs + rest.value) else rest
  }

  lemma PrependNil(rest: Result<seq<Item>>)
    ensures Prepend([], rest) == rest
  {
    if rest.Ok? {
      assert [] + rest.value == rest.value;
    }
  }

  lemma PrependTwice(xs: seq<Item>, ys: seq<Item>, rest: Result<seq<Item>>)
    ensures Prepend(xs, Prepend(ys, rest)) == Prepend(xs + ys, rest)
  {
    if rest.Ok? {
      assert xs + (ys + rest.value) == (xs + ys) + rest.value;
    }
  }

  /** The concatenation of the items of the pages behind `urls`, in order. */
  function ItemsOf(pages: string -> Result<Page>, urls: seq<string>): seq<Item>
    requires forall k :: 0 <= k < |urls| ==> pages(urls[k]).Ok?
  {
    if urls == [] then [] else pages(urls[0]).value.items + ItemsOf(pages, urls[1..])
  }

  /** One step of the walk: a page that does not raise is fetched, and the walk
      goes on at its `next` link with one page less. */
  lemma WalkStep(pages: string -> Result<Page>, url: string, budget: int)
    requires url != "" && budget > 0 && pages(url).Ok?
    ensures Requested(pages, url, budget) == [url] + Requested(pages, NextUrl(pages(url).value), budget - 1)
    ensures Collected(pages, url, budget) ==
      Prepend(pages(url).value.items, Collected(pages, NextUrl(pages(url).value), budget - 1))
  {
  }

  /** At most `budget` fetches (none when `budget <= 0`), the first one at the
      start URL. */
  lemma {:induction false} RequestedBound(pages: string -> Result<Page>, url: string, budget: int)
    ensures |Requested(pages, url, budget)| <= if budget > 0 then budget else 0
    ensures url != "" && budget > 0 ==> |Requested(pages, url, budget)| >= 1 && Requested(pages, url, budget)[0] == url
    decreases if budget > 0 then budget else 0
  {
    if url != "" && budget > 0 && pages(url).Ok? {
      RequestedBound(pages, NextUrl(pages(url).value), budget - 1);
    }
  }

  /** `next` is fetched right after `prev`: `prev`'s page did not raise and
      links to `next`. */
  predicate Follows(pages: string -> Result<Page>, prev: string, next: string) {
    pages(prev).Ok? && next == NextUrl(pages(prev).value)
  }

  /** Every fetched URL is non-empty, and every fetch after the first is at the
      `next` link of the page fetched before it. */
  lemma {:induction false} RequestedChain(pages: string -> Result<Page>, url: string, budget: int)
    ensures forall k :: 0 <= k < |Requested(pages, url, budget)| ==> Requested(pages, url, budget)[k] != ""
    ensures forall k :: 1 <= k < |Requested(pages, url, budget)| ==>
      Follows(pages, Requested(pages, url, budget)[k - 1], Requested(pages, url, budget)[k])
    decreases if budget > 0 then budget else 0
  {
    if url != "" && budget > 0 && pages(url).Ok? {
      var next := NextUrl(pages(url).value);
      var rest := Requested(pages, next, budget - 1);
      var all := Requested(pages, url, budget);
      WalkStep(pages, url, budget);
      RequestedChain(pages, next, budget - 1);
      RequestedBound(pages, next, budget - 1);
      forall k | 0 <= k < |all| ensures all[k] != "" {
        if k > 0 { assert all[k] == rest[k - 1]; }
      }
      forall k | 1 <= k < |all| ensures Follows(pages, all[k - 1], all[k]) {
        assert all[k] == rest[k - 1];
        if k > 1 { assert all[k - 1] == rest[k - 2]; }
      }
    }
  }

  /** A fetched page whose `next` is empty or null is the last one fetched. */
  lemma {:induction false} RequestedEndsAtLastPage(pages: string -> Result<Page>, url: string, budget: int, k: int)
    requires 0 <= k < |Requested(pages, url, budget)|
    requires pages(Requested(pages, url, budget)[k]).Ok?
    requires NextUrl(pages(Requested(pages, url, budget)[k]).value) == ""
    ensures k == |Requested(pages, url, budget)| - 1
    decreases if budget > 0 then budget else 0
  {
    var p := pages(url).value;
    var rest := Requested(pages, NextUrl(p), budget - 1);
    assert Requested(pages, url, budget) == [url] + rest;
    if k > 0 {
      assert Requested(pages, url, budget)[k] == rest[k - 1];
      RequestedEndsAtLastPage(pages, NextUrl(p), budget - 1, k - 1);
    }
  }

  /** The walk succeeds exactly when every page it fetches does, and then yields
      the concatenation of those pages' items in fetch order. */
  lemma {:induction false} CollectedIsConcatenation(pages: string -> Result<Page>, url: string, budget: int)
    ensures Collected(pages, url, budget).Ok? <==>
      forall k :: 0 <= k < |Requested(pages, url, budget)| ==> pages(Requested(pages, url, budget)[k]).Ok?
    ensures Collected(pages, url, budget).Ok? ==>
      Collected(pages, url, budget).value == ItemsOf(pages, Requested(pages, url, budget))
    decreases if budget > 0 then budget else 0
  {
    if url != "" && budget > 0 {
      var all := Requested(pages, url, budget);
      if pages(url).Ok? {
        var p := pages(url).value;
        CollectedIsConcatenation(pages, NextUrl(p), budget - 1);
        var rest := Requested(pages, NextUrl(p), budget - 1);
        assert all == [url] + rest;
        assert all[1..] == rest;
        assert (forall k :: 0 <= k < |all| ==> pages(all[k]).Ok?) <==>
          (forall k :: 0 <= k < |rest| ==> pages(rest[k]).Ok?) by {
          assert forall k :: 1 <= k < |all| ==> all[k] == rest[k - 1];
          assert forall k :: 0 <= k < |rest| ==> rest[k] == all[k + 1];
        }
      } else {
        assert all == [url];
        assert !pages(all[0]).Ok?;
      }
    }
  }

  /** What a walk raises is what fetching one of the URLs it requested raised. */
  lemma {:induction false} RaisedByRequestedPage(pages: string -> Result<Page>, url: string, budget: int)
    requires Collected(pages, url, budget).Raises?
    ensures exists u :: u in Requested(pages, url, budget) && pages(u) == Raises(Collected(pages, url, budget).error)
    decreases if budget > 0 then budget else 0
  {
    match pages(url)
    case Raises(_) =>
      assert url in Requested(pages, url, budget);
    case Ok(p) =>
      RaisedByRequestedPage(pages, NextUrl(p), budget - 1);
      var u :| u in Requested(pages, NextUrl(p), budget - 1) && pages(u) == Raises(Collected(pages, NextUrl(p), budget - 1).error);
      assert u in Requested(pages, url, budget);
  }

  /** A page whose `next` is empty or null ends the walk right after it. */
  lemma StopsAtLastPage(pages: string -> Result<Page>, url: string, budget: int)
    requires url != "" && budget > 0
    requires pages(url).Ok? && NextUrl(pages(url).value) == ""
    ensures Requested(pages, url, budget) == [url]
    ensures Collected(pages, url, budget) == Ok(pages(url).value.items)
  {
    assert pages(url).value.items + [] == pages(url).value.items;
  }

  /** One successful fetch moves the walk on by one page: the URL joins the
      log and the page's items join the collected prefix. */
  lemma WalkAdvance(pages: string -> Result<Page>, url: string, budget: int, p: Page,
    before: seq<string>, all: seq<Item>)
    requires url != "" && budget > 0 && pages(url) == Ok(p)
    ensures before + Requested(pages, url, budget) == (before + [url]) + Requested(pages, NextUrl(p), budget - 1)
    ensures Prepend(all, Collected(pages, url, budget)) ==
      Prepend(all + p.items, Collected(pages, NextUrl(p), budget - 1))
  {
    WalkStep(pages, url, budget);
    PrependTwice(all, p.items, Collected(pages, NextUrl(p), budget - 1));
  }

  /** The `while start_url and i < pages_limit + start_page` loop: fetches a page,
      appends its items, follows its `next` link, counts the page. An exception
      raised by a fetch ends the walk and propagates. */
  method WalkPages(portal: Portal, startUrl: string, startPage: int, pagesLimit: int)
    returns (r: Result<seq<Item>>)
    modifies portal
    ensures portal.requested == old(portal.requested) + Requested(portal.pages, startUrl, pagesLimit)
    ensures r == Collected(portal.pages, startUrl, pagesLimit)
  {
    ghost var pages := portal.pages;
    ghost var log := portal.requested;
    var url := startUrl;
    var all: seq<Item> := [];
    var i := startPage;
    PrependNil(Collected(pages, startUrl, pagesLimit));
    while url != "" && i < pagesLimit + startPage
      invariant startPage <= i
      invariant log + Requested(pages, startUrl, pagesLimit) ==
        portal.requested + Requested(pages, url, pagesLimit + startPage - i)
      invariant Collected(pages, startUrl, pagesLimit) ==
        Prepend(all, Collected(pages, url, pagesLimit + startPage - i))
      decreases pagesLimit + startPage - i
    {
      ghost var budget := pagesLimit + startPage - i;
      ghost var before := portal.requested;
      var page := portal.Get(url);
      if page.Raises? {
        assert Requested(pages, url, budget) == [url];
        return Raises(page.error);
      }
      var next := NextUrl(page.value);
      WalkAdvance(pages, url, budget, page.value, before, all);
      all := all + page.value.items;
      url := next;
      i := i + 1;
    }
    assert Requested(pages, url, pagesLimit + startPage - i) == [];
    r := Ok(all);
    assert all + [] == all;
  }

  /** Decimal notation of an integer, as an f-string prints it. */
  function IntToString(n: int): string {
    if n < 0 then "-" + NatToString(-n) else NatToString(n)
  }

  function NatToString(n: nat): string {
    if n < 10 then ["0123456789"[n]] else NatToString(n / 10) + ["0123456789"[n % 10]]
  }
}
