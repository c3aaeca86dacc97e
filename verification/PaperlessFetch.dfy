/** Fetching a whole collection page by page, from a server that may not play fair. */
module PaperlessFetch {
  import opened Outcomes

  const METADATA_MAX_PAGES: nat := 1000

  /** One tag or correspondent. */
  type Item = nat

  /**
   * What one page answers: an error, a body of the wrong shape, or its items, whether it names
   * a next page, and its count when that is a usable number.
   */
  datatype Page = RequestError | WrongShape | Page(items: seq<Item>, next: bool, count: Option<nat>)

  datatype FetchError = RequestFailed | BadBody | Repeated | NoProgress

  datatype Fetched = Items(items: seq<Item>) | FetchFailed(error: FetchError)

  /** The items of the first pages a server gives, one page after another. */
  ghost function Concatenated(server: nat -> Page, pages: nat): seq<Item> {
    if pages == 0 then []
    else Concatenated(server, pages - 1) + if server(pages).Page? then server(pages).items else []
  }

  /** Every page up to this one was one, and none repeated the page before it. */
  ghost predicate Progresses(server: nat -> Page, pages: nat) {
    pages == 0 || (
      && Progresses(server, pages - 1)
      && server(pages).Page?
      && (pages > 1 ==> server(pages - 1).Page? && server(pages).items != server(pages - 1).items))
  }

  function CeilDiv(n: nat, k: nat): nat
    requires k > 0
  {
    (n + k - 1) / k
  }

  function Min(a: nat, b: nat): nat {
    if a < b then a else b
  }

  /** Page `p` of a server that has these items and pages them by `k`. */
  function HonestPage(items: seq<Item>, k: nat, p: nat): Page
    requires k > 0 && p > 0
  {
    var first := Min((p - 1) * k, |items|);
    var end := Min(p * k, |items|);
    FirstBeforeEnd(|items|, k, p);
    Page(items[first..end], p * k < |items|, Some(|items|))
  }

  lemma FirstBeforeEnd(n: nat, k: nat, p: nat)
    requires k > 0 && p > 0
    ensures Min((p - 1) * k, n) <= Min(p * k, n)
  {
    assert (p - 1) * k <= p * k;
  }

  /** The server has exactly these items, no two the same, and answers each page as asked. */
  ghost predicate Honest(server: nat -> Page, items: seq<Item>, k: nat) {
    && k > 0
    && (forall i, j :: 0 <= i < j < |items| ==> items[i] != items[j])
    && forall p: nat | p > 0 :: server(p) == HonestPage(items, k, p)
  }

  /** What an honest server's page `p` means after all the pages before it. */
  lemma HonestStep(server: nat -> Page, items: seq<Item>, k: nat, p: nat)
    requires Honest(server, items, k) && p > 0 && (p - 1) * k <= |items|
    ensures server(p).Page? && server(p).count == Some(|items|)
    ensures items[..(p - 1) * k] + server(p).items == items[..Min(p * k, |items|)]
    ensures server(p).next <==> p * k < |items|
    ensures server(p).items == [] <==> (p - 1) * k == |items|
    ensures server(p).next ==> |server(p).items| == k
    ensures p * k == (p - 1) * k + k
  {
    assert p * k == (p - 1) * k + k;
    assert server(p) == HonestPage(items, k, p);
  }

  lemma HonestPagesDiffer(server: nat -> Page, items: seq<Item>, k: nat, p: nat)
    requires Honest(server, items, k) && p > 1 && (p - 1) * k < |items|
    ensures server(p).Page? && server(p - 1).Page? && server(p).items != server(p - 1).items
  {
    assert (p - 1) * k == (p - 2) * k + k;
    HonestStep(server, items, k, p - 1);
    HonestStep(server, items, k, p);
    assert server(p - 1).items[0] == items[(p - 2) * k];
    assert server(p).items[0] == items[(p - 1) * k];
  }

  lemma Scales(a: nat, b: nat, k: nat)
    ensures a <= b ==> a * k <= b * k
  {
  }

  lemma CeilCovers(n: nat, k: nat)
    requires k > 0
    ensures CeilDiv(n, k) * k >= n
  {
    var c := CeilDiv(n, k);
    assert n + k - 1 == c * k + (n + k - 1) % k;
  }

  /** Where a fetch from an honest server stands before it asks for page `p`. */
  ghost predicate HonestSoFar(items: seq<Item>, k: nat, p: nat, results: seq<Item>, pageLimit: nat)
    requires k > 0 && p > 0
  {
    && (p - 1) * k <= |items|
    && results == items[..(p - 1) * k]
    && (p > 1 ==> (p - 1) * k < |items|)
    && pageLimit == if p == 1 then METADATA_MAX_PAGES else Min(METADATA_MAX_PAGES, CeilDiv(|items|, k) + 1)
  }

  /** What the next page of an honest server does to the fetch. */
  lemma HonestTurn(server: nat -> Page, items: seq<Item>, k: nat, p: nat, results: seq<Item>, pageLimit: nat)
    requires Honest(server, items, k) && p > 0 && HonestSoFar(items, k, p, results, pageLimit)
    ensures server(p).Page? && server(p).count == Some(|items|)
    ensures p > 1 ==> server(p - 1).Page? && server(p).items != server(p - 1).items
    ensures server(p).items == [] ==> results == items && |items| == 0
    ensures !server(p).next ==> results + server(p).items == items && |items| <= p * k
    ensures server(p).next ==>
              && server(p).items != []
              && |results + server(p).items| < |items|
              && HonestSoFar(items, k, p + 1, results + server(p).items,
                             if p == 1 then Min(pageLimit, CeilDiv(|items|, |server(p).items|) + 1) else pageLimit)
              && p < CeilDiv(|items|, k) + 1
              && p * k < |items|
  {
    HonestStep(server, items, k, p);
    if p > 1 {
      HonestPagesDiffer(server, items, k, p);
    }
    CeilCovers(|items|, k);
    Scales(CeilDiv(|items|, k), p, k);
  }

  /** The result of a fetch that is about to ask for page `p`. */
  function FetchFrom(server: nat -> Page, p: nat, results: seq<Item>, previous: seq<Item>, pageLimit: nat): Fetched
    requires 1 <= p <= pageLimit <= METADATA_MAX_PAGES
    decreases METADATA_MAX_PAGES - p
  {
    match server(p)
    case RequestError => FetchFailed(RequestFailed)
    case WrongShape => FetchFailed(BadBody)
    case Page(batch, next, count) =>
      if batch == [] then Items(results)
      else if batch == previous then FetchFailed(Repeated)
      else if !next || (count.Some? && |results + batch| >= count.value) then Items(results + batch)
      else
        var limit := LimitAfter(p, pageLimit, count, |batch|);
        if p >= limit then FetchFailed(NoProgress) else FetchFrom(server, p + 1, results + batch, batch, limit)
  }

  /** The first page's count, when usable, bounds how many pages are asked for. */
  function LimitAfter(p: nat, pageLimit: nat, count: Option<nat>, batch: nat): (limit: nat)
    requires batch > 0
    ensures limit <= pageLimit
  {
    if count.Some? && p == 1 then Min(pageLimit, CeilDiv(count.value, batch) + 1) else pageLimit
  }

  /** An honest server's items come back exactly, all of them, when they fit in 1000 pages. */
  lemma {:induction false} HonestFetch(server: nat -> Page, items: seq<Item>, k: nat, p: nat, results: seq<Item>,
                                       previous: seq<Item>, pageLimit: nat)
    requires Honest(server, items, k) && 1 <= p <= pageLimit <= METADATA_MAX_PAGES
    requires HonestSoFar(items, k, p, results, pageLimit)
    requires if p == 1 then previous == [] else server(p - 1).Page? && previous == server(p - 1).items
    ensures FetchFrom(server, p, results, previous, pageLimit)
         == if |items| <= METADATA_MAX_PAGES * k then Items(items) else FetchFailed(NoProgress)
    decreases METADATA_MAX_PAGES - p
  {
    HonestTurn(server, items, k, p, results, pageLimit);
    Scales(p, METADATA_MAX_PAGES, k);
    var page := server(p);
    if page.next {
      var limit := LimitAfter(p, pageLimit, page.count, |page.items|);
      if p < limit {
        HonestFetch(server, items, k, p + 1, results + page.items, page.items, limit);
      }
    }
  }

  /**
   * `_fetch_collection`, where `server` is whatever answers the one request for each page.
   * Against any server it asks for at most 1000 pages, 1 to `pages` in order, and returns only
   * what they held, in order.  An honest server's items are returned exactly, all of them, when
   * they fit in 1000 pages, and are refused otherwise.
   */
  method FetchCollection(server: nat -> Page, ghost items: seq<Item>, ghost k: nat) returns (r: Fetched, pages: nat)
    ensures 1 <= pages <= METADATA_MAX_PAGES
    ensures r.Items? ==> r.items == Concatenated(server, pages) && Progresses(server, pages)
    ensures r == FetchFailed(RequestFailed) <==> server(pages).RequestError?
    ensures r == FetchFailed(BadBody) <==> server(pages).WrongShape?
    ensures Honest(server, items, k) ==>
              r == if |items| <= METADATA_MAX_PAGES * k then Items(items) else FetchFailed(NoProgress)
  {
    if Honest(server, items, k) {
      HonestFetch(server, items, k, 1, [], [], METADATA_MAX_PAGES);
    }
    r, pages := FetchPages(server);
  }

  method FetchPages(server: nat -> Page) returns (r: Fetched, pages: nat)
    ensures 1 <= pages <= METADATA_MAX_PAGES
    ensures r.Items? ==> r.items == Concatenated(server, pages) && Progresses(server, pages)
    ensures r == FetchFailed(RequestFailed) <==> server(pages).RequestError?
    ensures r == FetchFailed(BadBody) <==> server(pages).WrongShape?
    ensures r == FetchFrom(server, 1, [], [], METADATA_MAX_PAGES)
  {
    var results: seq<Item> := [];
    var previous: seq<Item> := [];
    var pageLimit := METADATA_MAX_PAGES;
    pages := 1;
    while true
      invariant 1 <= pages <= pageLimit <= METADATA_MAX_PAGES
      invariant results == Concatenated(server, pages - 1) && Progresses(server, pages - 1)
      invariant if pages == 1 then previous == [] else server(pages - 1).Page? && previous == server(pages - 1).items != []
      invariant FetchFrom(server, pages, results, previous, pageLimit) == FetchFrom(server, 1, [], [], METADATA_MAX_PAGES)
      decreases METADATA_MAX_PAGES - pages
    {
      var data := server(pages);
      if data.RequestError? {
        return FetchFailed(RequestFailed), pages;
      } else if data.WrongShape? {
        return FetchFailed(BadBody), pages;
      }
      var batch := data.items;
      if batch == [] {
        return Items(results), pages;
      }
      if batch == previous {
        return FetchFailed(Repeated), pages;
      }
      results := results + batch;
      if !data.next {
        return Items(results), pages;
      }
      if data.count.Some? {
        if |results| >= data.count.value {
          return Items(results), pages;
        }
        if pages == 1 {
          pageLimit := Min(pageLimit, CeilDiv(data.count.value, |batch|) + 1);
        }
      }
      if pages >= pageLimit {
        return FetchFailed(NoProgress), pages;
      }
      previous := batch;
      pages := pages + 1;
    }
  }
}
