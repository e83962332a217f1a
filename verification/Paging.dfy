/** Listing merchants page by page, and what a client sees that follows the page tokens. */
module Paging {
  import opened Schema

  const DEFAULT_PAGE_SIZE := 20
  const MAX_PAGE_SIZE := 100

  /** The page part of a request, if it has one. */
  datatype PageRequest = PageRequest(pageSize: int, pageToken: string)

  datatype Page<T> = Page(items: seq<T>, nextPageToken: string, totalCount: nat)

  /** What the service takes for the page size. */
  function EffectiveSize(page: Option<PageRequest>): (size: nat)
    ensures page.Some? && 1 <= page.value.pageSize <= 100 ==> size == page.value.pageSize
    ensures page.Some? && page.value.pageSize > 100 ==> size == 100
    ensures page.None? || page.value.pageSize <= 0 ==> size == 20
  {
    match page
    case None => DEFAULT_PAGE_SIZE
    case Some(p) =>
      var size := if p.pageSize > 0 then p.pageSize else DEFAULT_PAGE_SIZE;
      if size > MAX_PAGE_SIZE then MAX_PAGE_SIZE else size
  }

  function Min(a: int, b: int): int { if a < b then a else b }

  /** LIMIT and OFFSET over the table in its order. */
  function Slice<T>(rows: seq<T>, limit: nat, offset: nat): seq<T> {
    rows[Min(offset, |rows|)..Min(offset + limit, |rows|)]
  }

  /** One reply: any non-empty token asks for the second page, and a token comes back while anything lies beyond. */
  function Fetch<T>(rows: seq<T>, size: nat, pageToken: string): Page<T> {
    var offset := if pageToken != "" then size else 0;
    Page(Slice(rows, size, offset), if offset + size < |rows| then "next" else "", |rows|)
  }

  /** What List promises leaves one answer. */
  lemma OnlyThePage<T>(rows: seq<T>, limit: nat, offset: nat, items: seq<T>)
    requires |items| <= limit && (items == [] || offset + |items| <= |rows|)
    requires |items| == limit || offset + |items| >= |rows|
    requires forall k :: 0 <= k < |items| ==> items[k] == rows[offset + k]
    ensures items == Slice(rows, limit, offset)
  {
    assert |items| == |Slice(rows, limit, offset)|;
  }

  /** The merchant table, in the order of created_at. */
  class Merchants<T> {
    var rows: seq<T>
    var failing: bool  // whether statements may fail

    constructor (rows: seq<T>)
      ensures this.rows == rows
    {
      this.rows, this.failing := rows, *;
    }

    /** LIMIT and OFFSET: at most so many rows, one after the other from the offset on, and fewer only at the end. */
    method List(limit: nat, offset: nat) returns (merchants: Option<seq<T>>)
      ensures merchants.None? ==> failing
      ensures merchants.Some? ==>
                && |merchants.value| <= limit && (merchants.value == [] || offset + |merchants.value| <= |rows|)
                && (|merchants.value| == limit || offset + |merchants.value| >= |rows|)
                && (forall k :: 0 <= k < |merchants.value| ==> merchants.value[k] == rows[offset + k])
    {
      var fault: bool := *;
      merchants := if failing && fault then None else Some(Slice(rows, limit, offset));
    }

    method Count() returns (total: Option<nat>)
      ensures total.None? ==> failing
      ensures total.Some? ==> total.value == |rows|
    {
      var fault: bool := *;
      total := if failing && fault then None else Some(|rows|);
    }

    /** None is the internal error. */
    method ListMerchants(page: Option<PageRequest>) returns (response: Option<Page<T>>)
      ensures response.None? ==> failing
      ensures response.Some? ==>
                && response.value == Fetch(rows, EffectiveSize(page), if page.Some? then page.value.pageToken else "")
                && response.value.totalCount == |rows|
    {
      var pageSize := DEFAULT_PAGE_SIZE;
      var offset := 0;
      if page.Some? {
        if page.value.pageSize > 0 {
          pageSize := page.value.pageSize;
        }
        if pageSize > MAX_PAGE_SIZE {
          pageSize := MAX_PAGE_SIZE;
        }
        if page.value.pageToken != "" {
          offset := pageSize;
        }
      }
      var merchants := List(pageSize, offset);
      if merchants.None? {
        return None;
      }
      var total := Count();
      if total.None? {
        return None;
      }
      var items: seq<T> := [];
      for i := 0 to |merchants.value|
        invariant items == merchants.value[..i]
      {
        items := items + [merchants.value[i]];
      }
      assert items == merchants.value;
      OnlyThePage(rows, pageSize, offset, items);
      var nextPageToken := if offset + |merchants.value| < total.value then "next" else "";
      response := Some(Page(items, nextPageToken, total.value));
    }
  }

  // ---- Following the tokens over a table that does not change ----

  /** The token of the k-th request, counted from 0. */
  function TokenAt<T>(rows: seq<T>, size: nat, k: nat): string {
    if k == 0 then "" else Fetch(rows, size, TokenAt(rows, size, k - 1)).nextPageToken
  }

  /** What the first k requests return, in order. */
  function Collected<T>(rows: seq<T>, size: nat, k: nat): seq<T> {
    if k == 0 then [] else Collected(rows, size, k - 1) + Fetch(rows, size, TokenAt(rows, size, k - 1)).items
  }

  lemma TwoPagesSuffice<T>(rows: seq<T>, size: nat)
    requires 0 < size && |rows| <= 2 * size
    ensures var k := if |rows| <= size then 1 else 2;
            TokenAt(rows, size, k) == "" && Collected(rows, size, k) == rows
  {
    assert Collected(rows, size, 1) == Fetch(rows, size, "").items;
    if |rows| > size {
      assert TokenAt(rows, size, 1) == "next";
      assert TokenAt(rows, size, 2) == Fetch(rows, size, "next").nextPageToken;
      assert Collected(rows, size, 2) == Collected(rows, size, 1) + Fetch(rows, size, "next").items;
    }
  }

  lemma {:induction false} SecondPageForEver<T>(rows: seq<T>, size: nat, k: nat)
    requires 0 < size && |rows| > 2 * size && k > 0
    ensures TokenAt(rows, size, k) == "next"
    ensures Fetch(rows, size, TokenAt(rows, size, k)).items == rows[size..2 * size]
  {
    if k > 1 {
      SecondPageForEver(rows, size, k - 1);
    }
  }

  /** Following tokens returns every merchant exactly once and stops, if there are at most two pages of them;
      otherwise the token never becomes empty and the second page comes again and again. */
  lemma FollowingTokens<T>(rows: seq<T>, size: nat)
    requires 0 < size
    ensures (exists k :: k > 0 && TokenAt(rows, size, k) == "") <==> |rows| <= 2 * size
    ensures |rows| <= 2 * size ==>
              exists k :: k > 0 && TokenAt(rows, size, k) == "" && Collected(rows, size, k) == rows
    ensures |rows| > 2 * size ==>
              forall k :: k > 0 ==> Fetch(rows, size, TokenAt(rows, size, k)).items == rows[size..2 * size]
  {
    if |rows| <= 2 * size {
      TwoPagesSuffice(rows, size);
    } else {
      forall k: nat | k > 0
        ensures TokenAt(rows, size, k) == "next"
        ensures Fetch(rows, size, TokenAt(rows, size, k)).items == rows[size..2 * size]
      {
        SecondPageForEver(rows, size, k);
      }
    }
  }
}
