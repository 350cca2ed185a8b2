/**
 * The pagination both list routes share: `page` and `limit` from the query
 * string, `skip = (page - 1) * limit`, Prisma's `skip`/`take` window over the
 * ordered matches, and `totalPages = Math.ceil(total / limit)`.
 */
module Paging {
  import opened Common

  /**
   * `parseInt(searchParams.get(name) || fallback)`: a missing or empty
   * parameter takes the fallback, a supplied one is its integer value.
   */
  function IntParam(p: Option<int>, fallback: int): (r: int)
    ensures p.Some? ==> r == p.value
    ensures p.None? ==> r == fallback
  {
    if p.Some? then p.value else fallback
  }

  /** The rows before page `page` of `limit` rows each. */
  function Skip(page: int, limit: int): int
  {
    (page - 1) * limit
  }

  /** `Math.ceil(x)` on an exact quotient. */
  function Ceil(x: real): (r: int)
    ensures (r - 1) as real < x <= r as real
  {
    -((-x).Floor)
  }

  /**
   * `Math.ceil(total / limit)`. Dividing by a zero limit gives Infinity or
   * NaN, which the JSON reply renders as null: None.
   */
  function TotalPages(total: nat, limit: int): (r: Option<int>)
    ensures r.None? <==> limit == 0
    ensures r.Some? ==> (r.value - 1) as real < total as real / limit as real <= r.value as real
  {
    if limit == 0 then None else Some(Ceil(total as real / limit as real))
  }

  function Max(a: int, b: int): int { if a < b then b else a }

  /**
   * Prisma's `findMany({ skip, take })` over the ordered matches. A negative
   * `skip` is refused (the handler answers 500: None). A non-negative `take`
   * keeps up to `take` rows after the first `skip`; a negative one keeps up to
   * `-take` rows ending `skip` rows before the last, in the same order.
   */
  function Window<T>(rows: seq<T>, skip: int, take: int): (r: Option<seq<T>>)
    ensures r.None? <==> skip < 0
    ensures r.Some? && take >= 0 ==>
      && |r.value| <= take
      && (forall k :: 0 <= k < |r.value| ==> skip + k < |rows| && r.value[k] == rows[skip + k])
      && |r.value| == (if skip + take <= |rows| then take else Max(0, |rows| - skip))
    ensures r.Some? && take < 0 ==>
      && |r.value| <= -take
      && (forall k :: 0 <= k < |r.value| ==> r.value[k] in rows)
  {
    if skip < 0 then None
    else if take >= 0 then
      var lo := if skip < |rows| then skip else |rows|;
      var hi := if skip + take < |rows| then skip + take else |rows|;
      Some(rows[lo..hi])
    else
      var hi := Max(0, |rows| - skip);
      var lo := Max(0, hi + take);
      Some(rows[lo..hi])
  }

  /** The list reply: 500, or one page of rows with the pagination block. */
  datatype Listing<T> =
    | ServerError
    | Listed(items: seq<T>, page: int, limit: int, total: nat, totalPages: Option<int>)

  /** One page of the ordered matches, as the `page` and `limit` parameters select it. */
  function Paginate<T>(matched: seq<T>, pageParam: Option<int>, limitParam: Option<int>): Listing<T>
  {
    var page := IntParam(pageParam, 1);
    var limit := IntParam(limitParam, 12);
    match Window(matched, Skip(page, limit), limit)
    case None => ServerError
    case Some(items) => Listed(items, page, limit, |matched|, TotalPages(|matched|, limit))
  }

  // ---------------------------------------------------------------------------
  // What the pagination promises
  // ---------------------------------------------------------------------------

  /** Without parameters the reply is the first 12 matches, page 1 of ceil(total / 12). */
  lemma PaginateDefaults<T>(matched: seq<T>)
    ensures Paginate(matched, None, None)
      == Listed(TakeFirst(matched, 12), 1, 12, |matched|, TotalPages(|matched|, 12))
  {
    var w := Window(matched, 0, 12);
    assert w.Some?;
    assert w.value == TakeFirst(matched, 12);
  }

  /** With a positive limit, a page below 1 asks Prisma for a negative skip: 500. */
  lemma PaginatePageBelowOne<T>(matched: seq<T>, page: int, limit: int)
    requires page < 1 && limit > 0
    ensures Paginate(matched, Some(page), Some(limit)) == ServerError
  {
    assert Skip(page, limit) < 0 by {
      assert (page - 1) * limit <= -1 * limit by {
        assert (page - 1) <= -1;
      }
    }
  }

  lemma ScaleUp(x: real, c: real, l: real)
    requires l > 0.0 && x / l <= c
    ensures x <= c * l
  {
    assert x == (x / l) * l;
  }

  lemma ScaleDown(x: real, c: real, l: real)
    requires l > 0.0 && c < x / l
    ensures c * l < x
  {
    assert x == (x / l) * l;
  }

  /** `ceil(n / limit)` pages of `limit` rows hold the n rows, and one page fewer does not. */
  lemma CeilPages(n: nat, limit: int)
    requires limit > 0
    ensures var c := TotalPages(n, limit).value;
      c >= 0 && (c - 1) * limit < n <= c * limit
  {
    var c := TotalPages(n, limit).value;
    ScaleUp(n as real, c as real, limit as real);
    ScaleDown(n as real, (c - 1) as real, limit as real);
    assert (c * limit) as real == c as real * limit as real;
    assert ((c - 1) * limit) as real == (c - 1) as real * limit as real;
    CancelFactor(-1, c, limit);
  }

  /** Dividing out a positive factor keeps a strict inequality. */
  lemma CancelFactor(a: int, b: int, l: int)
    requires l > 0 && a * l < b * l
    ensures a < b
  {
    assert (b - a) * l > 0;
  }

  /** `row` is on the listed page, and that page is at most totalPages. */
  predicate OnPage<T(==)>(reply: Listing<T>, row: T, page: int)
  {
    reply.Listed? && row in reply.items && reply.totalPages.Some? && page <= reply.totalPages.value
  }

  /** Every row of a page is one of the matches. */
  lemma PaginateFrom<T>(matched: seq<T>, pageParam: Option<int>, limitParam: Option<int>)
    ensures var reply := Paginate(matched, pageParam, limitParam);
      reply.Listed? ==> forall x :: x in reply.items ==> x in matched
  {
  }

  lemma SliceNonIncreasing<T>(s: seq<T>, lo: int, hi: int, key: T -> real)
    requires 0 <= lo <= hi <= |s| && NonIncreasing(s, key)
    ensures NonIncreasing(s[lo..hi], key)
  {
    forall j, k | 0 <= j < k < hi - lo
      ensures key(s[lo..hi][j]) >= key(s[lo..hi][k])
    {
      assert s[lo..hi][j] == s[lo + j] && s[lo..hi][k] == s[lo + k];
    }
  }

  /** A page cut from a list in non-increasing key order is in that order too. */
  lemma PaginateKeepsOrder<T>(matched: seq<T>, key: T -> real, pageParam: Option<int>, limitParam: Option<int>)
    requires NonIncreasing(matched, key)
    ensures var reply := Paginate(matched, pageParam, limitParam);
      reply.Listed? ==> NonIncreasing(reply.items, key)
  {
    var take := IntParam(limitParam, 12);
    var skip := Skip(IntParam(pageParam, 1), take);
    if skip >= 0 {
      var lo, hi;
      if take >= 0 {
        lo := if skip < |matched| then skip else |matched|;
        hi := if skip + take < |matched| then skip + take else |matched|;
      } else {
        hi := Max(0, |matched| - skip);
        lo := Max(0, hi + take);
      }
      assert Window(matched, skip, take) == Some(matched[lo..hi]);
      SliceNonIncreasing(matched, lo, hi, key);
    }
  }

  /** With a positive limit, match `i` is on page `i / limit + 1`, and that page is at most totalPages. */
  lemma OnSomePage<T>(matched: seq<T>, limit: int, i: nat)
    requires limit > 0 && i < |matched|
    ensures 1 <= i / limit + 1 && OnPage(Paginate(matched, Some(i / limit + 1), Some(limit)), matched[i], i / limit + 1)
  {
    PagesPartition(matched, limit, i);
  }

  /**
   * With a positive limit the pages split the matches: match `i` is on page
   * `i / limit + 1`, at position `i % limit`, and that page is at most
   * totalPages.
   */
  lemma PagesPartition<T>(matched: seq<T>, limit: int, i: nat)
    requires limit > 0 && i < |matched|
    ensures var page := i / limit + 1;
      var reply := Paginate(matched, Some(page), Some(limit));
      && reply.Listed?
      && i % limit < |reply.items| && reply.items[i % limit] == matched[i]
      && reply.totalPages.Some? && page <= reply.totalPages.value
      && reply.total == |matched|
  {
    var page := i / limit + 1;
    PageStart(i, limit);
    var total := TotalPages(|matched|, limit).value;
    CeilPages(|matched|, limit);
    CancelFactor(page - 1, total, limit);
  }

  /** Page `i / limit + 1` starts at or before row `i`, which sits `i % limit` rows in. */
  lemma PageStart(i: nat, limit: int)
    requires limit > 0
    ensures 0 <= Skip(i / limit + 1, limit) <= i
    ensures Skip(i / limit + 1, limit) + i % limit == i && i % limit < limit
  {
  }

  /** A page past totalPages is empty. */
  lemma PagesBeyondEmpty<T>(matched: seq<T>, page: int, limit: int)
    requires limit > 0
    requires page > TotalPages(|matched|, limit).value
    ensures Paginate(matched, Some(page), Some(limit)).Listed?
    ensures Paginate(matched, Some(page), Some(limit)).items == []
  {
    SkipPastEnd(|matched|, page, limit);
  }

  lemma SkipPastEnd(n: nat, page: int, limit: int)
    requires limit > 0
    requires page > TotalPages(n, limit).value
    ensures Skip(page, limit) >= n
  {
    var total := TotalPages(n, limit).value;
    CeilPages(n, limit);
    MulMonotone(total, page - 1, limit);
  }

  lemma MulMonotone(a: int, b: int, l: int)
    requires l >= 0 && a <= b
    ensures a * l <= b * l
  {
    assert b * l - a * l == (b - a) * l;
  }
}
