/** The pages of a task listing. */
module Pagination {

  const DEFAULT_SELECT_LIMIT := 1000

  function Limit(limit: int): nat {
    if limit < 1 then DEFAULT_SELECT_LIMIT else limit
  }

  /** The LIMIT and OFFSET of a page; the ordering is the same for all pages. */
  function BuildOrderByAndLimit(page: int, limit: int): (r: (nat, nat))
    ensures r.0 >= 1
  {
    var p := if page < 1 then 1 else page;
    (Limit(limit), (p - 1) * Limit(limit))
  }

  /** SELECT ... LIMIT limit OFFSET offset */
  function Select<T>(rows: seq<T>, limit: nat, offset: nat): seq<T> {
    if offset >= |rows| then []
    else if offset + limit >= |rows| then rows[offset..]
    else rows[offset..offset + limit]
  }

  function GetTasks<T>(rows: seq<T>, page: int, limit: int): seq<T> {
    var (l, offset) := BuildOrderByAndLimit(page, limit);
    Select(rows, l, offset)
  }

  /** What a page holds: at most limit rows, 1000 when no limit is given, from the first row of the page on. */
  lemma PageRows<T>(rows: seq<T>, page: int, limit: int)
    ensures var l, p := if limit < 1 then 1000 else limit, if page < 1 then 1 else page;
            var list := GetTasks(rows, page, limit);
            && |list| == (if |rows| <= (p - 1) * l then 0 else if |rows| <= p * l then |rows| - (p - 1) * l else l)
            && forall i | 0 <= i < |list| :: (p - 1) * l + i < |rows| && list[i] == rows[(p - 1) * l + i]
  {
    var l, p := Limit(limit), if page < 1 then 1 else page;
    assert p * l == (p - 1) * l + l;
  }

  /** Pages 1..k, one after the other. */
  function Pages<T>(rows: seq<T>, limit: int, k: nat): seq<T> {
    if k == 0 then [] else Pages(rows, limit, k - 1) + GetTasks(rows, k, limit)
  }

  function Min(a: nat, b: nat): nat {
    if a < b then a else b
  }

  lemma NextPage<T>(rows: seq<T>, limit: nat, offset: nat)
    ensures rows[..Min(offset, |rows|)] + Select(rows, limit, offset) == rows[..Min(offset + limit, |rows|)]
  {
  }

  /** Each page starts where the one before ended. */
  lemma {:induction false} PagesArePrefix<T>(rows: seq<T>, limit: int, k: nat)
    ensures Pages(rows, limit, k) == rows[..Min(k * Limit(limit), |rows|)]
  {
    if k > 0 {
      PagesArePrefix(rows, limit, k - 1);
      assert k * Limit(limit) == (k - 1) * Limit(limit) + Limit(limit);
      NextPage(rows, Limit(limit), (k - 1) * Limit(limit));
    }
  }

  function PageCount(n: nat, limit: int): nat {
    (n + Limit(limit) - 1) / Limit(limit)
  }

  lemma PageCountBounds(n: nat, limit: int)
    ensures PageCount(n, limit) * Limit(limit) >= n
    ensures n > 0 ==> PageCount(n, limit) > 0 && (PageCount(n, limit) - 1) * Limit(limit) < n
  {
    var l, k := Limit(limit), PageCount(n, limit);
    assert n + l - 1 == k * l + (n + l - 1) % l;
    assert (k - 1) * l == k * l - l;
  }

  /** The pages tile the listing: nothing is repeated, skipped or reordered. */
  lemma PagesTile<T>(rows: seq<T>, limit: int)
    ensures Pages(rows, limit, PageCount(|rows|, limit)) == rows
  {
    PageCountBounds(|rows|, limit);
    PagesArePrefix(rows, limit, PageCount(|rows|, limit));
  }

  lemma Times(a: int, b: int, l: nat)
    requires a <= b
    ensures a * l <= b * l
  {
  }

  /** A page has rows exactly when it is one of the first ceil(n / limit); pages below 1 are page 1. */
  lemma PageEmpty<T>(rows: seq<T>, page: int, limit: int)
    ensures GetTasks(rows, page, limit) == [] <==> (if page < 1 then 1 else page) > PageCount(|rows|, limit)
  {
    var l, k, p := Limit(limit), PageCount(|rows|, limit), if page < 1 then 1 else page;
    PageCountBounds(|rows|, limit);
    PageStart(rows, page, limit);
    if p > k {
      Times(k, p - 1, l);
    } else {
      Times(p - 1, k - 1, l);
    }
  }

  lemma PageStart<T>(rows: seq<T>, page: int, limit: int)
    ensures var p := if page < 1 then 1 else page;
            GetTasks(rows, page, limit) == [] <==> (p - 1) * Limit(limit) >= |rows|
  {
  }
}
