/** Page arithmetic of the leaderboard query (graph/schema.resolvers.go, internal/db/db.go). */
module Pages {

  function Offset(page: int, limit: int): int {
    (page - 1) * limit
  }

  /** The quotient of rows and page size, rounded up. */
  function MaxPage(count: nat, limit: nat): int
    requires limit > 0
  {
    if count % limit == 0 then count / limit else count / limit + 1
  }

  /** MaxPage pages hold all rows, and one page fewer does not. */
  lemma MaxPageBounds(count: nat, limit: nat)
    requires limit > 0
    ensures 0 <= MaxPage(count, limit) && count <= MaxPage(count, limit) * limit
    ensures count > 0 ==> (MaxPage(count, limit) - 1) * limit < count
  {
    var quotient, rest := count / limit, count % limit;
    assert count == quotient * limit + rest;
    assert (quotient + 1) * limit == quotient * limit + limit;
    assert (quotient - 1) * limit == quotient * limit - limit;
  }

  function AtMost(a: nat, b: nat): nat {
    if a < b then a else b
  }

  /** The rows an OFFSET and a LIMIT leave of a ranked list. */
  function Window<T>(rows: seq<T>, offset: nat, limit: nat): seq<T> {
    rows[AtMost(offset, |rows|)..AtMost(offset + limit, |rows|)]
  }

  function Page<T>(rows: seq<T>, page: nat, limit: nat): seq<T>
    requires page >= 1
  {
    OffsetIsNatural(page, limit);
    Window(rows, Offset(page, limit), limit)
  }

  lemma OffsetIsNatural(page: nat, limit: nat)
    requires page >= 1
    ensures Offset(page, limit) >= 0 && Offset(page + 1, limit) == Offset(page, limit) + limit
  {
    assert page * limit == (page - 1) * limit + limit;
  }

  /** The first `k` pages, one after the other. */
  function FirstPages<T>(rows: seq<T>, k: nat, limit: nat): seq<T> {
    if k == 0 then [] else FirstPages(rows, k - 1, limit) + Page(rows, k, limit)
  }

  lemma {:induction false} FirstPagesAre<T>(rows: seq<T>, k: nat, limit: nat)
    ensures Offset(k + 1, limit) >= 0 && FirstPages(rows, k, limit) == rows[..AtMost(Offset(k + 1, limit), |rows|)]
  {
    if k > 0 {
      FirstPagesAre(rows, k - 1, limit);
      OffsetIsNatural(k, limit);
    }
  }

  /** The pages tile the ranking: in order they give every row exactly once. */
  lemma PagesTileTheRanking<T>(rows: seq<T>, limit: nat)
    requires limit > 0
    ensures MaxPage(|rows|, limit) >= 0 && FirstPages(rows, MaxPage(|rows|, limit), limit) == rows
  {
    MaxPageBounds(|rows|, limit);
    FirstPagesAre(rows, MaxPage(|rows|, limit), limit);
  }

  lemma OffsetMonotone(a: nat, b: nat, limit: nat)
    requires a <= b
    ensures Offset(a, limit) <= Offset(b, limit)
  {
    assert Offset(b, limit) == Offset(a, limit) + (b - a) * limit;
  }

  predicate HasNextPage(count: nat, page: int, limit: nat)
    requires limit > 0
  {
    page < MaxPage(count, limit)
  }

  lemma NonEmptyPage<T>(rows: seq<T>, page: nat, limit: nat)
    requires page >= 1 && limit > 0
    ensures Page(rows, page, limit) != [] <==> Offset(page, limit) < |rows|
  {
    OffsetIsNatural(page, limit);
  }

  /** From the first page on, "has next page" says exactly whether some later page is not empty. */
  lemma NextPageIsNotEmpty<T>(rows: seq<T>, page: nat, limit: nat)
    requires page >= 1 && limit > 0
    ensures HasNextPage(|rows|, page, limit) <==> exists later: nat :: later > page && Page(rows, later, limit) != []
  {
    MaxPageBounds(|rows|, limit);
    var last := MaxPage(|rows|, limit);
    if page < last {
      NonEmptyPage(rows, last, limit);
      assert Page(rows, last, limit) != [];
    } else if later: nat :| later > page && Page(rows, later, limit) != [] {
      NonEmptyPage(rows, later, limit);
      OffsetMonotone(last + 1, later, limit);
    }
  }
}
