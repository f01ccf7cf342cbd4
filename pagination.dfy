/** The offset pagination every listing endpoint shares: rows
    `skip = (page - 1) * limit` up to `skip + limit` of the store's ordering
    of the matching rows, and the `meta.pagination` object built from the
    page, the limit and the count of matching rows. */
module Pagination {
  import opened Common

  /** `meta.pagination` of a listing response. */
  datatype PageMeta = PageMeta(
    page: int,
    limit: int,
    totalItems: nat,
    totalPages: nat,
    hasNextPage: bool,
    hasPrevPage: bool)

  /** A listing response: the page of rows and its pagination meta. */
  datatype Listing<T> = Listing(data: seq<T>, meta: PageMeta)

  /** The meta object: `totalPages = Math.ceil(total / limit)`,
      `hasNextPage = page < totalPages`, `hasPrevPage = page > 1`. */
  function Meta(page: int, limit: int, total: nat): (m: PageMeta)
    requires limit >= 1
    ensures m.page == page && m.limit == limit && m.totalItems == total
    ensures (m.totalPages - 1) * limit < total <= m.totalPages * limit
  {
    var pages := CeilDiv(total, limit);
    PageMeta(page, limit, total, pages, page < pages, page > 1)
  }

  function Min(a: int, b: int): int {
    if a <= b then a else b
  }

  /** `findMany({ skip: (page - 1) * limit, take: limit })` over the rows in
      the store's order: at most `limit` rows, the ones that follow the first
      `(page - 1) * limit`. */
  function Page<T>(rows: seq<T>, page: int, limit: int): (r: seq<T>)
    requires page >= 1 && limit >= 1
    ensures |r| <= limit
    ensures forall k :: 0 <= k < |r| ==> (page - 1) * limit + k < |rows| && r[k] == rows[(page - 1) * limit + k]
  {
    var skip := (page - 1) * limit;
    if skip >= |rows| then [] else rows[skip .. Min(skip + limit, |rows|)]
  }

  /** There is a next page exactly when the rows of pages 1 to `page` do not
      account for all of them. */
  lemma {:induction false} HasNextPageIffMoreRows(page: int, limit: int, total: nat)
    requires limit >= 1
    ensures Meta(page, limit, total).hasNextPage <==> page * limit < total
    ensures Meta(page, limit, total).hasPrevPage <==> page >= 2
  {
    var c: int := Meta(page, limit, total).totalPages;
    if page < c {
      MulMonotone(page, c - 1, limit);
    } else {
      MulMonotone(c, page, limit);
    }
  }

  /** A page holds `limit` rows, or what is left after the pages before it,
      or none when nothing is. */
  lemma {:induction false} PageLength<T>(rows: seq<T>, page: int, limit: int)
    requires page >= 1 && limit >= 1
    ensures var skip := (page - 1) * limit;
      |Page(rows, page, limit)| == if skip < |rows| then Min(limit, |rows| - skip) else 0
  {
  }

  /** A page holds rows exactly when its number is between 1 and
      `totalPages`: the meta and the rows agree. */
  lemma {:induction false} PageNonEmptyIff<T>(rows: seq<T>, page: int, limit: int)
    requires page >= 1 && limit >= 1
    ensures |Page(rows, page, limit)| > 0 <==> page <= Meta(page, limit, |rows|).totalPages
  {
    var c: int := Meta(page, limit, |rows|).totalPages;
    if page <= c {
      MulMonotone(page - 1, c - 1, limit);
    } else {
      MulMonotone(c, page - 1, limit);
    }
  }

  /** Every row is reachable: row i is at position `i % limit` of page
      `i / limit + 1`, and that page number is one the meta counts. */
  lemma {:induction false} RowOnItsPage<T>(rows: seq<T>, limit: int, i: int)
    requires limit >= 1 && 0 <= i < |rows|
    ensures var p := i / limit + 1;
      1 <= p <= Meta(p, limit, |rows|).totalPages
      && i % limit < |Page(rows, p, limit)|
      && Page(rows, p, limit)[i % limit] == rows[i]
  {
    var p := i / limit + 1;
    assert (p - 1) * limit + i % limit == i;
    PageNonEmptyIff(rows, p, limit);
    var r := Page(rows, p, limit);
    assert |r| == Min((p - 1) * limit + limit, |rows|) - (p - 1) * limit;
  }

  /** The ids in `ordered` are pairwise distinct. */
  predicate Distinct(ordered: seq<Id>) {
    forall i, j :: 0 <= i < j < |ordered| ==> ordered[i] != ordered[j]
  }

  /** `ordered` is an ordering of the set `s`, each element once: the store's
      answer to `findMany` before skip and take. */
  predicate Lists(ordered: seq<Id>, s: set<Id>) {
    Distinct(ordered) && (forall k | 0 <= k < |ordered| :: ordered[k] in s) && (forall x | x in s :: x in ordered)
  }

  /** `count({ where })` and the ordering agree: the listing's `totalItems`
      is the number of matching rows. */
  lemma {:induction false} ListsCount(ordered: seq<Id>, s: set<Id>)
    requires Lists(ordered, s)
    ensures |ordered| == |s|
    decreases |ordered|
  {
    if ordered != [] {
      var x := ordered[0];
      var rest := ordered[1..];
      forall y ensures y in rest <==> y in s - {x} {
        if y in rest {
          var j :| 0 <= j < |rest| && rest[j] == y;
          assert ordered[j + 1] == y;
        }
        if y in s - {x} {
          var j :| 0 <= j < |ordered| && ordered[j] == y;
          assert j != 0;
          assert rest[j - 1] == y;
        }
      }
      assert Distinct(rest) by {
        forall i, j | 0 <= i < j < |rest| ensures rest[i] != rest[j] {
          assert rest[i] == ordered[i + 1] && rest[j] == ordered[j + 1];
        }
      }
      ListsCount(rest, s - {x});
    } else {
      assert s == {};
    }
  }

  /** A page of a listing holds only rows of the listed set, and the meta's
      count is the size of that set. */
  lemma ListedPage(ordered: seq<Id>, s: set<Id>, page: int, limit: int)
    requires page >= 1 && limit >= 1 && Lists(ordered, s)
    ensures forall k :: 0 <= k < |Page(ordered, page, limit)| ==> Page(ordered, page, limit)[k] in s
    ensures |ordered| == |s|
  {
    var r := Page(ordered, page, limit);
    forall k | 0 <= k < |r| ensures r[k] in s {
      var j := (page - 1) * limit + k;
      assert r[k] == ordered[j];
      assert ordered[j] in ordered;
    }
    ListsCount(ordered, s);
  }

  /** The rows of `table` under the ids of `ids`, in that order. */
  function RowsOf<T>(table: map<Id, T>, ids: seq<Id>): (r: seq<(Id, T)>)
    requires forall k :: 0 <= k < |ids| ==> ids[k] in table
    ensures |r| == |ids|
    ensures forall k :: 0 <= k < |r| ==> r[k] == (ids[k], table[ids[k]])
  {
    seq(|ids|, k requires 0 <= k < |ids| => (ids[k], table[ids[k]]))
  }

  /** A listing endpoint over one table: the page of the rows whose ids
      form the set `s`, in the store's order, and the meta that counts `s`:
      the rows under the ids of `Page(ordered, page, limit)`, each of them in
      `s` and the table's row. */
  function ListTable<T>(table: map<Id, T>, s: set<Id>, page: int, limit: int, ordered: seq<Id>): (r: Listing<(Id, T)>)
    requires page >= 1 && limit >= 1
    requires s <= table.Keys && Lists(ordered, s)
    ensures r.meta == Meta(page, limit, |s|)
    ensures |r.data| <= limit
    ensures r.data == RowsOf(table, Page(ordered, page, limit))
    ensures forall k :: 0 <= k < |r.data| ==> r.data[k].0 in s && r.data[k].1 == table[r.data[k].0]
  {
    ListedPage(ordered, s, page, limit);
    Listing(RowsOf(table, Page(ordered, page, limit)), Meta(page, limit, |ordered|))
  }
}
