// Page arithmetic over a fixed, ordered list (src/prisma/prisma.extension.ts).
module Pagination {
  import opened Rounding

  datatype Meta = Meta(total: nat, page: nat, lastPage: nat, limit: nat, hasNextPage: bool, hasPrevPage: bool)

  datatype Paginated<T> = Paginated(data: seq<T>, meta: Meta)

  function PaginationSkip(page: nat, limit: nat): nat
    requires page >= 1
  {
    (page - 1) * limit
  }

  function BuildPaginationMeta(total: nat, page: nat, limit: nat): Meta
    requires limit >= 1
  {
    var lastPage := CeilDiv(total, limit);
    Meta(total, page, lastPage, limit, page < lastPage, page > 1)
  }

  // `skip` and `take` of `findMany`.
  function SkipTake<T>(rows: seq<T>, skip: nat, take: nat): seq<T> {
    if skip >= |rows| then [] else if skip + take >= |rows| then rows[skip..] else rows[skip..skip + take]
  }

  function Paginate<T>(rows: seq<T>, page: nat, limit: nat): Paginated<T>
    requires page >= 1 && limit >= 1
  {
    Paginated(SkipTake(rows, PaginationSkip(page, limit), limit), BuildPaginationMeta(|rows|, page, limit))
  }

  // The data of pages 1 to `last`, one after the other.
  function Pages<T>(rows: seq<T>, last: nat, limit: nat): seq<T>
    requires limit >= 1
  {
    if last == 0 then [] else Pages(rows, last - 1, limit) + Paginate(rows, last, limit).data
  }

  function Min(a: nat, b: nat): nat {
    if a < b then a else b
  }

  lemma ProductMonotone(a: nat, b: nat, c: nat)
    requires a <= b
    ensures a * c <= b * c
  {
  }

  lemma {:induction false} PagesArePrefix<T>(rows: seq<T>, last: nat, limit: nat)
    requires limit >= 1
    ensures Pages(rows, last, limit) == rows[..Min(last * limit, |rows|)]
  {
    if last > 0 {
      PagesArePrefix(rows, last - 1, limit);
      assert last * limit == (last - 1) * limit + limit;
    }
  }

  // Pages 1 to `last_page` give the list, every row once and in order.
  lemma PagesPartition<T>(rows: seq<T>, limit: nat)
    requires limit >= 1
    ensures Pages(rows, BuildPaginationMeta(|rows|, 1, limit).lastPage, limit) == rows
  {
    var last := CeilDiv(|rows|, limit);
    PagesArePrefix(rows, last, limit);
    CeilDivBounds(|rows|, limit);
  }

  // Pages before the last are full, the last is not empty, those beyond are; and the flag says so.
  lemma PageSizes<T>(rows: seq<T>, page: nat, limit: nat)
    requires page >= 1 && limit >= 1
    ensures var r := Paginate(rows, page, limit);
            && (page < r.meta.lastPage ==> |r.data| == limit)
            && (page == r.meta.lastPage ==> 1 <= |r.data| <= limit)
            && (page > r.meta.lastPage <==> r.data == [])
            && (r.meta.hasNextPage <==> Paginate(rows, page + 1, limit).data != [])
  {
    var last := CeilDiv(|rows|, limit);
    CeilDivBounds(|rows|, limit);
    PageBeyond(rows, page, limit);
    PageBeyond(rows, page + 1, limit);
    if page < last {
      ProductMonotone(page, last - 1, limit);
      assert page * limit == (page - 1) * limit + limit;
    }
  }

  lemma PageBeyond<T>(rows: seq<T>, page: nat, limit: nat)
    requires page >= 1 && limit >= 1
    ensures PaginationSkip(page, limit) >= |rows| <==> page > CeilDiv(|rows|, limit)
  {
    var last := CeilDiv(|rows|, limit);
    CeilDivBounds(|rows|, limit);
    if page > last {
      ProductMonotone(last, page - 1, limit);
    } else {
      ProductMonotone(page - 1, last - 1, limit);
    }
  }

  // The rest of the meta data: the number of rows on all pages together, the page and the limit that were asked for,
  // and whether rows were skipped.
  lemma MetaOfPage<T>(rows: seq<T>, page: nat, limit: nat)
    requires page >= 1 && limit >= 1
    ensures var meta := Paginate(rows, page, limit).meta;
            && meta.total == |Pages(rows, meta.lastPage, limit)| && meta.page == page && meta.limit == limit
            && (meta.hasPrevPage <==> PaginationSkip(page, limit) > 0)
  {
    PagesPartition(rows, limit);
    ProductMonotone(1, limit, page - 1);
    if page > 1 {
      ProductMonotone(1, page - 1, limit);
    }
  }

  // A page is the rows from its first to its last number.
  lemma PageAt<T>(rows: seq<T>, page: nat, limit: nat, k: nat)
    requires page >= 1 && k < limit && (page - 1) * limit + k < |rows|
    ensures k < |Paginate(rows, page, limit).data|
    ensures Paginate(rows, page, limit).data[k] == rows[(page - 1) * limit + k]
  {
  }
}
