/** Page arithmetic, for a limit of at least one as the query DTO demands. */
module Pagination {
  datatype Meta = Meta(page: int, limit: nat, total: nat, totalPages: nat, hasNextPage: bool, hasPreviousPage: bool)

  datatype Paginated<T> = Paginated(items: seq<T>, meta: Meta)

  datatype SkipTake = SkipTake(skip: int, take: nat)

  function GetSkipTake(page: int, limit: nat): SkipTake {
    SkipTake((page - 1) * limit, limit)
  }

  /** Math.ceil(total / limit) || 0. */
  function TotalPages(total: nat, limit: nat): nat
    requires limit >= 1
  {
    (total + limit - 1) / limit
  }

  function BuildPaginatedResult<T>(items: seq<T>, total: nat, page: int, limit: nat): Paginated<T>
    requires limit >= 1
  {
    var totalPages := TotalPages(total, limit);
    Paginated(items, Meta(page, limit, total, totalPages, page < totalPages, page > 1))
  }

  function Min(a: nat, b: nat): nat {
    if a < b then a else b
  }

  lemma ProductGrows(a: nat, b: nat, limit: nat)
    ensures a <= b ==> a * limit <= b * limit
    ensures (a + 1) * limit == a * limit + limit
  {
    if a <= b {
      assert b * limit == a * limit + (b - a) * limit;
    }
  }

  /** What a query with that offset and limit returns from an ordered listing. */
  function PageOf<T>(listing: seq<T>, page: nat, limit: nat): seq<T>
    requires page >= 1
  {
    var st := GetSkipTake(page, limit);
    assert st.skip >= 0 by { ProductGrows(0, page - 1, limit); }
    listing[Min(st.skip, |listing|)..Min(st.skip + st.take, |listing|)]
  }

  /** Pages 1 to m, end to end. */
  function Walk<T>(listing: seq<T>, m: nat, limit: nat): seq<T> {
    if m == 0 then [] else Walk(listing, m - 1, limit) + PageOf(listing, m, limit)
  }

  /** The last page starts inside the listing and ends at or beyond its end. */
  lemma TotalPagesBrackets(total: nat, limit: nat)
    requires limit >= 1
    ensures total <= TotalPages(total, limit) * limit < total + limit
  {
    var n := total + limit - 1;
    assert n == limit * (n / limit) + n % limit;
  }

  lemma {:induction false} WalkIsPrefix<T>(listing: seq<T>, m: nat, limit: nat)
    ensures m * limit >= 0
    ensures Walk(listing, m, limit) == listing[..Min(m * limit, |listing|)]
  {
    ProductGrows(0, m, limit);
    if m > 0 {
      WalkIsPrefix(listing, m - 1, limit);
      ProductGrows(m - 1, m, limit);
      ProductGrows(0, m - 1, limit);
    }
  }

  /** The pages of a fixed listing partition it: reading pages 1 to totalPages gives every entry exactly once,
      in order; and a page announces a next one exactly when the next one holds something. */
  lemma PagesPartition<T>(listing: seq<T>, page: nat, limit: nat)
    requires limit >= 1 && page >= 1
    ensures Walk(listing, TotalPages(|listing|, limit), limit) == listing
    ensures BuildPaginatedResult(PageOf(listing, page, limit), |listing|, page, limit).meta.hasNextPage
            <==> PageOf(listing, page + 1, limit) != []
  {
    var pages := TotalPages(|listing|, limit);
    WalkIsPrefix(listing, pages, limit);
    TotalPagesBrackets(|listing|, limit);
    ProductGrows(0, page, limit);
    if page < pages {
      ProductGrows(page + 1, pages, limit);
      ProductGrows(page, pages, limit);
    } else {
      ProductGrows(pages, page, limit);
    }
  }

  /** The number of pages announced is the least that covers the listing. */
  lemma TotalPagesIsLeast(total: nat, limit: nat, pages: nat)
    requires limit >= 1
    ensures total <= pages * limit <==> TotalPages(total, limit) <= pages
  {
    TotalPagesBrackets(total, limit);
    var least := TotalPages(total, limit);
    if least <= pages {
      ProductGrows(least, pages, limit);
    } else {
      ProductGrows(pages + 1, least, limit);
      ProductGrows(pages, least, limit);
    }
  }

  /** The slice a query reads, and how many rows that is at most. */
  lemma PageIsSlice<T>(listing: seq<T>, page: nat, limit: nat)
    requires page >= 1
    ensures var st := GetSkipTake(page, limit);
            && 0 <= st.skip
            && PageOf(listing, page, limit) == listing[Min(st.skip, |listing|)..Min(st.skip + st.take, |listing|)]
            && |PageOf(listing, page, limit)| <= limit
  {
    ProductGrows(0, page - 1, limit);
  }

  lemma AnnouncedPagesAreLeast(total: nat, limit: nat)
    requires limit >= 1
    ensures forall pages: nat :: total <= pages * limit <==> TotalPages(total, limit) <= pages
  {
    forall pages: nat ensures total <= pages * limit <==> TotalPages(total, limit) <= pages {
      TotalPagesIsLeast(total, limit, pages);
    }
  }

  /** Entry k is found on page k / limit + 1 and on no other. */
  lemma EntryIsOnOnePage<T>(listing: seq<T>, k: nat, limit: nat, page: nat)
    requires limit >= 1 && k < |listing| && page >= 1
    ensures var skip := GetSkipTake(page, limit).skip;
            skip <= k < skip + limit <==> page == k / limit + 1
  {
    var q := k / limit;
    assert k == limit * q + k % limit;
    if page - 1 < q {
      ProductGrows(page, q, limit);
      ProductGrows(page - 1, page, limit);
    } else if page - 1 > q {
      ProductGrows(q + 1, page - 1, limit);
      ProductGrows(q, q + 1, limit);
    }
  }
}
