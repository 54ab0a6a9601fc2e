/** Page windows and page links. */
module Pagination {
  import opened Prelude

  const MAX_SIZE := 200

  datatype Params = Params(page: int, size: int)

  /** What the query validation lets through. */
  predicate ValidParams(params: Params) {
    1 <= params.page && 0 < params.size <= MAX_SIZE
  }

  datatype RawParams = RawParams(limit: int, offset: int)

  function ToRawParams(params: Params): RawParams {
    RawParams(params.size, params.size * (params.page - 1))
  }

  /** A link names a page and carries the size along. */
  datatype Links = Links(first: Params, last: Params, self: Params, next: Option<Params>, prev: Option<Params>)

  datatype Page<T> = Page(items: seq<T>, total: nat, page: int, size: int, totalPages: int, links: Links)

  /** The ceiling of the quotient. */
  function TotalPages(total: nat, size: int): int
    requires size > 0
  {
    (total + size - 1) / size
  }

  function LinksOf(params: Params, total: nat): Links
    requires params.size > 0
  {
    var size, totalPages := params.size, TotalPages(total, params.size);
    Links(
      Params(1, size),
      if total > 0 then Params(totalPages, size) else Params(1, size),
      params,
      if params.page + 1 <= totalPages then Some(Params(params.page + 1, size)) else None,
      if params.page - 1 >= 1 then Some(Params(params.page - 1, size)) else None)
  }

  function Create<T>(items: seq<T>, params: Params, total: nat): Page<T>
    requires params.size > 0
  {
    Page(items, total, params.page, params.size, TotalPages(total, params.size), LinksOf(params, total))
  }

  /** What a query with this limit and offset selects. */
  function Window<T>(records: seq<T>, raw: RawParams): seq<T>
    requires raw.limit >= 0 && raw.offset >= 0
  {
    var from := if raw.offset < |records| then raw.offset else |records|;
    var to := if raw.offset + raw.limit < |records| then raw.offset + raw.limit else |records|;
    records[from..to]
  }

  function Items<T>(records: seq<T>, params: Params): seq<T>
    requires ValidParams(params)
  {
    OffsetIsNat(params);
    Window(records, ToRawParams(params))
  }

  lemma OffsetIsNat(params: Params)
    requires ValidParams(params)
    ensures ToRawParams(params).offset >= 0
  {
  }

  // ---------------------------------------------------------------- arithmetic

  lemma PageOf(total: nat, size: int, page: int)
    requires size > 0
    ensures page <= TotalPages(total, size) <==> size * (page - 1) < total
  {
    var pages := TotalPages(total, size);
    assert size * pages <= total + size - 1 < size * (pages + 1) by {
      var n := total + size - 1;
      assert n == size * (n / size) + n % size;
      assert size * (pages + 1) == size * pages + size;
    }
    if page <= pages {
      Monotone(size, page, pages);
    } else {
      Monotone(size, pages + 1, page);
    }
    assert size * (page - 1) == size * page - size;
    assert size * (pages + 1) == size * pages + size;
  }

  lemma Monotone(size: int, a: int, b: int)
    requires size > 0 && a <= b
    ensures size * a <= size * b
  {
  }

  // ---------------------------------------------------------------- pages partition the records

  predicate OnPage(index: nat, params: Params) {
    var raw := ToRawParams(params);
    raw.offset <= index < raw.offset + raw.limit
  }

  /** Every record is on exactly one page, and that is one of the pages that are counted. */
  lemma EachRecordOnOnePage(total: nat, size: int, index: nat) returns (page: int)
    requires 0 < size && index < total
    ensures 1 <= page <= TotalPages(total, size)
    ensures forall p :: OnPage(index, Params(p, size)) <==> p == page
  {
    page := index / size + 1;
    assert index == size * (page - 1) + index % size;
    assert size * (page - 1) >= 0 by { Monotone(size, 0, page - 1); }
    PageOf(total, size, page);
    forall p ensures OnPage(index, Params(p, size)) <==> p == page {
      if p < page {
        Monotone(size, p, page - 1);
        assert size * (p - 1) + size == size * p;
      } else if p > page {
        Monotone(size, page, p - 1);
        assert size * (page - 1) + size == size * page;
      }
    }
  }

  function FirstPages<T>(records: seq<T>, size: int, n: nat): seq<T>
    requires 0 < size <= MAX_SIZE
  {
    if n == 0 then [] else FirstPages(records, size, n - 1) + Items(records, Params(n, size))
  }

  lemma {:induction false} FirstPagesAre<T>(records: seq<T>, size: int, n: nat)
    requires 0 < size <= MAX_SIZE
    ensures size * n >= 0
    ensures FirstPages(records, size, n) == if size * n < |records| then records[..size * n] else records
  {
    Monotone(size, 0, n);
    if n > 0 {
      FirstPagesAre(records, size, n - 1);
      assert size * n == size * (n - 1) + size;
    }
  }

  /** The counted pages one after the other are all the records, in their order. */
  lemma PagesCoverInOrder<T>(records: seq<T>, size: int)
    requires 0 < size <= MAX_SIZE
    ensures TotalPages(|records|, size) >= 0
    ensures FirstPages(records, size, TotalPages(|records|, size)) == records
  {
    var pages := TotalPages(|records|, size);
    FirstPagesAre(records, size, pages);
    PageOf(|records|, size, pages + 1);
  }

  // ---------------------------------------------------------------- following the links

  function PageNumbers(from: int, to: int): seq<int>
    decreases to - from
  {
    if from > to then [] else [from] + PageNumbers(from + 1, to)
  }

  /** The pages a reader sees who starts at one and follows next while there is one. */
  function Followed(params: Params, total: nat): seq<int>
    requires params.size > 0
    decreases TotalPages(total, params.size) - params.page
  {
    match LinksOf(params, total).next
    case None => [params.page]
    case Some(next) => [params.page] + Followed(next, total)
  }

  lemma {:induction false} FollowedAre(params: Params, total: nat)
    requires params.size > 0 && params.page <= TotalPages(total, params.size)
    ensures Followed(params, total) == PageNumbers(params.page, TotalPages(total, params.size))
    decreases TotalPages(total, params.size) - params.page
  {
    var pages := TotalPages(total, params.size);
    if params.page < pages {
      FollowedAre(Params(params.page + 1, params.size), total);
    } else {
      assert PageNumbers(pages + 1, pages) == [];
    }
  }

  /**
   From the first link on, next leads through exactly the counted pages and ends at the last link;
   without records the one page seen is the first, which is also the last.
   */
  lemma NextVisitsAllPages(size: int, total: nat)
    requires size > 0
    ensures var links := LinksOf(Params(1, size), total);
            && Followed(links.first, total) == PageNumbers(1, links.last.page)
            && LinksOf(links.last, total).next.None? && links.last.page >= 1
  {
    PageOf(total, size, 1);
    if total > 0 {
      FollowedAre(Params(1, size), total);
    } else {
      PageOf(total, size, 2);
      assert PageNumbers(2, 1) == [];
      assert PageNumbers(1, 1) == [1];
    }
  }

  /** prev undoes next; next undoes prev on the counted pages, and only there. */
  lemma PrevAndNext(params: Params, total: nat)
    requires ValidParams(params)
    ensures var next := LinksOf(params, total).next;
            next.Some? ==> LinksOf(next.value, total).prev == Some(params)
    ensures var prev := LinksOf(params, total).prev;
            prev.Some? ==>
              (LinksOf(prev.value, total).next == Some(params) <==> params.page <= TotalPages(total, params.size))
  {
  }

  /** A page has no next link exactly when no record lies beyond its window. */
  lemma NoNextIff<T>(records: seq<T>, params: Params)
    requires ValidParams(params)
    ensures Create(Items(records, params), params, |records|).links.next.None? <==>
              |records| <= ToRawParams(params).offset + ToRawParams(params).limit
  {
    PageOf(|records|, params.size, params.page + 1);
    assert params.size * (params.page - 1) + params.size == params.size * params.page;
  }

  /**
   A page reports what it was made from, and the least number of pages that hold all records. Its links keep
   the size; the first is page 1, and the last is the page that holds the last record, or page 1 if there is
   none. There is a next page exactly if records lie beyond this one, and a previous one exactly from page 2 on.
   */
  lemma PageReports<T>(items: seq<T>, params: Params, total: nat)
    requires ValidParams(params)
    ensures var page := Create(items, params, total);
            && page.items == items && page.total == total && page.page == params.page && page.size == params.size
            && params.size * page.totalPages >= total
            && (forall n: nat :: n < page.totalPages ==> params.size * n < total)
    ensures var links := Create(items, params, total).links;
            && links.first == Params(1, params.size) && links.self == params
            && links.last.size == params.size
            && (total > 0 ==> OnPage(total - 1, links.last))
            && (total == 0 ==> links.last.page == 1)
            && links.next == (if params.size * params.page < total then Some(Params(params.page + 1, params.size))
                              else None)
            && links.prev == (if params.page > 1 then Some(Params(params.page - 1, params.size)) else None)
  {
    var size, pages := params.size, TotalPages(total, params.size);
    PageOf(total, size, pages);
    PageOf(total, size, pages + 1);
    PageOf(total, size, params.page + 1);
    assert size * (pages - 1) + size == size * pages;
    forall n: nat | n < pages ensures size * n < total {
      PageOf(total, size, n + 1);
    }
    if total > 0 {
      assert ToRawParams(Params(pages, size)) == RawParams(size, size * (pages - 1));
    }
  }
}
