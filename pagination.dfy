/**
 * middleware/paginationMiddleware.js: turning the raw `page`, `page_size` and
 * `search` query parameters into `req.pagination`, the structure of the
 * search filter handed to the database, and the page metadata of a listing.
 */
module Pagination {
  import opened Wrappers
  import opened Js
  import opened ResponseUtils
  import opened ResponseMiddleware

  /** The query parameters the middleware reads; None when the parameter is absent. */
  datatype Query = Query(page: Option<string>, pageSize: Option<string>, search: Option<string>)

  /** What the middleware attaches as `req.pagination`. */
  datatype PageSpec = PageSpec(page: int, pageSize: int, skip: int, limit: int, search: Option<string>)

  datatype PageError = InvalidPage | InvalidPageSize

  const MaxPageSize := 100
  const DefaultPageSize := 10

  /** `parseInt(raw) || d`: the parsed number, or d when it is NaN or zero. */
  function QueryInt(raw: Option<string>, d: int): (v: int)
    ensures v == d || (raw.Some? && ParseInt(raw.value) == Some(v) && v != 0)
    ensures raw.Some? && ParseInt(raw.value).Some? && ParseInt(raw.value).value != 0 ==> v == ParseInt(raw.value).value
  {
    if raw.None? then d
    else match ParseInt(raw.value)
      case None => d
      case Some(n) => if n == 0 then d else n
  }

  /** `req.query.search || null` */
  function SearchTerm(raw: Option<string>): (t: Option<string>)
    ensures t.Some? <==> raw.Some? && raw.value != ""
    ensures t.Some? ==> t == raw
  {
    if raw.Some? && raw.value != "" then raw else None
  }

  /** The checks of paginationMiddleware, in its order: the page first, then the page size. */
  function ParsePagination(q: Query): (r: Result<PageSpec, PageError>)
    ensures r == Failure(InvalidPage) <==> QueryInt(q.page, 1) < 1
    ensures r == Failure(InvalidPageSize) <==>
              QueryInt(q.page, 1) >= 1 && !(1 <= QueryInt(q.pageSize, DefaultPageSize) <= MaxPageSize)
    ensures r.Success? ==>
              var p := r.value;
              && p.page == QueryInt(q.page, 1) >= 1
              && p.pageSize == QueryInt(q.pageSize, DefaultPageSize)
              && 1 <= p.pageSize <= MaxPageSize
              && p.skip == (p.page - 1) * p.pageSize && p.skip >= 0
              && p.limit == p.pageSize
              && p.search == SearchTerm(q.search)
  {
    var page := QueryInt(q.page, 1);
    var pageSize := QueryInt(q.pageSize, DefaultPageSize);
    if page < 1 then Failure(InvalidPage)
    else if pageSize < 1 || pageSize > MaxPageSize then Failure(InvalidPageSize)
    else
      MulMonotone(0, page - 1, pageSize);
      Success(PageSpec(page, pageSize, (page - 1) * pageSize, pageSize, SearchTerm(q.search)))
  }

  /** A missing, non-numeric or zero page is page 1: only a negative number is rejected. */
  lemma InvalidPageOnlyWhenNegative(q: Query)
    ensures ParsePagination(q) == Failure(InvalidPage) <==>
              q.page.Some? && ParseInt(q.page.value).Some? && ParseInt(q.page.value).value < 0
  {
  }

  /** A missing, non-numeric or zero page size is 10 items. */
  lemma PageSizeDefault(q: Query)
    requires q.pageSize.None? || ParseInt(q.pageSize.value) in {None, Some(0)}
    requires QueryInt(q.page, 1) >= 1
    ensures ParsePagination(q).Success? && ParsePagination(q).value.pageSize == DefaultPageSize
  {
  }

  /** Writing the numbers back as text gives the very page requested. */
  lemma ParsesWrittenNumbers(page: int, pageSize: int, search: Option<string>)
    requires page >= 1 && 1 <= pageSize <= MaxPageSize
    ensures ParsePagination(Query(Some(IntToString(page)), Some(IntToString(pageSize)), search))
            == Success(PageSpec(page, pageSize, (page - 1) * pageSize, pageSize, SearchTerm(search)))
  {
    ParseIntToString(page);
    ParseIntToString(pageSize);
  }

  /** The request as seen by the middleware: its query and the `pagination` it may attach. */
  class Request {
    var query: Query
    var pagination: Option<PageSpec>

    constructor (q: Query)
      ensures query == q && pagination == None
    {
      query := q;
      pagination := None;
    }
  }

  /**
   * `paginationMiddleware(req, res, next)`: proceed is true when next() is
   * called; otherwise a 400 error envelope was sent and req is untouched.
   */
  method PaginationMiddleware(req: Request, res: Response) returns (proceed: bool)
    modifies req, res
    ensures req.query == old(req.query)
    ensures proceed <==> ParsePagination(req.query).Success?
    ensures proceed ==> req.pagination == Some(ParsePagination(req.query).value) && unchanged(res)
    ensures !proceed ==> req.pagination == old(req.pagination) && res.statusCode == 400
    ensures ParsePagination(req.query) == Failure(InvalidPage) ==>
              res.sent == Some(ErrorResponse(Str("Page number must be greater than 0"), Str("INVALID_PAGE"), EmptyObject, Str("400")))
    ensures ParsePagination(req.query) == Failure(InvalidPageSize) ==>
              res.sent == Some(ErrorResponse(Str("Page size must be between 1 and 100"), Str("INVALID_PAGE_SIZE"), EmptyObject, Str("400")))
  {
    var page := QueryInt(req.query.page, 1);
    var pageSize := QueryInt(req.query.pageSize, DefaultPageSize);
    var search := SearchTerm(req.query.search);
    assert IntToString(400) == "400";
    if page < 1 {
      res.Error(Str("Page number must be greater than 0"), Str("INVALID_PAGE"), EmptyObject, 400);
      return false;
    }
    if pageSize < 1 || pageSize > MaxPageSize {
      res.Error(Str("Page size must be between 1 and 100"), Str("INVALID_PAGE_SIZE"), EmptyObject, 400);
      return false;
    }
    var skip := (page - 1) * pageSize;
    req.pagination := Some(PageSpec(page, pageSize, skip, pageSize, search));
    return true;
  }

  // ---------------------------------------------------------------------------
  // createSearchFilter

  /** `{ [field]: { $regex: new RegExp(pattern, 'i') } }`; the pattern is kept as the text it is compiled from. */
  datatype Clause = Clause(field: string, pattern: string)

  /** `{}`, a single-field clause, or `{ $or: [...] }`. */
  datatype SearchFilter = MatchAll | Single(clause: Clause) | AnyOf(clauses: seq<Clause>)

  /** `createSearchFilter(searchTerm, searchFields)`; None stands for a null or undefined argument. */
  function CreateSearchFilter(term: Option<string>, fields: Option<seq<string>>): (f: SearchFilter)
    ensures f.MatchAll? <==> term.None? || term.value == "" || fields.None? || |fields.value| == 0
    ensures f.Single? <==> !f.MatchAll? && |fields.value| == 1
    ensures f.Single? ==> f.clause == Clause(fields.value[0], term.value)
    ensures f.AnyOf? ==>
              && |f.clauses| == |fields.value| >= 2
              && forall i :: 0 <= i < |f.clauses| ==> f.clauses[i] == Clause(fields.value[i], term.value)
  {
    if term.None? || term.value == "" || fields.None? || |fields.value| == 0 then MatchAll
    else if |fields.value| == 1 then Single(Clause(fields.value[0], term.value))
    else AnyOf(seq(|fields.value|, i requires 0 <= i < |fields.value| => Clause(fields.value[i], term.value)))
  }

  /**
   * Whether a document passes the filter, given what a regular-expression
   * match of a pattern against a field value yields (`hit`). A field the
   * document lacks never matches.
   */
  predicate Matches(f: SearchFilter, doc: map<string, string>, hit: (string, string) -> bool) {
    match f
    case MatchAll => true
    case Single(c) => c.field in doc && hit(doc[c.field], c.pattern)
    case AnyOf(cs) => exists i :: 0 <= i < |cs| && cs[i].field in doc && hit(doc[cs[i].field], cs[i].pattern)
  }

  /** With a term and at least one field, a document matches iff the term matches one of the fields. */
  lemma SearchIsAnyField(term: string, fields: seq<string>, doc: map<string, string>, hit: (string, string) -> bool)
    requires term != "" && |fields| > 0
    ensures Matches(CreateSearchFilter(Some(term), Some(fields)), doc, hit) <==>
              exists i :: 0 <= i < |fields| && fields[i] in doc && hit(doc[fields[i]], term)
  {
    var f := CreateSearchFilter(Some(term), Some(fields));
    if |fields| == 1 {
      if exists i :: 0 <= i < |fields| && fields[i] in doc && hit(doc[fields[i]], term) {
        var i :| 0 <= i < |fields| && fields[i] in doc && hit(doc[fields[i]], term);
        assert i == 0;
      }
    } else {
      if Matches(f, doc, hit) {
        var i :| 0 <= i < |f.clauses| && f.clauses[i].field in doc && hit(doc[f.clauses[i].field], f.clauses[i].pattern);
        assert fields[i] in doc && hit(doc[fields[i]], term);
      }
      if exists i :: 0 <= i < |fields| && fields[i] in doc && hit(doc[fields[i]], term) {
        var i :| 0 <= i < |fields| && fields[i] in doc && hit(doc[fields[i]], term);
        assert f.clauses[i].field in doc && hit(doc[f.clauses[i].field], f.clauses[i].pattern);
      }
    }
  }

  /** Without a term, or without fields, every document matches. */
  lemma NoSearchMatchesAll(term: Option<string>, fields: Option<seq<string>>, doc: map<string, string>, hit: (string, string) -> bool)
    requires term.None? || term.value == "" || fields.None? || |fields.value| == 0
    ensures Matches(CreateSearchFilter(term, fields), doc, hit)
  {
  }

  // ---------------------------------------------------------------------------
  // calculatePaginationMetadata

  /** The object calculatePaginationMetadata returns; None stands for null. */
  datatype PageMeta = PageMeta(
    currentPage: int, pageSize: int, totalItems: int, totalPages: int,
    hasNextPage: bool, hasPreviousPage: bool, nextPage: Option<int>, previousPage: Option<int>)

  /** `calculatePaginationMetadata(totalItems, page, pageSize)` */
  function CalculatePaginationMetadata(totalItems: nat, page: int, pageSize: int): (m: PageMeta)
    requires pageSize > 0
    ensures m.currentPage == page && m.pageSize == pageSize && m.totalItems == totalItems
    ensures m.totalPages >= 0
    ensures m.totalPages * pageSize >= totalItems && (m.totalPages - 1) * pageSize < totalItems
    ensures m.hasNextPage <==> page < m.totalPages
    ensures m.nextPage == (if m.hasNextPage then Some(page + 1) else None)
    ensures m.hasPreviousPage <==> page > 1
    ensures m.previousPage == (if m.hasPreviousPage then Some(page - 1) else None)
  {
    var totalPages := CeilDiv(totalItems, pageSize);
    PageMeta(page, pageSize, totalItems, totalPages,
             page < totalPages, page > 1,
             if page < totalPages then Some(page + 1) else None,
             if page > 1 then Some(page - 1) else None)
  }

  /** The page count agrees with the one createPagination reports. */
  lemma MetadataAgreesWithCreatePagination(totalItems: nat, page: int, pageSize: int)
    requires pageSize > 0
    ensures CreatePagination(page, totalItems, pageSize).fields["total_pages"]
            == Num(CalculatePaginationMetadata(totalItems, page, pageSize).totalPages)
  {
  }

  /**
   * Pages 1..totalPages are exactly the pages with items on them: the skip of
   * each is below the total, and the last one reaches it.
   */
  lemma {:induction false} PagesCoverItems(totalItems: nat, page: int, pageSize: int)
    requires pageSize > 0
    ensures var m := CalculatePaginationMetadata(totalItems, page, pageSize);
            (1 <= page <= m.totalPages ==> 0 <= (page - 1) * pageSize < totalItems)
            && (page > m.totalPages ==> (page - 1) * pageSize >= totalItems)
  {
    var t := CalculatePaginationMetadata(totalItems, page, pageSize).totalPages;
    if 1 <= page <= t {
      assert (page - 1) * pageSize <= (t - 1) * pageSize by {
        MulMonotone(page - 1, t - 1, pageSize);
      }
    }
    if page > t {
      assert t * pageSize <= (page - 1) * pageSize by {
        MulMonotone(t, page - 1, pageSize);
      }
    }
  }

  lemma MulMonotone(a: int, b: int, c: nat)
    requires a <= b
    ensures a * c <= b * c
  {
  }

  /** Following next_page from page p lands on a page whose previous_page is p. */
  lemma NextThenPrevious(totalItems: nat, page: int, pageSize: int)
    requires pageSize > 0 && page >= 1
    requires CalculatePaginationMetadata(totalItems, page, pageSize).hasNextPage
    ensures var next := CalculatePaginationMetadata(totalItems, page, pageSize).nextPage.value;
            CalculatePaginationMetadata(totalItems, next, pageSize).previousPage == Some(page)
  {
  }

  /** 25 items in pages of 10: three pages, the third has no next page. */
  lemma MetadataExample()
    ensures CalculatePaginationMetadata(25, 3, 10)
            == PageMeta(3, 10, 25, 3, false, true, None, Some(2))
  {
  }
}
