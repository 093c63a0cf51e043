/**
 * The audit log page of src/pages/Audit.tsx: the admin-only gate, the state
 * update of `fetchAudits`, the page effect, `handleFilter`, and the pager's
 * page count and Previous/Next steps. The backend's answer to an audit query
 * is the oracle `server` (None when the request fails).
 */
module Audit {
  import opened Wrappers
  import opened AuthStore
  import opened ProtectedRoute
  import Routes

  /** A page size as the page uses it: a divisor, so positive. */
  type PageSize = n: int | n > 0 witness 1

  datatype AuditRecord = AuditRecord(id: string, userId: string, userEmail: string, action: string,
                                     entity: string, entityId: string, createdAt: string)

  datatype AuditFilters = AuditFilters(entity: string, userEmail: string, action: string, from: string, to: string)

  datatype AuditPagination = AuditPagination(total: int, page: int, pageSize: PageSize)

  datatype AuditQuery = AuditQuery(filters: AuditFilters, page: int, pageSize: PageSize)

  /** The pagination envelope of GET /audit; the page ignores `pages`. */
  datatype AuditEnvelope = AuditEnvelope(total: int, page: int, pageSize: PageSize, pages: int, items: seq<AuditRecord>)

  const InitialFilters := AuditFilters("", "", "", "", "")
  const InitialPagination := AuditPagination(0, 1, 10)

  /** Audit.tsx:22-28: only `user?.role === 'admin'` sees the log; everyone else gets the permission message. */
  predicate ShowsAuditLog(user: Option<User>) {
    user.Some? && user.value.role == Admin
  }

  /** `Math.ceil(total / pageSize)` for a positive page size. */
  function PageCount(total: int, pageSize: PageSize): int {
    -((-total) / pageSize)
  }

  /** PageCount is the ceiling of total / pageSize. */
  lemma {:induction false} PageCountIsCeiling(total: int, pageSize: PageSize)
    ensures (PageCount(total, pageSize) - 1) * pageSize < total <= PageCount(total, pageSize) * pageSize
  {
    var q, r := (-total) / pageSize, (-total) % pageSize;
    assert -total == q * pageSize + r && 0 <= r < pageSize;
    assert PageCount(total, pageSize) * pageSize == -(q * pageSize);
    assert (PageCount(total, pageSize) - 1) * pageSize == -(q * pageSize) - pageSize;
  }

  lemma {:induction false} MulMonotone(a: int, b: int, k: PageSize)
    requires a <= b
    ensures a * k <= b * k
  {
    assert b * k - a * k == (b - a) * k;
  }

  /** ...and the only integer with that property. */
  lemma {:induction false} PageCountIsUnique(total: int, pageSize: PageSize, c: int)
    requires (c - 1) * pageSize < total <= c * pageSize
    ensures c == PageCount(total, pageSize)
  {
    var n := PageCount(total, pageSize);
    PageCountIsCeiling(total, pageSize);
    if c < n {
      MulMonotone(c, n - 1, pageSize);
    } else if c > n {
      MulMonotone(n, c - 1, pageSize);
    }
  }

  /** The pager (Audit.tsx:166): shown only when the records exceed one page. */
  predicate ShowPager(loading: bool, p: AuditPagination) {
    !loading && p.total > p.pageSize
  }

  predicate PreviousDisabled(p: AuditPagination) {
    p.page == 1
  }

  predicate NextDisabled(p: AuditPagination) {
    p.page >= PageCount(p.total, p.pageSize)
  }

  /** A shown pager always has at least two pages. */
  lemma {:induction false} PagerMeansSeveralPages(p: AuditPagination)
    requires ShowPager(false, p)
    ensures PageCount(p.total, p.pageSize) >= 2
  {
    PageCountIsCeiling(p.total, p.pageSize);
  }

  /** Previous: `Math.max(1, page - 1)`. */
  function PreviousPage(page: int): (r: int)
    ensures r >= 1
    ensures page > 1 ==> r == page - 1
  {
    if page - 1 > 1 then page - 1 else 1
  }

  /** Next: `Math.min(pageCount, page + 1)`. */
  function NextPage(page: int, pageCount: int): (r: int)
    ensures r <= pageCount
    ensures page < pageCount ==> r == page + 1
  {
    if pageCount < page + 1 then pageCount else page + 1
  }

  /** Next then Previous restores a page below the last. */
  lemma NextThenPrevious(p: int, pageCount: int)
    requires 1 <= p < pageCount
    ensures PreviousPage(NextPage(p, pageCount)) == p
  {
  }

  /** Previous then Next restores a page above the first. */
  lemma PreviousThenNext(p: int, pageCount: int)
    requires 1 < p <= pageCount
    ensures NextPage(PreviousPage(p), pageCount) == p
  {
  }

  /** An operator passes the route guard of /audit, and the page itself then refuses the log. */
  lemma OperatorPassesRouteButNotPage(token: Option<string>, user: User)
    requires Truthy(token) && user.role == Operator
    ensures Routes.Access(true, token, "/audit", Some(user)) == Some(Outlet)
    ensures !ShowsAuditLog(Some(user))
  {
    Routes.NormalPatterns();
    Routes.AuditNeedsAdminOrOperator(true, token, Routes.AuditPath, Some(user));
  }

  /** Whoever the page shows the log to has passed the route guard. */
  lemma PageGateWithinRouteGate(token: Option<string>, user: Option<User>)
    requires Truthy(token) && ShowsAuditLog(user)
    ensures Routes.Access(true, token, "/audit", user) == Some(Outlet)
  {
    Routes.NormalPatterns();
    Routes.AuditNeedsAdminOrOperator(true, token, Routes.AuditPath, user);
  }

  /** The page as rendered for an admin; `effectPage` is the page the effect of lines 47-49 last ran for. */
  class AuditPage {
    var records: seq<AuditRecord>
    var loading: bool
    var filters: AuditFilters
    var pagination: AuditPagination
    var effectPage: Option<int>

    constructor ()
      ensures records == [] && loading && filters == InitialFilters
      ensures pagination == InitialPagination && effectPage == None
    {
      records, loading, filters := [], true, InitialFilters;
      pagination, effectPage := InitialPagination, None;
    }

    /** `fetchAudits(page)`: query, then store the envelope (without `pages`) or keep the old state. */
    method FetchAudits(page: int, server: AuditQuery -> Option<AuditEnvelope>) returns (q: AuditQuery)
      modifies this
      ensures q == AuditQuery(old(filters), page, old(pagination.pageSize))
      ensures filters == old(filters) && effectPage == old(effectPage) && !loading
      ensures server(q).Some? ==>
        var e := server(q).value;
        records == e.items && pagination == AuditPagination(e.total, e.page, e.pageSize)
      ensures server(q).None? ==> records == old(records) && pagination == old(pagination)
    {
      loading := true;
      q := AuditQuery(filters, page, pagination.pageSize);
      var reply := server(q);
      if reply.Some? {
        records := reply.value.items;
        pagination := AuditPagination(reply.value.total, reply.value.page, reply.value.pageSize);
      }
      loading := false;
    }

    /** The effect on `pagination.page`: it fetches that page whenever the page has changed since its last run. */
    method RunPageEffect(server: AuditQuery -> Option<AuditEnvelope>) returns (q: Option<AuditQuery>)
      modifies this
      ensures old(effectPage) == Some(old(pagination.page)) ==>
        && q == None && records == old(records) && pagination == old(pagination)
        && loading == old(loading) && effectPage == old(effectPage)
      ensures old(effectPage) != Some(old(pagination.page)) ==>
        && q == Some(AuditQuery(old(filters), old(pagination.page), old(pagination.pageSize)))
        && effectPage == Some(old(pagination.page)) && !loading
        && (server(q.value).Some? ==>
              var e := server(q.value).value;
              records == e.items && pagination == AuditPagination(e.total, e.page, e.pageSize))
        && (server(q.value).None? ==> records == old(records) && pagination == old(pagination))
      ensures filters == old(filters)
    {
      if effectPage == Some(pagination.page) {
        return None;
      }
      effectPage := Some(pagination.page);
      var query := FetchAudits(pagination.page, server);
      q := Some(query);
    }

    /** `handleFilter`: reset the page to 1 and fetch page 1. */
    method HandleFilter(server: AuditQuery -> Option<AuditEnvelope>) returns (q: AuditQuery)
      modifies this
      ensures q == AuditQuery(old(filters), 1, old(pagination.pageSize))
      ensures filters == old(filters) && effectPage == old(effectPage) && !loading
      ensures server(q).Some? ==>
        var e := server(q).value;
        records == e.items && pagination == AuditPagination(e.total, e.page, e.pageSize)
      ensures server(q).None? ==> records == old(records) && pagination == old(pagination).(page := 1)
    {
      pagination := pagination.(page := 1);
      q := FetchAudits(1, server);
    }

    /** The Previous button: nothing when disabled, otherwise page := max(1, page - 1). */
    method Previous()
      modifies this
      ensures pagination == if PreviousDisabled(old(pagination)) then old(pagination)
                            else old(pagination).(page := PreviousPage(old(pagination.page)))
      ensures records == old(records) && loading == old(loading) && filters == old(filters) && effectPage == old(effectPage)
    {
      if pagination.page != 1 {
        pagination := pagination.(page := if 1 > pagination.page - 1 then 1 else pagination.page - 1);
      }
    }

    /** The Next button: nothing when disabled, otherwise page := min(pageCount, page + 1). */
    method Next()
      modifies this
      ensures pagination == if NextDisabled(old(pagination)) then old(pagination)
                            else old(pagination).(page := NextPage(old(pagination.page), PageCount(old(pagination.total), old(pagination.pageSize))))
      ensures records == old(records) && loading == old(loading) && filters == old(filters) && effectPage == old(effectPage)
    {
      var count := -((-pagination.total) / pagination.pageSize);
      if pagination.page < count {
        pagination := pagination.(page := if count < pagination.page + 1 then count else pagination.page + 1);
      }
    }

    /** Editing a filter input only changes the filters. */
    method SetFilters(f: AuditFilters)
      modifies this
      ensures filters == f
      ensures records == old(records) && loading == old(loading) && pagination == old(pagination) && effectPage == old(effectPage)
    {
      filters := f;
    }
  }
}
