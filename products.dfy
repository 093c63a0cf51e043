/**
 * The product list of src/pages/Products.tsx: the page clamp and state update
 * of `fetchProducts`, `handleFilter`, the pager conditions and the admin-only
 * controls. The backend's answer to a product query is the oracle `server`
 * (None when the request fails).
 */
module Products {
  import opened Wrappers
  import opened AuthStore
  import opened ProtectedRoute
  import Routes

  datatype Product = Product(id: string, name: string, category: string, price: real, stock: int)

  datatype Filters = Filters(q: string, category: string, sort: string, order: string)

  datatype Pagination = Pagination(total: int, page: int, pageSize: int, pages: int)

  /** The parameters of `getProducts`: the filters, the page and the page size. */
  datatype Query = Query(filters: Filters, page: int, pageSize: int)

  /** The pagination envelope of GET /products. */
  datatype Envelope = Envelope(total: int, page: int, pageSize: int, pages: int, items: seq<Product>)

  /** The argument of `fetchProducts`: omitted, a value `Number` turns into NaN, or an integer. */
  datatype PageArg = Omitted | NotANumber | Page(n: int)

  const InitialFilters := Filters("", "", "createdAt", "DESC")
  const InitialPagination := Pagination(0, 1, 10, 1)

  /** The page `fetchProducts` requests (Products.tsx:42-48). */
  function ClampedPage(arg: PageArg, pages: int): (p: int)
    ensures p >= 1
    ensures pages >= 1 ==> p <= pages
    ensures arg.Omitted? || arg.NotANumber? ==> p == 1
    ensures arg.Page? && arg.n < 1 ==> p == 1
    ensures arg.Page? && 1 <= arg.n && (arg.n <= pages || pages <= 0) ==> p == arg.n
    ensures arg.Page? && arg.n > pages && pages > 0 ==> p == pages
  {
    match arg
    case Omitted => 1
    case NotANumber => 1
    case Page(n) =>
      if n < 1 then 1
      else if n > pages && pages > 0 then pages
      else n
  }

  /** Clamping a clamped page changes nothing. */
  lemma ClampIdempotent(arg: PageArg, pages: int)
    ensures ClampedPage(Page(ClampedPage(arg, pages)), pages) == ClampedPage(arg, pages)
  {
  }

  /** With no upper bound (pages = 0) any page of at least 1 is requested as given. */
  lemma NoUpperClampWithoutPages(n: int)
    requires n >= 1
    ensures ClampedPage(Page(n), 0) == n
  {
  }

  /** The pager (Products.tsx:264): shown only with more than one page. */
  predicate ShowPager(loading: bool, p: Pagination) {
    !loading && p.pages > 1
  }

  predicate PreviousDisabled(p: Pagination) {
    p.page <= 1
  }

  predicate NextDisabled(p: Pagination) {
    p.page >= p.pages
  }

  /** An enabled Previous or Next on an in-range page requests exactly the neighbouring page. */
  lemma PagerStepsAreExact(p: Pagination)
    requires ShowPager(false, p) && 1 <= p.page <= p.pages
    ensures !PreviousDisabled(p) ==> ClampedPage(Page(p.page - 1), p.pages) == p.page - 1
    ensures !NextDisabled(p) ==> ClampedPage(Page(p.page + 1), p.pages) == p.page + 1
  {
  }

  /** Import, new, edit and delete are rendered only for `user?.role === 'admin'`. */
  predicate ShowsAdminControls(user: Option<User>) {
    user.Some? && user.value.role == Admin
  }

  /** The users who see the admin controls are exactly the users with a user object that /users admits. */
  lemma AdminControlsMatchUsersRoute(token: Option<string>, user: User)
    requires Truthy(token)
    ensures ShowsAdminControls(Some(user)) <==> Routes.Access(true, token, "/users", Some(user)) == Some(Outlet)
    ensures !ShowsAdminControls(None)
  {
    Routes.NormalPatterns();
    Routes.UsersNeedsAdmin(true, token, Routes.UsersPath, Some(user));
  }

  class ProductsPage {
    var products: seq<Product>
    var loading: bool
    var pagination: Pagination
    var filters: Filters

    constructor ()
      ensures products == [] && loading && pagination == InitialPagination && filters == InitialFilters
    {
      products, loading := [], true;
      pagination, filters := InitialPagination, InitialFilters;
    }

    /** `fetchProducts(page)`: clamp the page, query, then store the envelope or keep the old state. */
    method FetchProducts(arg: PageArg, server: Query -> Option<Envelope>) returns (q: Query)
      modifies this
      ensures q == Query(old(filters), ClampedPage(arg, old(pagination.pages)), old(pagination.pageSize))
      ensures filters == old(filters) && !loading
      ensures server(q).Some? ==>
        var e := server(q).value;
        products == e.items && pagination == Pagination(e.total, e.page, e.pageSize, e.pages)
      ensures server(q).None? ==> products == old(products) && pagination == old(pagination)
    {
      var page: int;
      match arg {
        case Omitted => page := 1;
        case NotANumber => page := 1;
        case Page(n) => page := n;
      }
      if page < 1 {
        page := 1;
      }
      if page > pagination.pages && pagination.pages > 0 {
        page := pagination.pages;
      }
      loading := true;
      q := Query(filters, page, pagination.pageSize);
      var reply := server(q);
      if reply.Some? {
        products := reply.value.items;
        pagination := Pagination(reply.value.total, reply.value.page, reply.value.pageSize, reply.value.pages);
      }
      loading := false;
    }

    /** `handleFilter`: reset the page to 1 and fetch page 1 with the current filters and page size. */
    method HandleFilter(server: Query -> Option<Envelope>) returns (q: Query)
      modifies this
      ensures q == Query(old(filters), 1, old(pagination.pageSize))
      ensures filters == old(filters) && !loading
      ensures server(q).Some? ==>
        var e := server(q).value;
        products == e.items && pagination == Pagination(e.total, e.page, e.pageSize, e.pages)
      ensures server(q).None? ==> products == old(products) && pagination == old(pagination).(page := 1)
    {
      pagination := pagination.(page := 1);
      q := FetchProducts(Page(1), server);
    }

    /** The Previous button: nothing when disabled, otherwise `fetchProducts(page - 1)`. */
    method Previous(server: Query -> Option<Envelope>) returns (q: Option<Query>)
      modifies this
      ensures filters == old(filters)
      ensures PreviousDisabled(old(pagination)) ==>
        q == None && pagination == old(pagination) && products == old(products) && loading == old(loading)
      ensures !PreviousDisabled(old(pagination)) ==>
        && q == Some(Query(old(filters), ClampedPage(Page(old(pagination.page) - 1), old(pagination.pages)), old(pagination.pageSize)))
        && !loading
        && (server(q.value).Some? ==>
              var e := server(q.value).value;
              products == e.items && pagination == Pagination(e.total, e.page, e.pageSize, e.pages))
        && (server(q.value).None? ==> products == old(products) && pagination == old(pagination))
    {
      if pagination.page <= 1 {
        return None;
      }
      var query := FetchProducts(Page(pagination.page - 1), server);
      q := Some(query);
    }

    /** The Next button: nothing when disabled, otherwise `fetchProducts(page + 1)`. */
    method Next(server: Query -> Option<Envelope>) returns (q: Option<Query>)
      modifies this
      ensures filters == old(filters)
      ensures NextDisabled(old(pagination)) ==>
        q == None && pagination == old(pagination) && products == old(products) && loading == old(loading)
      ensures !NextDisabled(old(pagination)) ==>
        && q == Some(Query(old(filters), ClampedPage(Page(old(pagination.page) + 1), old(pagination.pages)), old(pagination.pageSize)))
        && !loading
        && (server(q.value).Some? ==>
              var e := server(q.value).value;
              products == e.items && pagination == Pagination(e.total, e.page, e.pageSize, e.pages))
        && (server(q.value).None? ==> products == old(products) && pagination == old(pagination))
    {
      if pagination.page >= pagination.pages {
        return None;
      }
      var query := FetchProducts(Page(pagination.page + 1), server);
      q := Some(query);
    }

    /** Editing a filter input only changes the filters. */
    method SetFilters(f: Filters)
      modifies this
      ensures filters == f
      ensures products == old(products) && loading == old(loading) && pagination == old(pagination)
    {
      filters := f;
    }
  }
}
