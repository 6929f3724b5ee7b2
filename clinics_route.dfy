/** `GET /api/clinics`: filter the active clinics by region and free text, order
    them, and return one page with its pagination (app/api/clinics/route.ts). */
module ClinicsRoute {
  import opened Wrappers
  import opened Text
  import opened Query
  import opened Http
  import opened Store
  import Constants

  /** The query string, each parameter absent (or empty) as None. Page and limit are
      taken already parsed to integers. */
  datatype ClinicParams = ClinicParams(
    page: Option<int>,
    limit: Option<int>,
    region: Option<string>,
    treatmentId: Option<string>,
    minPrice: Option<string>,
    maxPrice: Option<string>,
    minRating: Option<string>,
    sort: Option<string>,
    search: Option<string>)

  /** The `SearchFilters` object the route builds from the query string. */
  datatype SearchFilters = SearchFilters(
    region: Option<string>,
    treatmentId: Option<string>,
    minPrice: Option<string>,
    maxPrice: Option<string>,
    minRating: Option<string>,
    sort: string,
    search: Option<string>)

  datatype OrderBy = ReviewCountDesc | CreatedAtDesc

  datatype ClinicsPage = ClinicsPage(data: seq<ClinicListing>, pagination: Pagination)

  function PageOf(p: ClinicParams): int {
    p.page.GetOr(1)
  }

  function LimitOf(p: ClinicParams): int {
    p.limit.GetOr(Constants.ITEMS_PER_PAGE)
  }

  /** Each `searchParams.get(k) || undefined`; the sort falls back to `rating`. */
  function FiltersOf(p: ClinicParams): (f: SearchFilters)
    ensures f.region.Some? <==> Truthy(p.region)
    ensures f.search.Some? <==> Truthy(p.search)
    ensures f.region.Some? ==> f.region == p.region
    ensures f.search.Some? ==> f.search == p.search
    ensures f.sort == if Truthy(p.sort) then p.sort.value else "rating"
  {
    SearchFilters(
      if Truthy(p.region) then p.region else None,
      if Truthy(p.treatmentId) then p.treatmentId else None,
      if Truthy(p.minPrice) then p.minPrice else None,
      if Truthy(p.maxPrice) then p.maxPrice else None,
      if Truthy(p.minRating) then p.minRating else None,
      if Truthy(p.sort) then p.sort.value else "rating",
      if Truthy(p.search) then p.search else None)
  }

  /** `getOrderBy`: the sort key names mapped to database orderings. */
  function GetOrderBy(sort: string): OrderBy {
    match sort
    case "rating" => ReviewCountDesc
    case "reviews" => ReviewCountDesc
    case "price-low" => CreatedAtDesc
    case "price-high" => CreatedAtDesc
    case "newest" => CreatedAtDesc
    case _ => ReviewCountDesc
  }

  /** Only the price sorts and `newest` order by creation time; every other key,
      known or not, orders by review count. */
  lemma GetOrderByCases(sort: string)
    ensures GetOrderBy(sort) == CreatedAtDesc <==> sort in {"price-low", "price-high", "newest"}
    ensures GetOrderBy(sort) == ReviewCountDesc <==> sort !in {"price-low", "price-high", "newest"}
  {
  }

  function ClinicKey(db: Db, o: OrderBy): Clinic -> int {
    (c: Clinic) => match o
         case ReviewCountDesc => ReviewCount(db, c.id)
         case CreatedAtDesc => c.createdAt
  }

  /** The clinic a request's filters select: active, in the region when one is
      given, and matching the search text when one is given. */
  predicate Selected(f: SearchFilters, c: Clinic) {
    && c.isActive
    && (f.region.Some? ==> c.region == f.region.value)
    && (f.search.Some? ==> TextMatches(c, f.search.value))
  }

  function SelectedBy(f: SearchFilters): Clinic -> bool {
    (c: Clinic) => Selected(f, c)
  }

  /** Every selected clinic, in the order the request's sort key gives. */
  function OrderedSelection(db: Db, f: SearchFilters): (r: seq<Clinic>)
    ensures forall i :: 0 <= i < |r| ==> Selected(f, r[i])
    ensures multiset(r) == multiset(Filter(db.clinics, SelectedBy(f)))
    ensures SortedBy(r, Desc(ClinicKey(db, GetOrderBy(f.sort))))
    ensures |r| == Count(db.clinics, SelectedBy(f))
  {
    var rows := Filter(db.clinics, SelectedBy(f));
    var r := SortBy(rows, Desc(ClinicKey(db, GetOrderBy(f.sort))));
    AllInSubMultiset(r, rows, SelectedBy(f));
    CountIsFilterLength(db.clinics, SelectedBy(f));
    r
  }

  /** Lines 22-36: start from `isActive: true`, then add `region` and the text `OR`. */
  method BuildWhere(f: SearchFilters) returns (w: ClinicWhere)
    ensures forall c :: Matches(w, c) <==> Selected(f, c)
  {
    w := ClinicWhere(true, None, None);
    if f.region.Some? {
      w := w.(region := f.region);
    }
    if f.search.Some? {
      w := w.(search := f.search);
    }
  }

  /** Rows skipped before the requested page: `(page - 1) * limit`. */
  function SkipOf(p: ClinicParams): int {
    (PageOf(p) - 1) * LimitOf(p)
  }

  /** The body of a successful response: the window `[skip, skip + limit)` of the
      ordered selection, each row with its main image and review count, in the
      request's order, and the count of every selected clinic with the number of
      pages it fills. */
  function PageBody(db: Db, f: SearchFilters, page: int, limit: int, skip: nat): (r: ClinicsPage)
    requires limit >= 1
    ensures r.pagination.page == page && r.pagination.limit == limit
    ensures r.pagination.total == Count(db.clinics, SelectedBy(f))
    ensures r.pagination.totalPages == CeilDiv(r.pagination.total, limit)
    ensures |r.data| == if skip >= r.pagination.total then 0 else MinNat(limit, r.pagination.total - skip)
    ensures forall i :: 0 <= i < |r.data| ==> r.data[i] == ListingOf(db)(OrderedSelection(db, f)[skip + i])
    ensures forall i :: 0 <= i < |r.data| ==> Selected(f, r.data[i].clinic)
    ensures forall i, j :: 0 <= i < j < |r.data| ==>
      ClinicKey(db, GetOrderBy(f.sort))(r.data[i].clinic) >= ClinicKey(db, GetOrderBy(f.sort))(r.data[j].clinic)
  {
    var ordered := OrderedSelection(db, f);
    var shown := SkipTake(ordered, skip, limit);
    var total := Count(db.clinics, SelectedBy(f));
    var data := Map(shown, ListingOf(db));
    var key := ClinicKey(db, GetOrderBy(f.sort));
    assert forall i :: 0 <= i < |data| ==> data[i].clinic == shown[i] == ordered[skip + i];
    assert forall i, j :: 0 <= i < j < |data| ==> key(data[i].clinic) >= key(data[j].clinic) by {
      SkipTakeSorted(ordered, skip, limit, Desc(key));
      forall i, j | 0 <= i < j < |data| ensures key(data[i].clinic) >= key(data[j].clinic) {
        assert Desc(key)(shown[i], shown[j]);
      }
    }
    ClinicsPage(data, Pagination(page, limit, total, CeilDiv(total, limit)))
  }

  /** The route handler. A negative `skip` is refused by the database client and
      lands in the `catch` branch. */
  method Get(db: Db, params: ClinicParams) returns (resp: Response<ClinicsPage>)
    requires LimitOf(params) >= 1
    ensures SkipOf(params) < 0 ==> resp == Err(InternalError)
    ensures SkipOf(params) >= 0 ==>
      resp == Ok(PageBody(db, FiltersOf(params), PageOf(params), LimitOf(params), SkipOf(params)))
  {
    var page := PageOf(params);
    var limit := LimitOf(params);
    var skip := SkipOf(params);
    var filters := FiltersOf(params);
    var where := BuildWhere(filters);
    if skip < 0 {
      return Err(InternalError);
    }
    var rows := Filter(db.clinics, WhereOf(where));
    var total := Count(db.clinics, WhereOf(where));
    assert rows == Filter(db.clinics, SelectedBy(filters)) && total == Count(db.clinics, SelectedBy(filters)) by {
      FilterExtensional(db.clinics, WhereOf(where), SelectedBy(filters));
      CountIsFilterLength(db.clinics, WhereOf(where));
      CountIsFilterLength(db.clinics, SelectedBy(filters));
    }
    var ordered := SortBy(rows, Desc(ClinicKey(db, GetOrderBy(filters.sort))));
    var clinics := Map(SkipTake(ordered, skip, limit), ListingOf(db));
    resp := Ok(ClinicsPage(clinics, Pagination(page, limit, total, CeilDiv(total, limit))));
  }

  /** `treatmentId`, `minPrice`, `maxPrice` and `minRating` are read into the filters
      but never reach the query: two requests differing only in them get the same page. */
  lemma UnusedFiltersChangeNothing(db: Db, p: ClinicParams, q: ClinicParams)
    requires p.page == q.page && p.limit == q.limit
    requires p.region == q.region && p.sort == q.sort && p.search == q.search
    requires LimitOf(p) >= 1 && SkipOf(p) >= 0
    ensures SkipOf(q) == SkipOf(p)
    ensures PageBody(db, FiltersOf(p), PageOf(p), LimitOf(p), SkipOf(p))
         == PageBody(db, FiltersOf(q), PageOf(q), LimitOf(q), SkipOf(q))
  {
    var f, g := FiltersOf(p), FiltersOf(q);
    assert forall c :: Selected(f, c) == Selected(g, c);
    FilterExtensional(db.clinics, SelectedBy(f), SelectedBy(g));
    CountIsFilterLength(db.clinics, SelectedBy(f));
    CountIsFilterLength(db.clinics, SelectedBy(g));
  }
}
