/** `GET /api/search`: one request searches clinics, treatments or both, filling a
    result object field by field (app/api/search/route.ts). */
module SearchRoute {
  import opened Wrappers
  import opened Text
  import opened Query
  import opened Http
  import opened Store
  import Constants

  /** The query string, each parameter absent (or empty) as None; page and limit
      are taken already parsed to integers. */
  datatype SearchParams = SearchParams(
    q: Option<string>,
    kind: Option<string>,
    region: Option<string>,
    page: Option<int>,
    limit: Option<int>)

  datatype SearchResults = SearchResults(
    clinics: seq<ClinicListing>,
    treatments: seq<Treatment>,
    pagination: Pagination)

  /** `q || ''`. */
  function QueryOf(p: SearchParams): string {
    if Truthy(p.q) then p.q.value else ""
  }

  /** `type || 'all'`. */
  function KindOf(p: SearchParams): string {
    if Truthy(p.kind) then p.kind.value else "all"
  }

  function PageOf(p: SearchParams): int {
    p.page.GetOr(1)
  }

  function LimitOf(p: SearchParams): int {
    p.limit.GetOr(Constants.ITEMS_PER_PAGE)
  }

  function SkipOf(p: SearchParams): int {
    (PageOf(p) - 1) * LimitOf(p)
  }

  predicate QueriesClinics(kind: string) {
    kind == "all" || kind == "clinic"
  }

  predicate QueriesTreatments(kind: string, q: string) {
    (kind == "all" || kind == "treatment") && q != ""
  }

  /** The result object before either branch runs. */
  function InitialResults(page: int, limit: int): (r: SearchResults)
    ensures r.clinics == [] && r.treatments == []
    ensures r.pagination.page == page && r.pagination.limit == limit
    ensures r.pagination.total == 0 && r.pagination.totalPages == 0
  {
    SearchResults([], [], Pagination(page, limit, 0, 0))
  }

  /** The clinic `where` of lines 26-40: always active, the text `OR` only for a
      non-empty query, the region only when given. */
  function SearchWhere(q: string, region: Option<string>): (w: ClinicWhere)
    ensures forall c :: Matches(w, c) <==>
      && c.isActive
      && (Truthy(region) ==> c.region == region.value)
      && (q != "" ==> TextMatches(c, q))
  {
    ClinicWhere(true, if Truthy(region) then region else None, if q != "" then Some(q) else None)
  }

  /** A treatment matches when the query is a case-insensitive substring of its
      Korean or English name. */
  predicate TreatmentMatches(q: string, t: Treatment) {
    ContainsInsensitive(t.name, q) || ContainsInsensitive(t.nameEn, q)
  }

  function TreatmentMatchesBy(q: string): Treatment -> bool {
    (t: Treatment) => TreatmentMatches(q, t)
  }

  /** The treatments the search returns: the first ten matches in table order. */
  function MatchingTreatments(db: Db, q: string): (r: seq<Treatment>)
    ensures |r| <= 10
    ensures forall i :: 0 <= i < |r| ==> TreatmentMatches(q, r[i])
    ensures IsSubsequence(r, db.treatments)
    ensures |r| == MinNat(10, Count(db.treatments, TreatmentMatchesBy(q)))
  {
    var all := Filter(db.treatments, TreatmentMatchesBy(q));
    FilterIsSubsequence(db.treatments, TreatmentMatchesBy(q));
    CountIsFilterLength(db.treatments, TreatmentMatchesBy(q));
    var r := SkipTake(all, 0, 10);
    assert r == all[..|r|];
    PrefixIsSubsequence(all, |r|, db.treatments);
    r
  }

  /** The clinics the search matches, in table order (the query has no `orderBy`). */
  function MatchingClinics(db: Db, p: SearchParams): (r: seq<Clinic>)
    ensures |r| == Count(db.clinics, WhereOf(SearchWhere(QueryOf(p), p.region)))
    ensures forall i :: 0 <= i < |r| ==> Matches(SearchWhere(QueryOf(p), p.region), r[i])
    ensures IsSubsequence(r, db.clinics)
  {
    var w := WhereOf(SearchWhere(QueryOf(p), p.region));
    CountIsFilterLength(db.clinics, w);
    FilterIsSubsequence(db.clinics, w);
    Filter(db.clinics, w)
  }

  /** The body of a successful response: when clinics are searched, the window
      `[skip, skip + limit)` of the matching clinics with their total; the first ten
      matching treatments for a non-empty query of a treatment-searching type. */
  function SearchBody(db: Db, p: SearchParams): (r: SearchResults)
    requires LimitOf(p) >= 1
    requires QueriesClinics(KindOf(p)) ==> SkipOf(p) >= 0
    ensures r.pagination.page == PageOf(p) && r.pagination.limit == LimitOf(p)
    ensures r.pagination.total == if QueriesClinics(KindOf(p)) then |MatchingClinics(db, p)| else 0
    ensures r.pagination.totalPages == CeilDiv(r.pagination.total, LimitOf(p))
    ensures |r.clinics| ==
      if !QueriesClinics(KindOf(p)) || SkipOf(p) >= r.pagination.total then 0
      else MinNat(LimitOf(p), r.pagination.total - SkipOf(p))
    ensures forall i :: 0 <= i < |r.clinics| ==> r.clinics[i] == ListingOf(db)(MatchingClinics(db, p)[SkipOf(p) + i])
    ensures forall i :: 0 <= i < |r.clinics| ==>
      var c := r.clinics[i].clinic;
      && c.isActive
      && (Truthy(p.region) ==> c.region == p.region.value)
      && (QueryOf(p) != "" ==> TextMatches(c, QueryOf(p)))
    ensures r.treatments == if QueriesTreatments(KindOf(p), QueryOf(p)) then MatchingTreatments(db, QueryOf(p)) else []
  {
    var q := QueryOf(p);
    var treatments := if QueriesTreatments(KindOf(p), q) then MatchingTreatments(db, q) else [];
    if QueriesClinics(KindOf(p)) then
      var rows := MatchingClinics(db, p);
      var clinics := Map(SkipTake(rows, SkipOf(p), LimitOf(p)), ListingOf(db));
      assert forall i :: 0 <= i < |clinics| ==> clinics[i].clinic == rows[SkipOf(p) + i];
      SearchResults(clinics, treatments, Pagination(PageOf(p), LimitOf(p), |rows|, CeilDiv(|rows|, LimitOf(p))))
    else
      SearchResults([], treatments, Pagination(PageOf(p), LimitOf(p), 0, CeilDiv(0, LimitOf(p))))
  }

  /** The route handler, filling `results` step by step. A negative `skip` makes the
      clinic query fail, and only that query uses `skip`. */
  method Get(db: Db, p: SearchParams) returns (resp: Response<SearchResults>)
    requires LimitOf(p) >= 1
    ensures QueriesClinics(KindOf(p)) && SkipOf(p) < 0 ==> resp == Err(InternalError)
    ensures !(QueriesClinics(KindOf(p)) && SkipOf(p) < 0) ==> resp == Ok(SearchBody(db, p))
  {
    var q := QueryOf(p);
    var kind := KindOf(p);
    var page := PageOf(p);
    var limit := LimitOf(p);
    var skip := SkipOf(p);
    var results := InitialResults(page, limit);
    if kind == "all" || kind == "clinic" {
      var where := ClinicWhere(true, None, None);
      if q != "" {
        where := where.(search := Some(q));
      }
      if Truthy(p.region) {
        where := where.(region := p.region);
      }
      assert where == SearchWhere(q, p.region);
      if skip < 0 {
        return Err(InternalError);
      }
      var clinics := Map(SkipTake(Filter(db.clinics, WhereOf(where)), skip, limit), ListingOf(db));
      var total := Count(db.clinics, WhereOf(where));
      CountIsFilterLength(db.clinics, WhereOf(where));
      results := results.(clinics := clinics);
      results := results.(pagination := results.pagination.(total := results.pagination.total + total));
    }
    if kind == "all" || kind == "treatment" {
      if q != "" {
        results := results.(treatments := MatchingTreatments(db, q));
      }
    }
    results := results.(pagination := results.pagination.(totalPages := CeilDiv(results.pagination.total, limit)));
    resp := Ok(results);
  }

  /** `type=treatment` never counts anything: the total and the page count stay 0. */
  lemma TreatmentSearchHasNoTotal(db: Db, p: SearchParams)
    requires LimitOf(p) >= 1 && KindOf(p) == "treatment"
    ensures SearchBody(db, p).pagination.total == 0
    ensures SearchBody(db, p).pagination.totalPages == 0
    ensures SearchBody(db, p).clinics == []
  {
  }

  /** An empty query returns no treatments, whatever the type. */
  lemma EmptyQueryFindsNoTreatments(db: Db, p: SearchParams)
    requires LimitOf(p) >= 1 && (QueriesClinics(KindOf(p)) ==> SkipOf(p) >= 0)
    requires QueryOf(p) == ""
    ensures SearchBody(db, p).treatments == []
  {
  }
}
