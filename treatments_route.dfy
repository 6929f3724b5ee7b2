/** `GET /api/treatments`: the treatments of an optional category in name order,
    optionally restricted to the ones a clinic offers (app/api/treatments/route.ts). */
module TreatmentsRoute {
  import opened Wrappers
  import opened Text
  import opened Query
  import opened Http
  import opened Store

  /** The treatment `where` object: empty, or `{ category }`. */
  datatype TreatmentWhere = TreatmentWhere(category: Option<string>)

  predicate InCategory(w: TreatmentWhere, t: Treatment) {
    w.category.Some? ==> t.category == w.category.value
  }

  function InCategoryBy(w: TreatmentWhere): Treatment -> bool {
    (t: Treatment) => InCategory(w, t)
  }

  /** `orderBy: { name: 'asc' }`, comparing names by code point. */
  function ByNameAsc(): (le: (Treatment, Treatment) -> bool)
    ensures TotalPreorder(le)
  {
    var le := (a: Treatment, b: Treatment) => StrLe(a.name, b.name);
    assert forall a: Treatment, b: Treatment :: le(a, b) || le(b, a) by {
      forall a: Treatment, b: Treatment ensures le(a, b) || le(b, a) {
        StrLeTotal(a.name, b.name);
      }
    }
    assert forall a: Treatment, b: Treatment, c: Treatment :: le(a, b) && le(b, c) ==> le(a, c) by {
      forall a: Treatment, b: Treatment, c: Treatment | le(a, b) && le(b, c) ensures le(a, c) {
        StrLeTransitive(a.name, b.name, c.name);
      }
    }
    le
  }

  function ActiveOfferOf(clinicId: string): ClinicTreatment -> bool {
    (ct: ClinicTreatment) => ct.clinicId == clinicId && ct.isActive
  }

  function TreatmentIdOf(ct: ClinicTreatment): string {
    ct.treatmentId
  }

  /** `clinicTreatmentIds`: the treatment ids of the clinic's active offers. */
  function OfferedIds(db: Db, clinicId: string): (ids: seq<string>)
    ensures forall id :: id in ids <==>
      exists ct :: ct in db.clinicTreatments && ct.clinicId == clinicId && ct.isActive && ct.treatmentId == id
  {
    var offers := Filter(db.clinicTreatments, ActiveOfferOf(clinicId));
    var ids := Map(offers, TreatmentIdOf);
    forall id ensures id in ids <==>
      exists ct :: ct in db.clinicTreatments && ct.clinicId == clinicId && ct.isActive && ct.treatmentId == id
    {
      if id in ids {
        var k :| 0 <= k < |ids| && ids[k] == id;
        FilterMembership(db.clinicTreatments, ActiveOfferOf(clinicId), offers[k]);
      }
      if ct :| ct in db.clinicTreatments && ct.clinicId == clinicId && ct.isActive && ct.treatmentId == id {
        FilterMembership(db.clinicTreatments, ActiveOfferOf(clinicId), ct);
        var k :| 0 <= k < |offers| && offers[k] == ct;
        assert ids[k] == id;
      }
    }
    ids
  }

  function OfferedBy(ids: seq<string>): Treatment -> bool {
    (t: Treatment) => t.id in ids
  }

  /** The category filter in name order. */
  function ByCategory(db: Db, category: Option<string>): (r: seq<Treatment>)
    ensures SortedBy(r, ByNameAsc())
    ensures multiset(r) == multiset(Filter(db.treatments, InCategoryBy(TreatmentWhere(if Truthy(category) then category else None))))
  {
    SortBy(Filter(db.treatments, InCategoryBy(TreatmentWhere(if Truthy(category) then category else None))), ByNameAsc())
  }

  /** The response data. */
  function TreatmentList(db: Db, clinicId: Option<string>, category: Option<string>): (r: seq<Treatment>)
    ensures SortedBy(r, ByNameAsc())
    ensures !Truthy(clinicId) ==> r == ByCategory(db, category)
    ensures Truthy(clinicId) ==> IsSubsequence(r, ByCategory(db, category))
  {
    var sorted := ByCategory(db, category);
    if Truthy(clinicId) then
      var r := Filter(sorted, OfferedBy(OfferedIds(db, clinicId.value)));
      FilterIsSubsequence(sorted, OfferedBy(OfferedIds(db, clinicId.value)));
      SubsequenceSorted(r, sorted, ByNameAsc());
      r
    else
      sorted
  }

  /** A treatment is listed for a category exactly when it has that category. */
  lemma ByCategoryMembership(db: Db, category: Option<string>, t: Treatment)
    ensures t in ByCategory(db, category) <==>
      t in db.treatments && (Truthy(category) ==> t.category == category.value)
  {
    var w := TreatmentWhere(if Truthy(category) then category else None);
    var rows := Filter(db.treatments, InCategoryBy(w));
    assert t in ByCategory(db, category) <==> t in multiset(ByCategory(db, category));
    assert t in rows <==> t in multiset(rows);
    FilterMembership(db.treatments, InCategoryBy(w), t);
  }

  /** A treatment is in the response exactly when it is in the category (if one is
      given) and the clinic (if one is given) has an active offer of it. */
  lemma TreatmentListMembership(db: Db, clinicId: Option<string>, category: Option<string>, t: Treatment)
    ensures t in TreatmentList(db, clinicId, category) <==>
      && t in db.treatments
      && (Truthy(category) ==> t.category == category.value)
      && (Truthy(clinicId) ==> exists ct :: ct in db.clinicTreatments && ct.clinicId == clinicId.value && ct.isActive && ct.treatmentId == t.id)
  {
    ByCategoryMembership(db, category, t);
    if Truthy(clinicId) {
      FilterMembership(ByCategory(db, category), OfferedBy(OfferedIds(db, clinicId.value)), t);
    }
  }

  /** The route handler: the `where` gains `category` only when one is given; the
      clinic restriction runs after the query, on the fetched list. */
  method Get(db: Db, clinicId: Option<string>, category: Option<string>) returns (resp: Response<seq<Treatment>>)
    ensures resp == Ok(TreatmentList(db, clinicId, category))
  {
    var where := TreatmentWhere(None);
    if Truthy(category) {
      where := where.(category := category);
    }
    var treatments := SortBy(Filter(db.treatments, InCategoryBy(where)), ByNameAsc());
    if Truthy(clinicId) {
      var ids := OfferedIds(db, clinicId.value);
      return Ok(Filter(treatments, OfferedBy(ids)));
    }
    return Ok(treatments);
  }
}
