/** The database tables the routes read, as one snapshot (each request reads a
    point-in-time view), and the `where` objects and result rows shared by the
    clinic listing and the search route. */
module Store {
  import opened Wrappers
  import opened Text
  import opened Query

  datatype Role = UserRole | AdminRole

  datatype User = User(
    id: string,
    email: string,
    name: Option<string>,
    avatar: Option<string>,
    provider: Option<string>,
    providerId: Option<string>,
    role: Role,
    createdAt: int,
    updatedAt: int)

  /** A link from an external identity to a user. */
  datatype Account = Account(id: string, userId: string, provider: string, providerAccountId: string, kind: string)

  /** A stored login session; `expires` is a timestamp in milliseconds. */
  datatype Session = Session(id: string, userId: string, sessionToken: string, expires: int)

  datatype Clinic = Clinic(
    id: string,
    name: string,
    nameEn: string,
    address: string,
    region: string,
    isActive: bool,
    createdAt: int)

  datatype ImageType = Main | Interior | Exterior

  datatype ClinicImage = ClinicImage(id: string, clinicId: string, url: string, kind: ImageType, order: int)

  datatype Treatment = Treatment(id: string, name: string, nameEn: string, category: string)

  /** A treatment as one clinic offers it, with that clinic's price in won. */
  datatype ClinicTreatment = ClinicTreatment(id: string, clinicId: string, treatmentId: string, price: int, isActive: bool)

  datatype Review = Review(
    id: string,
    userId: string,
    clinicId: string,
    treatmentId: Option<string>,
    rating: int,
    content: string,
    visitDate: Option<string>,
    createdAt: int,
    isActive: bool)

  datatype Favorite = Favorite(id: string, userId: string, clinicId: string)

  datatype Db = Db(
    users: seq<User>,
    accounts: seq<Account>,
    sessions: seq<Session>,
    clinics: seq<Clinic>,
    clinicImages: seq<ClinicImage>,
    treatments: seq<Treatment>,
    clinicTreatments: seq<ClinicTreatment>,
    reviews: seq<Review>,
    favorites: seq<Favorite>)

  /** The `pagination` object of a listing response. */
  datatype Pagination = Pagination(page: int, limit: int, total: nat, totalPages: nat)

  /** `findUnique({ where: { id } })` on the primary key. */
  function FindById(users: seq<User>, id: string): (r: Option<User>)
    ensures r.Some? ==> r.value in users && r.value.id == id
    ensures r.None? <==> forall i :: 0 <= i < |users| ==> users[i].id != id
  {
    if |users| == 0 then None
    else if users[0].id == id then Some(users[0])
    else FindById(users[1..], id)
  }

  function ReviewOfClinic(clinicId: string): Review -> bool {
    (r: Review) => r.clinicId == clinicId
  }

  /** `_count: { reviews: true }`: every review of the clinic, active or not. */
  function ReviewCount(db: Db, clinicId: string): nat {
    Count(db.reviews, ReviewOfClinic(clinicId))
  }

  function MainImageOf(clinicId: string): ClinicImage -> bool {
    (img: ClinicImage) => img.clinicId == clinicId && img.kind == Main
  }

  /** `images: { where: { type: 'main' }, take: 1 }`. */
  function MainImages(db: Db, clinicId: string): (r: seq<ClinicImage>)
    ensures |r| <= 1
    ensures forall i :: 0 <= i < |r| ==> r[i].clinicId == clinicId && r[i].kind == Main
  {
    SkipTake(Filter(db.clinicImages, MainImageOf(clinicId)), 0, 1)
  }

  /** A clinic row as the listing and search routes return it: its main image and
      review count are included, its reviews and treatments are not. */
  datatype ClinicListing = ClinicListing(clinic: Clinic, images: seq<ClinicImage>, reviewCount: nat)

  function ListingOf(db: Db): Clinic -> ClinicListing {
    (c: Clinic) => ClinicListing(c, MainImages(db, c.id), ReviewCount(db, c.id))
  }

  /** The clinic `where` object: `isActive`, then an optional exact `region`
      and an optional three-field `OR` of case-insensitive `contains`. */
  datatype ClinicWhere = ClinicWhere(isActive: bool, region: Option<string>, search: Option<string>)

  predicate TextMatches(c: Clinic, q: string) {
    ContainsInsensitive(c.name, q) || ContainsInsensitive(c.nameEn, q) || ContainsInsensitive(c.address, q)
  }

  predicate Matches(w: ClinicWhere, c: Clinic) {
    && c.isActive == w.isActive
    && (w.region.Some? ==> c.region == w.region.value)
    && (w.search.Some? ==> TextMatches(c, w.search.value))
  }

  function WhereOf(w: ClinicWhere): Clinic -> bool {
    (c: Clinic) => Matches(w, c)
  }
}
