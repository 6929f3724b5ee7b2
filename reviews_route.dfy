/** `GET /api/reviews` (one clinic's active reviews, newest first, one page) and
    `POST /api/reviews` (a signed-in user creates a review) (app/api/reviews/route.ts). */
module ReviewsRoute {
  import opened Wrappers
  import opened Text
  import opened Query
  import opened Http
  import opened Store
  import Constants

  datatype ReviewParams = ReviewParams(clinicId: Option<string>, page: Option<int>, limit: Option<int>)

  datatype ReviewsPage = ReviewsPage(data: seq<Review>, pagination: Pagination)

  function PageOf(p: ReviewParams): int {
    p.page.GetOr(1)
  }

  function LimitOf(p: ReviewParams): int {
    p.limit.GetOr(Constants.ITEMS_PER_PAGE)
  }

  function SkipOf(p: ReviewParams): int {
    (PageOf(p) - 1) * LimitOf(p)
  }

  /** The `where` of lines 21-24. */
  function ActiveReviewOf(clinicId: string): Review -> bool {
    (r: Review) => r.clinicId == clinicId && r.isActive
  }

  /** `orderBy: { createdAt: 'desc' }`. */
  function NewestFirst(): (Review, Review) -> bool {
    Desc((r: Review) => r.createdAt)
  }

  /** Every active review of the clinic, newest first. */
  function ClinicReviews(db: Db, clinicId: string): (r: seq<Review>)
    ensures SortedBy(r, NewestFirst())
    ensures forall i :: 0 <= i < |r| ==> r[i].clinicId == clinicId && r[i].isActive
    ensures multiset(r) == multiset(Filter(db.reviews, ActiveReviewOf(clinicId)))
    ensures |r| == Count(db.reviews, ActiveReviewOf(clinicId))
  {
    var rows := Filter(db.reviews, ActiveReviewOf(clinicId));
    CountIsFilterLength(db.reviews, ActiveReviewOf(clinicId));
    var r := SortBy(rows, NewestFirst());
    AllInSubMultiset(r, rows, ActiveReviewOf(clinicId));
    r
  }

  /** The GET handler: 400 without a clinic id, 500 when the ORM refuses a negative
      `skip`, otherwise the requested page and its pagination. */
  function Get(db: Db, p: ReviewParams): (resp: Response<ReviewsPage>)
    requires LimitOf(p) >= 1
    ensures resp == Err(BadRequest) <==> !Truthy(p.clinicId)
    ensures resp == Err(InternalError) <==> Truthy(p.clinicId) && SkipOf(p) < 0
    ensures resp.Ok? ==>
      var id := p.clinicId.value;
      var all := ClinicReviews(db, id);
      && SkipOf(p) >= 0
      && resp.body.data == SkipTake(all, SkipOf(p), LimitOf(p))
      && |resp.body.data| <= LimitOf(p)
      && SortedBy(resp.body.data, NewestFirst())
      && (forall i :: 0 <= i < |resp.body.data| ==> resp.body.data[i].clinicId == id && resp.body.data[i].isActive)
      && resp.body.pagination == Pagination(PageOf(p), LimitOf(p), |all|, CeilDiv(|all|, LimitOf(p)))
  {
    if !Truthy(p.clinicId) then Err(BadRequest)
    else if SkipOf(p) < 0 then Err(InternalError)
    else
      var all := ClinicReviews(db, p.clinicId.value);
      var data := SkipTake(all, SkipOf(p), LimitOf(p));
      SkipTakeSorted(all, SkipOf(p), LimitOf(p), NewestFirst());
      assert forall i :: 0 <= i < |data| ==> data[i] == all[SkipOf(p) + i];
      var total := Count(db.reviews, ActiveReviewOf(p.clinicId.value));
      Ok(ReviewsPage(data, Pagination(PageOf(p), LimitOf(p), total, CeilDiv(total, LimitOf(p)))))
  }

  /** The JSON body of a POST, as the client sends it. */
  datatype ReviewBody = ReviewBody(
    clinicId: string,
    treatmentId: Option<string>,
    rating: int,
    content: string,
    visitDate: Option<string>,
    images: Option<seq<string>>)

  datatype ReviewImage = ReviewImage(url: string, order: int)

  /** The row `prisma.review.create` is given; the database adds the id and timestamps. */
  datatype NewReview = NewReview(
    userId: string,
    clinicId: string,
    treatmentId: Option<string>,
    rating: int,
    content: string,
    visitDate: Option<string>,
    images: seq<ReviewImage>)

  /** `images?.map((url, index) => ({ url, order: index })) || []`. */
  function ImageRows(images: Option<seq<string>>): (r: seq<ReviewImage>)
    ensures images.None? ==> r == []
    ensures images.Some? ==> |r| == |images.value|
    ensures images.Some? ==> forall i :: 0 <= i < |r| ==> r[i].url == images.value[i] && r[i].order == i
  {
    match images
    case None => []
    case Some(urls) => seq(|urls|, i requires 0 <= i < |urls| => ReviewImage(urls[i], i))
  }

  function UrlOf(img: ReviewImage): string {
    img.url
  }

  /** Reading the URLs back off the image rows gives the list that was sent, and
      the orders are exactly the positions, so they are distinct and ascending. */
  lemma ImageRowsRoundTrip(urls: seq<string>)
    ensures Map(ImageRows(Some(urls)), UrlOf) == urls
    ensures forall i, j :: 0 <= i < j < |ImageRows(Some(urls))| ==>
      ImageRows(Some(urls))[i].order < ImageRows(Some(urls))[j].order
  {
    var r := ImageRows(Some(urls));
    assert |Map(r, UrlOf)| == |urls|;
    forall i | 0 <= i < |urls| ensures Map(r, UrlOf)[i] == urls[i] {
      assert Map(r, UrlOf)[i] == UrlOf(r[i]);
    }
  }

  /** The rows the new review points at exist: its user, its clinic and, when
      one is sent, its treatment. `review.create` fails on a missing one. */
  predicate ReferencesExist(db: Db, userId: string, body: ReviewBody) {
    && (exists i :: 0 <= i < |db.users| && db.users[i].id == userId)
    && (exists i :: 0 <= i < |db.clinics| && db.clinics[i].id == body.clinicId)
    && (Truthy(body.treatmentId) ==>
          exists i :: 0 <= i < |db.treatments| && db.treatments[i].id == body.treatmentId.value)
  }

  /** The POST handler. `session` is the signed-in user's id, None when there is no
      session user. Nothing in the body is checked: the row is built as sent, and
      the database refuses it (the `catch` branch, 500) only when it points at a
      user, clinic or treatment that does not exist. */
  function Post(db: Db, session: Option<string>, body: ReviewBody): (resp: Response<NewReview>)
    ensures session.None? <==> resp == Err(Unauthorized)
    ensures resp == Err(InternalError) <==> session.Some? && !ReferencesExist(db, session.value, body)
    ensures resp.Created? <==> session.Some? && ReferencesExist(db, session.value, body)
    ensures resp.Created? ==>
      var row := resp.body;
      && row.userId == session.value
      && row.clinicId == body.clinicId
      && row.rating == body.rating
      && row.content == body.content
      && (row.treatmentId.Some? <==> Truthy(body.treatmentId))
      && (row.treatmentId.Some? ==> row.treatmentId == body.treatmentId)
      && (row.visitDate.Some? <==> Truthy(body.visitDate))
      && (row.visitDate.Some? ==> row.visitDate == body.visitDate)
      && row.images == ImageRows(body.images)
  {
    match session
    case None => Err(Unauthorized)
    case Some(userId) =>
      if !ReferencesExist(db, userId, body) then Err(InternalError)
      else
        Created(NewReview(
          userId,
          body.clinicId,
          if Truthy(body.treatmentId) then body.treatmentId else None,
          body.rating,
          body.content,
          if Truthy(body.visitDate) then body.visitDate else None,
          ImageRows(body.images)))
  }

  /** A review of a clinic that is not in the table is answered 500, not 201. */
  lemma UnknownClinicFails(db: Db, userId: string, body: ReviewBody)
    requires forall i :: 0 <= i < |db.clinics| ==> db.clinics[i].id != body.clinicId
    ensures Post(db, Some(userId), body).Status() == 500
  {
  }

  /** The route takes any rating and any content: a signed-in user's review of an
      existing clinic is stored with a rating outside 1..5 and an empty content,
      which the form's schema would refuse. */
  lemma PostDoesNotValidate(db: Db, userId: string, body: ReviewBody)
    requires ReferencesExist(db, userId, body)
    requires body.rating == 0 && body.content == ""
    ensures Post(db, Some(userId), body).Created?
    ensures Post(db, Some(userId), body).body.rating == 0
    ensures Post(db, Some(userId), body).body.content == ""
  {
  }
}
