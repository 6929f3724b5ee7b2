/** The review form (components/review/ReviewForm.tsx): its schema, the bounded list
    of uploaded images, the clinic search box and the submit guard. */
module ReviewForm {
  import opened Wrappers
  import opened Text
  import opened Query
  import opened Http
  import Constants
  import Store
  import ReviewsRoute

  /** The values the form library holds and validates. */
  datatype ReviewFormData = ReviewFormData(
    clinicId: string,
    treatmentId: Option<string>,
    rating: int,
    content: string,
    visitDate: Option<string>,
    images: seq<string>)

  /** `reviewSchema` (lines 15-22). */
  predicate ReviewSchema(d: ReviewFormData) {
    && |d.clinicId| >= 1
    && 1 <= d.rating <= 5
    && 10 <= |d.content| <= 2000
    && |d.images| <= 5
  }

  /** The schema's bounds are the application's review and image limits. */
  lemma SchemaUsesTheLimits(d: ReviewFormData)
    ensures ReviewSchema(d) <==>
      && d.clinicId != ""
      && 1 <= d.rating <= 5
      && Constants.MIN_REVIEW_LENGTH <= |d.content| <= Constants.MAX_REVIEW_LENGTH
      && |d.images| <= Constants.MAX_REVIEW_IMAGES
  {
  }

  /** A file picked in the upload input; `dataUrl` is what the reader produces. */
  datatype ImageFile = ImageFile(name: string, size: nat, dataUrl: string)

  predicate SmallEnough(f: ImageFile) {
    f.size <= Constants.MAX_IMAGE_SIZE
  }

  function SmallEnoughBy(): ImageFile -> bool {
    (f: ImageFile) => SmallEnough(f)
  }

  function DataUrlOf(f: ImageFile): string {
    f.dataUrl
  }

  /** The images one accepted batch appends, in file order: oversize files are skipped. */
  function AcceptedUrls(files: seq<ImageFile>): (r: seq<string>)
    ensures |r| <= |files|
    decreases |files|
  {
    if |files| == 0 then []
    else
      var last := files[|files| - 1];
      AcceptedUrls(files[..|files| - 1]) + (if SmallEnough(last) then [last.dataUrl] else [])
  }

  /** The accepted images are exactly the data URLs of the files within the size
      limit, in the order the files were picked. */
  lemma {:induction false} AcceptedUrlsAreTheSmallFiles(files: seq<ImageFile>)
    ensures AcceptedUrls(files) == Map(Filter(files, SmallEnoughBy()), DataUrlOf)
    decreases |files|
  {
    if |files| > 0 {
      var init, last := files[..|files| - 1], files[|files| - 1];
      assert files == init + [last];
      AcceptedUrlsAreTheSmallFiles(init);
      FilterSnoc(init, last, SmallEnoughBy());
      MapAppend(Filter(init, SmallEnoughBy()), if SmallEnough(last) then [last] else [], DataUrlOf);
    }
  }

  /** `uploadedImages.filter((_, i) => i !== index)`: `DropIndex(s, k)` drops the
      element at position `k` of `s`, counting from 0. */
  function DropIndex(s: seq<string>, index: int): (r: seq<string>)
    ensures |r| <= |s|
    decreases |s|
  {
    if |s| == 0 then []
    else (if index == 0 then [] else [s[0]]) + DropIndex(s[1..], index - 1)
  }

  /** Removing an index in range shortens the list by one and keeps the other
      images in order; an index out of range leaves it as it is. */
  lemma {:induction false} DropIndexRemovesOne(s: seq<string>, index: int)
    ensures 0 <= index < |s| ==> DropIndex(s, index) == s[..index] + s[index + 1..]
    ensures !(0 <= index < |s|) ==> DropIndex(s, index) == s
    decreases |s|
  {
    if |s| > 0 {
      DropIndexRemovesOne(s[1..], index - 1);
      if index == 0 {
        assert s[..0] + s[1..] == s[1..];
      } else if 0 < index < |s| {
        assert s[1..][..index - 1] + s[1..][index..] == s[1..index] + s[index + 1..];
        assert [s[0]] + s[1..index] == s[..index];
      } else {
        assert s == [s[0]] + s[1..];
      }
    }
  }

  /** A clinic suggestion in the search box. */
  datatype ClinicOption = ClinicOption(id: string, name: string)

  /** The body sent to `POST /api/reviews`: the form values with the selected rating. */
  function FormBody(d: ReviewFormData, rating: int): (b: ReviewsRoute.ReviewBody)
    ensures b.clinicId == d.clinicId && b.rating == rating && b.content == d.content
    ensures b.images == Some(d.images)
  {
    ReviewsRoute.ReviewBody(d.clinicId, d.treatmentId, rating, d.content, d.visitDate, Some(d.images))
  }

  /** What the form lets through is what the route stores: a signed-in user's review
      of an existing clinic sent by the form has a rating in 1..5, a content of 10 to 2000 characters and
      at most five images, numbered in order. */
  lemma FormPostStoresAValidReview(db: Store.Db, userId: string, d: ReviewFormData, rating: int)
    requires ReviewSchema(d) && 1 <= rating <= 5
    requires ReviewsRoute.ReferencesExist(db, userId, FormBody(d, rating))
    ensures var resp := ReviewsRoute.Post(db, Some(userId), FormBody(d, rating));
      && resp.Created?
      && 1 <= resp.body.rating <= 5
      && Constants.MIN_REVIEW_LENGTH <= |resp.body.content| <= Constants.MAX_REVIEW_LENGTH
      && |resp.body.images| <= Constants.MAX_REVIEW_IMAGES
      && (forall i :: 0 <= i < |resp.body.images| ==> resp.body.images[i].order == i)
  {
  }

  /** The component's state. */
  class ReviewFormState {
    var selectedRating: int
    var uploadedImages: seq<string>
    var isSubmitting: bool
    var clinics: seq<ClinicOption>
    var selectedClinicId: string
    var searchQuery: string

    /** The rating is 0 (none) or a star count, and there are at most five images. */
    predicate Valid()
      reads this
    {
      0 <= selectedRating <= 5 && |uploadedImages| <= Constants.MAX_REVIEW_IMAGES
    }

    constructor(initialClinicId: Option<string>)
      ensures Valid()
      ensures selectedRating == 0 && uploadedImages == [] && !isSubmitting
      ensures clinics == [] && searchQuery == "" && selectedClinicId == OrEmpty(initialClinicId)
    {
      selectedRating := 0;
      uploadedImages := [];
      isSubmitting := false;
      clinics := [];
      selectedClinicId := OrEmpty(initialClinicId);
      searchQuery := "";
    }

    /** `handleImageUpload`: no file list does nothing; a batch that would pass five
        images is refused whole; otherwise each file within 5 MB is appended in
        order and each larger one is skipped. */
    method HandleImageUpload(files: Option<seq<ImageFile>>)
      requires Valid()
      modifies this
      ensures Valid()
      ensures files.None? ==> uploadedImages == old(uploadedImages)
      ensures files.Some? && |old(uploadedImages)| + |files.value| > 5 ==> uploadedImages == old(uploadedImages)
      ensures files.Some? && |old(uploadedImages)| + |files.value| <= 5 ==>
        uploadedImages == old(uploadedImages) + AcceptedUrls(files.value)
      ensures selectedRating == old(selectedRating) && isSubmitting == old(isSubmitting)
      ensures clinics == old(clinics) && selectedClinicId == old(selectedClinicId) && searchQuery == old(searchQuery)
    {
      if files.None? {
        return;
      }
      var fs := files.value;
      if |uploadedImages| + |fs| > 5 {
        return;
      }
      var i := 0;
      while i < |fs|
        invariant 0 <= i <= |fs|
        invariant uploadedImages == old(uploadedImages) + AcceptedUrls(fs[..i])
        invariant selectedRating == old(selectedRating) && isSubmitting == old(isSubmitting)
        invariant clinics == old(clinics) && selectedClinicId == old(selectedClinicId) && searchQuery == old(searchQuery)
      {
        assert fs[..i + 1][..i] == fs[..i];
        if fs[i].size <= 5 * 1024 * 1024 {
          uploadedImages := uploadedImages + [fs[i].dataUrl];
        }
        i := i + 1;
      }
      assert fs[..i] == fs;
    }

    /** `handleRemoveImage(index)`. */
    method HandleRemoveImage(index: int)
      requires Valid()
      modifies this
      ensures Valid()
      ensures uploadedImages == DropIndex(old(uploadedImages), index)
      ensures selectedRating == old(selectedRating) && isSubmitting == old(isSubmitting)
      ensures clinics == old(clinics) && selectedClinicId == old(selectedClinicId) && searchQuery == old(searchQuery)
    {
      uploadedImages := DropIndex(uploadedImages, index);
    }

    /** A new value of `searchQuery`. The effect depends on it alone, so it runs
        only when the value differs from the current one: then a query of more than
        two characters asks `/api/clinics` for suggestions and a shorter one clears
        them. Setting the same value again does nothing. */
    method SearchQueryChanged(q: string) returns (requested: bool)
      requires Valid()
      modifies this
      ensures Valid()
      ensures requested <==> q != old(searchQuery) && |q| > 2
      ensures searchQuery == q
      ensures clinics == if q != old(searchQuery) && |q| <= 2 then [] else old(clinics)
      ensures selectedRating == old(selectedRating) && uploadedImages == old(uploadedImages)
      ensures isSubmitting == old(isSubmitting) && selectedClinicId == old(selectedClinicId)
    {
      requested := false;
      if q != searchQuery {
        searchQuery := q;
        if |q| > 2 {
          requested := true;
        } else {
          clinics := [];
        }
      }
    }

    /** The suggestions arrive: `data.data || []`. */
    method ClinicsFetched(data: Option<seq<ClinicOption>>)
      requires Valid()
      modifies this
      ensures Valid()
      ensures clinics == data.GetOr([])
      ensures selectedRating == old(selectedRating) && uploadedImages == old(uploadedImages)
      ensures isSubmitting == old(isSubmitting) && selectedClinicId == old(selectedClinicId) && searchQuery == old(searchQuery)
    {
      clinics := data.GetOr([]);
    }

    /** Clicking a suggestion selects it, closes the list and shows its name. The
        name is a new `searchQuery`, so the search effect runs again: a name longer
        than two characters that differs from the typed text sends a new request,
        whose answer (`ClinicsFetched`) opens the list again. */
    method SelectClinic(c: ClinicOption) returns (requested: bool)
      requires Valid()
      modifies this
      ensures Valid()
      ensures selectedClinicId == c.id && searchQuery == c.name && clinics == []
      ensures requested <==> c.name != old(searchQuery) && |c.name| > 2
      ensures selectedRating == old(selectedRating) && uploadedImages == old(uploadedImages) && isSubmitting == old(isSubmitting)
    {
      selectedClinicId := c.id;
      clinics := [];
      requested := SearchQueryChanged(c.name);
    }

    /** Clicking one of the five stars. */
    method SelectRating(rating: int)
      requires Valid() && 1 <= rating <= 5
      modifies this
      ensures Valid()
      ensures selectedRating == rating
      ensures uploadedImages == old(uploadedImages) && isSubmitting == old(isSubmitting)
      ensures clinics == old(clinics) && selectedClinicId == old(selectedClinicId) && searchQuery == old(searchQuery)
    {
      selectedRating := rating;
    }

    /** Pressing submit with the form values `d`: the button is disabled while a
        request runs or no star is chosen (the handler's own guard refuses a rating
        of 0 too), and the schema must accept `d`. Returns the body posted, if any. */
    method BeginSubmit(d: ReviewFormData) returns (request: Option<ReviewsRoute.ReviewBody>)
      requires Valid()
      modifies this
      ensures Valid()
      ensures request.Some? <==> !old(isSubmitting) && old(selectedRating) != 0 && ReviewSchema(d)
      ensures request.Some? ==> request.value == FormBody(d, selectedRating) && 1 <= selectedRating <= 5
      ensures isSubmitting == (old(isSubmitting) || request.Some?)
      ensures selectedRating == old(selectedRating) && uploadedImages == old(uploadedImages)
      ensures clinics == old(clinics) && selectedClinicId == old(selectedClinicId) && searchQuery == old(searchQuery)
    {
      if isSubmitting || selectedRating == 0 {
        return None;
      }
      if !ReviewSchema(d) {
        return None;
      }
      isSubmitting := true;
      request := Some(FormBody(d, selectedRating));
    }

    /** The `finally` of the submit handler, on success and on error alike. */
    method EndSubmit()
      requires Valid()
      modifies this
      ensures Valid()
      ensures !isSubmitting
      ensures selectedRating == old(selectedRating) && uploadedImages == old(uploadedImages)
      ensures clinics == old(clinics) && selectedClinicId == old(selectedClinicId) && searchQuery == old(searchQuery)
    {
      isSubmitting := false;
    }
  }
}
