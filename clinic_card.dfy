/** What a clinic card shows (components/clinic/ClinicCard.tsx): the first image,
    the average of the loaded reviews beside the stored review count, and the
    lowest treatment price. */
module ClinicCard {
  import opened Wrappers
  import opened Text
  import opened Store

  /** A clinic as a page hands it to a card: each relation is None when the API
      response did not include it. */
  datatype CardClinic = CardClinic(
    images: Option<seq<ClinicImage>>,
    reviews: Option<seq<Review>>,
    clinicTreatments: Option<seq<ClinicTreatment>>,
    reviewCount: Option<nat>)

  /** `url.startsWith('http://') || url.startsWith('https://')`. */
  predicate IsExternal(url: string) {
    StartsWith(url, "http://") || StartsWith(url, "https://")
  }

  /** `clinic.images?.[0]?.url`. */
  function FirstImageUrl(images: Option<seq<ClinicImage>>): (r: Option<string>)
    ensures r.Some? <==> images.Some? && |images.value| > 0
    ensures r.Some? ==> r.value == images.value[0].url
  {
    if images.Some? && |images.value| > 0 then Some(images.value[0].url) else None
  }

  /** `!imageError && originalImage`. */
  predicate HasImage(imageError: bool, url: Option<string>) {
    !imageError && Truthy(url)
  }

  /** `_count?.reviews || 0`. */
  function ReviewCountOf(c: CardClinic): nat {
    c.reviewCount.GetOr(0)
  }

  function Sum(rs: seq<Review>): int
    decreases |rs|
  {
    if |rs| == 0 then 0 else rs[0].rating + Sum(rs[1..])
  }

  /** The mean rating of the loaded reviews, 0 when none are loaded. */
  function AverageRating(reviews: Option<seq<Review>>): (avg: real)
    ensures reviews.None? || |reviews.value| == 0 ==> avg == 0.0
    ensures reviews.Some? && |reviews.value| > 0 ==> avg * (|reviews.value| as real) == Sum(reviews.value) as real
  {
    if reviews.None? || |reviews.value| == 0 then 0.0
    else (Sum(reviews.value) as real) / (|reviews.value| as real)
  }

  /** The sum of `n` ratings in `[lo, hi]` lies in `[n * lo, n * hi]`. */
  lemma {:induction false} SumBounds(rs: seq<Review>, lo: int, hi: int)
    requires forall i :: 0 <= i < |rs| ==> lo <= rs[i].rating <= hi
    ensures |rs| * lo <= Sum(rs) <= |rs| * hi
    decreases |rs|
  {
    if |rs| > 0 {
      SumBounds(rs[1..], lo, hi);
    }
  }

  /** Dividing bounds `n * a <= s <= n * b` by a positive `n`. */
  lemma DivideBounds(s: real, n: real, a: real, b: real)
    requires n > 0.0 && n * a <= s <= n * b
    ensures a <= s / n <= b
  {
    assert s / n - a == (s - n * a) / n;
    assert b - s / n == (n * b - s) / n;
  }

  /** The average lies between the lowest and the highest rating allowed: with
      every loaded rating in 1..5 the card shows a value in 1..5. */
  lemma AverageWithinBounds(rs: seq<Review>, lo: int, hi: int)
    requires |rs| > 0
    requires forall i :: 0 <= i < |rs| ==> lo <= rs[i].rating <= hi
    ensures lo as real <= AverageRating(Some(rs)) <= hi as real
  {
    SumBounds(rs, lo, hi);
    var n := |rs|;
    assert (n as real) * (lo as real) == (n * lo) as real;
    assert (n as real) * (hi as real) == (n * hi) as real;
    DivideBounds(Sum(rs) as real, n as real, lo as real, hi as real);
  }

  lemma AverageExample(a: Review, b: Review, c: Review)
    requires a.rating == 5 && b.rating == 3 && c.rating == 4
    ensures AverageRating(Some([a, b, c])) == 4.0
  {
    assert [a, b, c][1..] == [b, c];
    assert [b, c][1..] == [c];
    assert [c][1..] == [];
    assert Sum([c]) == 4;
    assert Sum([b, c]) == 7;
    assert Sum([a, b, c]) == 12;
  }

  /** `Math.min(...prices)` over a non-empty list. */
  function MinOf(cts: seq<ClinicTreatment>): (m: int)
    requires |cts| > 0
    ensures forall i :: 0 <= i < |cts| ==> m <= cts[i].price
    ensures exists i :: 0 <= i < |cts| && cts[i].price == m
    decreases |cts|
  {
    if |cts| == 1 then cts[0].price
    else
      var rest := MinOf(cts[1..]);
      assert forall i :: 1 <= i < |cts| ==> cts[i] == cts[1..][i - 1];
      if cts[0].price <= rest then cts[0].price else rest
  }

  /** `minPrice`: null without loaded treatments, else the lowest price. */
  function MinPrice(cts: Option<seq<ClinicTreatment>>): (r: Option<int>)
    ensures r.None? <==> cts.None? || |cts.value| == 0
    ensures r.Some? ==> forall i :: 0 <= i < |cts.value| ==> r.value <= cts.value[i].price
    ensures r.Some? ==> exists i :: 0 <= i < |cts.value| && cts.value[i].price == r.value
  {
    if cts.None? || |cts.value| == 0 then None else Some(MinOf(cts.value))
  }

  /** `{minPrice && ...}`: a number is shown only when it is truthy, so 0 is not. */
  predicate ShowsPrice(minPrice: Option<int>) {
    minPrice.Some? && minPrice.value != 0
  }

  /** A clinic whose cheapest treatment is free shows no price line at all. */
  lemma FreeTreatmentHidesPrice(cts: seq<ClinicTreatment>, k: int)
    requires 0 <= k < |cts| && cts[k].price == 0
    requires forall i :: 0 <= i < |cts| ==> cts[i].price >= 0
    ensures !ShowsPrice(MinPrice(Some(cts)))
  {
  }

  /** Everything the card derives from its clinic and its `imageError` flag. */
  datatype CardView = CardView(
    hasImage: bool,
    isExternal: bool,
    reviewCount: nat,
    averageRating: real,
    price: Option<int>)

  function ViewOf(c: CardClinic, imageError: bool): (v: CardView)
    ensures v.hasImage <==>
      !imageError && c.images.Some? && |c.images.value| > 0 && c.images.value[0].url != ""
    ensures v.isExternal <==>
      c.images.Some? && |c.images.value| > 0 && IsExternal(c.images.value[0].url)
    ensures v.reviewCount == ReviewCountOf(c) && v.averageRating == AverageRating(c.reviews)
    ensures v.price.Some? <==> MinPrice(c.clinicTreatments).Some? && MinPrice(c.clinicTreatments).value != 0
    ensures v.price.Some? ==> v.price == MinPrice(c.clinicTreatments)
  {
    var url := FirstImageUrl(c.images);
    CardView(
      HasImage(imageError, url),
      Truthy(url) && IsExternal(url.value),
      ReviewCountOf(c),
      AverageRating(c.reviews),
      if ShowsPrice(MinPrice(c.clinicTreatments)) then MinPrice(c.clinicTreatments) else None)
  }

  /** The clinic as `/api/clinics` returns it: images and the review count, but no
      reviews and no treatments. */
  function CardOfListing(l: ClinicListing): CardClinic {
    CardClinic(Some(l.images), None, None, Some(l.reviewCount))
  }

  /** Cards fed by `/api/clinics` show the right review count next to an average of
      0 and never show a price. */
  lemma ListingCardHasNoAverageOrPrice(l: ClinicListing, imageError: bool)
    ensures ViewOf(CardOfListing(l), imageError).averageRating == 0.0
    ensures ViewOf(CardOfListing(l), imageError).price.None?
    ensures ViewOf(CardOfListing(l), imageError).reviewCount == l.reviewCount
  {
  }

  /** The review count comes from `_count` only: loading reviews does not change it. */
  lemma CountIndependentOfLoadedReviews(c: CardClinic, rs: seq<Review>)
    ensures ReviewCountOf(c.(reviews := Some(rs))) == ReviewCountOf(c)
    ensures ReviewCountOf(c) == 0 <==> c.reviewCount.None? || c.reviewCount.value == 0
  {
  }

  /** The card's one piece of state. */
  class CardState {
    var imageError: bool

    constructor()
      ensures !imageError
    {
      imageError := false;
    }

    /** Both image elements' `onError`. */
    method OnImageError()
      modifies this
      ensures imageError
    {
      imageError := true;
    }
  }

  /** A client of the card: after a load error the placeholder is shown for good. */
  method ErrorShowsPlaceholder(s: CardState, c: CardClinic) returns (v: CardView)
    modifies s
    ensures !v.hasImage
  {
    s.OnImageError();
    v := ViewOf(c, s.imageError);
  }
}
