/** The clinic detail page (components/clinic/ClinicDetail.tsx): the main image, the
    thumbnail strip with its overflow tile, the rating summary, the review-image
    fallback and the page's state flags. */
module ClinicDetail {
  import opened Wrappers
  import opened Text
  import opened Store
  import ClinicCard

  const PLACEHOLDER_IMAGE: string := "/images/placeholder-clinic.jpg"

  /** Index of the first image of type `main`, if any. */
  function FirstMainIndex(imgs: seq<ClinicImage>): (k: Option<nat>)
    ensures k.Some? ==> k.value < |imgs| && imgs[k.value].kind == Main
    ensures k.Some? ==> forall i :: 0 <= i < k.value ==> imgs[i].kind != Main
    ensures k.None? ==> forall i :: 0 <= i < |imgs| ==> imgs[i].kind != Main
    decreases |imgs|
  {
    if |imgs| == 0 then None
    else if imgs[0].kind == Main then Some(0)
    else
      var k := FirstMainIndex(imgs[1..]);
      assert forall i :: 1 <= i < |imgs| ==> imgs[i] == imgs[1..][i - 1];
      if k.None? then None else Some(k.value + 1)
  }

  /** `images?.find(img => img.type === 'main')?.url || images?.[0]?.url`. */
  function MainImageUrl(images: Option<seq<ClinicImage>>): (r: Option<string>)
    ensures images.None? || |images.value| == 0 ==> r.None?
    ensures images.Some? && FirstMainIndex(images.value).Some? && images.value[FirstMainIndex(images.value).value].url != "" ==>
      r == Some(images.value[FirstMainIndex(images.value).value].url)
    ensures images.Some? && |images.value| > 0 && (FirstMainIndex(images.value).None? || images.value[FirstMainIndex(images.value).value].url == "")
      ==> r == Some(images.value[0].url)
  {
    if images.None? then None
    else
      var k := FirstMainIndex(images.value);
      var found: Option<string> := if k.Some? then Some(images.value[k.value].url) else None;
      if Truthy(found) then found else ClinicCard.FirstImageUrl(images)
  }

  /** Every image the page chooses as its main one is one of the clinic's images. */
  lemma MainImageIsAClinicImage(imgs: seq<ClinicImage>)
    ensures MainImageUrl(Some(imgs)).Some? ==> exists i :: 0 <= i < |imgs| && imgs[i].url == MainImageUrl(Some(imgs)).value
    ensures MainImageUrl(Some(imgs)).Some? <==> |imgs| > 0
  {
  }

  /** The strip under the main image: only when there is more than one image, at most
      the first four. */
  function Thumbnails(imgs: seq<ClinicImage>): (r: seq<ClinicImage>)
    ensures |imgs| <= 1 ==> r == []
    ensures |imgs| > 1 ==> |r| == (if |imgs| < 4 then |imgs| else 4)
    ensures r == imgs[..|r|]
  {
    if |imgs| <= 1 then [] else imgs[..if |imgs| < 4 then |imgs| else 4]
  }

  /** The `+n` tile, shown with more than four images. */
  function Overflow(imgs: seq<ClinicImage>): (n: Option<nat>)
    ensures n.Some? <==> |imgs| > 4
    ensures n.Some? ==> n.value > 0 && n.value == |imgs| - 4
  {
    if |imgs| > 4 then Some(|imgs| - 4) else None
  }

  /** The strip accounts for every image: thumbnails plus the overflow count is the
      number of images whenever the strip is shown. */
  lemma StripCountsEveryImage(imgs: seq<ClinicImage>)
    requires |imgs| > 1
    ensures |Thumbnails(imgs)| + Overflow(imgs).GetOr(0) == |imgs|
  {
  }

  /** A review photo: on its first load error it switches to the placeholder and
      shows the "no image" box; later errors change nothing. */
  class ReviewImageState {
    const imageUrl: string
    var imageError: bool
    var imageSrc: string

    constructor(imageUrl: string)
      ensures this.imageUrl == imageUrl && !imageError && imageSrc == imageUrl
    {
      this.imageUrl := imageUrl;
      imageError := false;
      imageSrc := imageUrl;
    }

    /** `imageError || !imageUrl`. */
    predicate ShowsFallbackBox()
      reads this
    {
      imageError || imageUrl == ""
    }

    method HandleError()
      modifies this
      ensures imageError
      ensures imageSrc == if old(imageError) then old(imageSrc) else PLACEHOLDER_IMAGE
    {
      if !imageError {
        imageError := true;
        imageSrc := PLACEHOLDER_IMAGE;
      }
    }
  }

  /** A client: two errors leave the photo exactly as one does. */
  method ErrorTwice(r: ReviewImageState)
    requires !r.imageError
    modifies r
    ensures r.imageError && r.imageSrc == PLACEHOLDER_IMAGE && r.ShowsFallbackBox()
  {
    r.HandleError();
    r.HandleError();
  }

  datatype Tab = Overview | Treatments | Reviews | Location

  /** The page's flags. */
  class DetailState {
    var activeTab: Tab
    var isFavorite: bool
    var imageError: bool

    constructor()
      ensures activeTab == Overview && !isFavorite && !imageError
    {
      activeTab := Overview;
      isFavorite := false;
      imageError := false;
    }

    /** The heart button. */
    method ToggleFavorite()
      modifies this
      ensures isFavorite == !old(isFavorite)
      ensures activeTab == old(activeTab) && imageError == old(imageError)
    {
      isFavorite := !isFavorite;
    }

    method SelectTab(t: Tab)
      modifies this
      ensures activeTab == t
      ensures isFavorite == old(isFavorite) && imageError == old(imageError)
    {
      activeTab := t;
    }

    /** The main image's `onError`. */
    method OnMainImageError()
      modifies this
      ensures imageError
      ensures activeTab == old(activeTab) && isFavorite == old(isFavorite)
    {
      imageError := true;
    }

    /** `!imageError && originalImage`. */
    predicate HasImage(images: Option<seq<ClinicImage>>)
      reads this
    {
      !imageError && Truthy(MainImageUrl(images))
    }
  }

  /** A client: pressing the heart twice restores the flag. */
  method ToggleTwice(s: DetailState)
    modifies s
    ensures s.isFavorite == old(s.isFavorite)
    ensures s.activeTab == old(s.activeTab) && s.imageError == old(s.imageError)
  {
    s.ToggleFavorite();
    s.ToggleFavorite();
  }
}
