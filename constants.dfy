/** The application's fixed tables and limits (lib/constants.ts). */
module Constants {
  import opened Wrappers

  /** One entry of a select list: the value sent in a query string and its labels. */
  datatype Choice = Choice(value: string, labelKo: string, labelEn: string)

  const REGIONS: seq<Choice> := [
    Choice("gangnam", "강남", "Gangnam"),
    Choice("cheongdam", "청담", "Cheongdam"),
    Choice("apgujeong", "압구정", "Apgujeong"),
    Choice("sinsa", "신사동", "Sinsa"),
    Choice("samsung", "삼성동", "Samsung")
  ]

  const TREATMENT_CATEGORIES: seq<Choice> := [
    Choice("laser", "레이저", "Laser"),
    Choice("injectable", "보톡스/필러", "Injectable"),
    Choice("skincare", "스킨케어", "Skincare"),
    Choice("other", "기타", "Other")
  ]

  const SORT_OPTIONS: seq<Choice> := [
    Choice("rating", "평점 높은 순", "Highest Rated"),
    Choice("reviews", "리뷰 많은 순", "Most Reviews"),
    Choice("price-low", "가격 낮은 순", "Price: Low to High"),
    Choice("price-high", "가격 높은 순", "Price: High to Low"),
    Choice("newest", "최신 순", "Newest")
  ]

  /** A price band in won; `max == None` stands for `Infinity`. */
  datatype PriceRange = PriceRange(min: int, max: Option<int>)

  const PRICE_RANGES: seq<PriceRange> := [
    PriceRange(0, Some(100000)),
    PriceRange(100000, Some(200000)),
    PriceRange(200000, Some(300000)),
    PriceRange(300000, Some(500000)),
    PriceRange(500000, None)
  ]

  const ITEMS_PER_PAGE: int := 20
  const MAX_IMAGE_SIZE: nat := 5 * 1024 * 1024
  const ALLOWED_IMAGE_TYPES: seq<string> := ["image/jpeg", "image/jpg", "image/png", "image/webp"]
  const MAX_REVIEW_IMAGES: nat := 5
  const MIN_REVIEW_LENGTH: nat := 10
  const MAX_REVIEW_LENGTH: nat := 2000

  /** The bands start at 0, each ends where the next begins, each is non-empty,
      and only the last is unbounded. */
  ghost predicate Contiguous(rs: seq<PriceRange>) {
    && |rs| > 0
    && rs[0].min == 0
    && (forall i :: 0 <= i < |rs| - 1 ==> rs[i].max == Some(rs[i + 1].min))
    && (forall i :: 0 <= i < |rs| ==> (rs[i].max.Some? ==> rs[i].min < rs[i].max.value))
    && rs[|rs| - 1].max.None?
  }

  lemma PriceRangesAreContiguous()
    ensures Contiguous(PRICE_RANGES)
  {
  }

  /** Contiguous bands are in strictly ascending order of their lower bounds. */
  lemma {:induction false} ContiguousIsAscending(rs: seq<PriceRange>, i: int, j: int)
    requires Contiguous(rs)
    requires 0 <= i < j < |rs|
    ensures rs[i].min < rs[j].min
    decreases j - i
  {
    assert rs[i].max == Some(rs[i + 1].min);
    if i + 1 < j {
      ContiguousIsAscending(rs, i + 1, j);
    }
  }

  ghost predicate DistinctValues(cs: seq<Choice>) {
    forall i, j :: 0 <= i < j < |cs| ==> cs[i].value != cs[j].value
  }

  lemma SortOptionValuesAreTheFiveKeys()
    ensures DistinctValues(SORT_OPTIONS)
    ensures (set c | c in SORT_OPTIONS :: c.value)
         == {"rating", "reviews", "price-low", "price-high", "newest"}
  {
  }

  lemma RegionValuesAreDistinct()
    ensures DistinctValues(REGIONS)
    ensures forall i, j :: 0 <= i < j < |REGIONS| ==> REGIONS[i].labelKo != REGIONS[j].labelKo
  {
  }

  /** The slug sent as `region` is never the Korean label of any region. */
  lemma RegionSlugsAreNotLabels()
    ensures forall i, j :: 0 <= i < |REGIONS| && 0 <= j < |REGIONS| ==> REGIONS[i].value != REGIONS[j].labelKo
  {
  }

  lemma ReviewLimitsAreOrdered()
    ensures 0 < MIN_REVIEW_LENGTH < MAX_REVIEW_LENGTH
    ensures MAX_IMAGE_SIZE == 5242880
  {
  }
}
