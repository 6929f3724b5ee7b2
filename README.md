# Korean Clinic Advisor — a Dafny model of its core

Korean Clinic Advisor is a Next.js site where people find skin clinics in the
Gangnam area of Seoul, read reviews of them and write their own. This project
models the core of the site and proves properties of that model:

- **Clinic listing** (`GET /api/clinics`). It builds a `where` object from the
  query string, orders the clinics by a sort key, returns one page, and reports
  the total count and the number of pages.
- **Search** (`GET /api/search`). It searches clinics, treatments or both. It
  fills a result object field by field.
- **Reviews** (`GET` / `POST /api/reviews`). `GET` returns one clinic's active
  reviews, newest first, one page at a time. `POST` lets a signed-in user store
  a review exactly as sent, as long as the user, clinic and treatment it names
  exist.
- **Treatments** (`GET /api/treatments`). It returns the treatments of a
  category in name order, optionally only the ones a clinic offers.
- **Account** (`GET /api/users/me`). It returns the signed-in user's record,
  linked accounts, five latest sessions and activity counts.
- **Authentication callbacks** (`lib/auth.ts`). These cover:
  - the redirect rule;
  - the placeholder email for providers that send none;
  - the provider patch applied with `updateMany`;
  - the session and token callbacks.
- **The review form and the account edit form.** This covers their schemas,
  submit guards, the bounded list of uploaded images and the request bodies
  they send.
- **The clinic card and the clinic detail page.** This covers:
  - the main image choice;
  - the average of the loaded reviews, shown beside the stored review count;
  - the lowest price;
  - the thumbnail strip;
  - image-error fallbacks and the page's flags.

  The detail page's review count and average
  (components/clinic/ClinicDetail.tsx:70-73) are the card's own expressions, so
  the model computes them with `ClinicCard.ReviewCountOf` and
  `ClinicCard.AverageRating` and gives the page no member of its own for them.
- **The application constants** (`lib/constants.ts`).

Each source file is one module. Helper modules hold what several files share:
- `Wrappers`: `Option`.
- `Text`: JavaScript truthiness, `||`, and case-insensitive `contains`.
- `Query`: the ORM's `findMany` semantics (filter, ordering, skip/take, count).
- `Http`: status codes.
- `Store`: the entities and one database snapshot.

The model keeps the form of the source:

- **Route handlers that compute a response** are functions, or methods that
  build the response step by step. Each one is tied to a specification function
  whose properties are proved.
- **React components** are classes. Their `useState` values are fields and
  their handlers are methods with `modifies` clauses.
- **Asynchronous handlers** are split at their `await`: `BeginSubmit` raises the
  flag and returns the body to send, and `EndSubmit` is the `finally`.
- **The ORM's `findMany`** is modelled as a filter, then a stable insertion
  sort by the `orderBy` key, then `skip`/`take`. The sort is `Query.SortBy`.
  This fixes one tie order: rows with equal keys keep their table order, and
  a query without `orderBy` returns table order. The database may order ties
  differently. The contracts that say "sorted by the key" and "a permutation of
  the matching rows" hold for any tie order. The contracts that name exact rows
  or an exact page window hold for this tie order only.
- **`Math.ceil(total / limit)`** is `Query.CeilDiv`.
- **A negative `skip`** (a page below 1) is refused by the ORM. That lands in
  the handler's `catch`, so the route answers 500.

Places where the code does less than its names or parameters suggest. The model
follows the code as written:

- The clinic listing accepts `treatmentId`, `minPrice`, `maxPrice` and
  `minRating`, but only `region` and `search` reach its query. The other four
  are read into the filters and never used
  (`ClinicsRoute.UnusedFiltersChangeNothing`).
- The sort keys `price-low` and `price-high` name a price order, but they order
  by creation time, like `newest`
  (`ClinicsRoute.GetOrderByCases`).
- The card shows its review count beside the average of the active reviews, but
  the count is `_count.reviews`, which counts every review of the clinic,
  inactive ones included (`Store.ReviewCount`).
- The average is taken over whatever reviews were loaded, unrounded. Cards fed
  by `/api/clinics` load none, so they show 0
  (`ClinicCard.ListingCardHasNoAverageOrPrice`).
- The search route's clinic query has no `orderBy`, so its results are modelled
  in table order.
- The region filter is exact equality. The filter values are the slugs of
  `REGIONS`, such as `gangnam`; `Constants.RegionSlugsAreNotLabels` proves no
  slug equals a Korean label.
- The review form checks the rating and the length of the content, but
  `POST /api/reviews` checks nothing in the body
  (`ReviewsRoute.PostDoesNotValidate`).

## Model

| member | source | states |
|---|---|---|
| Text.OrNull | lib/auth.ts:132-134 | `x \|\| null` keeps a non-empty string and turns an empty or absent one into null |
| Text.OrEmpty | components/account/AccountEditForm.tsx:39-42 | `x \|\| ''` keeps a non-empty string and turns an empty or absent one into `""` |
| Text.Lower | app/api/clinics/route.ts:31-35 | the case folding behind `mode: 'insensitive'` keeps the length and folds each character on its own |
| Text.LowerIdempotent | app/api/clinics/route.ts:31-35 | folding twice is folding once |
| Text.ContainsIffOccurs | app/api/clinics/route.ts:31-35 | `contains` holds exactly when the needle occurs at some position of the haystack |
| Text.OccursImpliesContains | app/api/clinics/route.ts:31-35 | an occurrence at a position makes `contains` true |
| Text.ContainsImpliesOccurs | app/api/clinics/route.ts:31-35 | `contains` true implies an occurrence position exists |
| Text.StrLeTotal | app/api/treatments/route.ts:16-19 | the name order of `orderBy: { name: 'asc' }` compares any two names |
| Text.StrLeTransitive | app/api/treatments/route.ts:16-19 | the name order is transitive |
| Text.StrLeAntisymmetric | app/api/treatments/route.ts:16-19 | two names each ordered before the other are equal |
| Query.Filter | app/api/clinics/route.ts:38-40 | a `where` keeps only matching rows and never adds any: every result satisfies the predicate and the result is a sub-multiset of the table |
| Query.FilterIsSubsequence | app/api/clinics/route.ts:38-40 | filtering keeps the table's order: the result is a subsequence of the table |
| Query.FilterMembership | app/api/clinics/route.ts:38-40 | a row is in the filtered result exactly when it is in the table and matches |
| Query.FilterExtensional | app/api/clinics/route.ts:22-40 | two `where`s that agree on every row select the same rows |
| Query.Count | app/api/clinics/route.ts:56 | `count({ where })` is at most the table size |
| Query.CountZeroIffNone | app/api/clinics/route.ts:56 | the count is 0 exactly when no row matches |
| Query.CountIsFilterLength | app/api/clinics/route.ts:38-56 | `count({ where })` is the number of rows `findMany({ where })` would return without `skip`/`take` |
| Query.Map | app/api/treatments/route.ts:33 | `.map` keeps the length and applies the function at each position |
| Query.Desc | app/api/clinics/route.ts:77-92 | a descending `orderBy` on a key is a total preorder that puts `a` before `b` exactly when `a`'s key is at least `b`'s |
| Query.SortBy | app/api/clinics/route.ts:54 | `orderBy` returns the same rows, as a permutation, sorted by the ordering |
| Query.SkipTake | app/api/clinics/route.ts:52-53 | `skip`/`take` returns `min(take, n - skip)` rows (none past the end), the i-th being row `skip + i` |
| Query.SkipTakeSorted | app/api/reviews/route.ts:39-41 | a page of a sorted result is sorted |
| Query.SubsequenceSorted | app/api/treatments/route.ts:35 | filtering a sorted list in memory keeps it sorted |
| Query.CeilDiv | app/api/clinics/route.ts:65 | `Math.ceil(total / limit)` is the least page count whose pages hold every row; it is 0 exactly when there are no rows |
| Query.RowOnItsPage | app/api/clinics/route.ts:8-10 | every matching row can be reached by paging: row `i` is at position `i % limit` of page `i / limit + 1`, which is within `totalPages` |
| Store.FindById | app/api/users/me/route.ts:24-25 | `findUnique` by id returns a row of the table with that id, and returns null exactly when no row has it |
| Store.MainImages | app/api/clinics/route.ts:42-45 | the included images are at most one, of type `main`, of this clinic |
| Constants.PriceRangesAreContiguous | lib/constants.ts:28-34 | the price bands start at 0, each ends where the next starts, each is non-empty, and only the last is unbounded |
| Constants.ContiguousIsAscending | lib/constants.ts:28-34 | contiguous bands are strictly ascending |
| Constants.SortOptionValuesAreTheFiveKeys | lib/constants.ts:19-25 | the sort options are the five distinct keys `getOrderBy` handles |
| Constants.RegionValuesAreDistinct | lib/constants.ts:2-8 | region slugs are distinct and so are their Korean labels |
| Constants.RegionSlugsAreNotLabels | lib/constants.ts:2-8 | no region slug equals any region's Korean label |
| Constants.ReviewLimitsAreOrdered | lib/constants.ts:62-68 | the review length bounds are ordered and the image limit is 5 MB |
| ClinicsRoute.FiltersOf | app/api/clinics/route.ts:12-20 | each filter is set exactly when its parameter is non-empty; the sort falls back to `rating` |
| ClinicsRoute.GetOrderByCases | app/api/clinics/route.ts:77-92 | `price-low`, `price-high` and `newest` order by creation time; every other key, known or not, orders by review count |
| ClinicsRoute.OrderedSelection | app/api/clinics/route.ts:38-54 | the ordered rows are exactly the selected clinics (as a multiset, as many as the count), each selected, sorted by the request's key |
| ClinicsRoute.BuildWhere | app/api/clinics/route.ts:22-36 | the built `where` matches a clinic exactly when it is active, in the region if one is given, and matches the search text if one is given |
| ClinicsRoute.PageBody | app/api/clinics/route.ts:38-67 | page and limit echo the request; `total` counts every selected clinic and `totalPages` is `ceil(total / limit)`; the data is the window `[skip, skip + limit)` of the ordered selection, row for row with its main image and review count, so it holds `min(limit, total - skip)` clinics (none past the end), all selected, in descending key order |
| ClinicsRoute.Get | app/api/clinics/route.ts:5-75 | a negative `skip` answers 500; otherwise the response is the page body of the parsed filters |
| ClinicsRoute.UnusedFiltersChangeNothing | app/api/clinics/route.ts:12-36 | two requests that differ only in `treatmentId`, `minPrice`, `maxPrice` or `minRating` get the same page |
| SearchRoute.InitialResults | app/api/search/route.ts:14-23 | the result object starts with no rows and zero totals for the requested page and limit |
| SearchRoute.SearchWhere | app/api/search/route.ts:26-40 | the clinic `where` matches exactly the active clinics in the region (if given) whose text matches the query (if non-empty) |
| SearchRoute.MatchingTreatments | app/api/search/route.ts:67-77 | at most ten treatments, each matching by Korean or English name, in table order, and exactly `min(10, number of matches)` of them |
| SearchRoute.MatchingClinics | app/api/search/route.ts:25-59 | the clinics the search `where` matches, in table order, as many as its count, each matching |
| SearchRoute.SearchBody | app/api/search/route.ts:14-81 | page and limit echo the request; when clinics are searched, `total` is the clinic count and the clinics are the window `[skip, skip + limit)` of the matching clinics, row for row, `min(limit, total - skip)` of them (none past the end), each matching; otherwise no clinics and a total of 0; `totalPages` is `ceil(total / limit)`; the treatments are the matching ones exactly for a non-empty query of a treatment-searching type |
| SearchRoute.Get | app/api/search/route.ts:4-91 | 500 exactly when clinics are searched with a negative `skip`; otherwise the response is the search body |
| SearchRoute.TreatmentSearchHasNoTotal | app/api/search/route.ts:63-81 | `type=treatment` returns no clinics, a total of 0 and 0 pages |
| SearchRoute.EmptyQueryFindsNoTreatments | app/api/search/route.ts:66-79 | an empty query returns no treatments whatever the type |
| ReviewsRoute.ClinicReviews | app/api/reviews/route.ts:21-43 | one clinic's reviews are exactly its active reviews (as a multiset), newest first, as many as `count` reports |
| ReviewsRoute.Get | app/api/reviews/route.ts:6-62 | 400 exactly without a clinic id; 500 exactly with one and a negative `skip`; otherwise the `skip`/`take` page of the clinic's active reviews, newest first, with its pagination |
| ReviewsRoute.ImageRows | app/api/reviews/route.ts:85-90 | no image list gives no rows; otherwise one row per URL, in order, with `order` equal to its position |
| ReviewsRoute.ImageRowsRoundTrip | app/api/reviews/route.ts:85-90 | the URLs read back off the rows are the list sent, and the orders strictly ascend |
| ReviewsRoute.Post | app/api/reviews/route.ts:64-107 | 401 exactly without a session user; 500 exactly for a signed-in request whose user, clinic or non-empty treatment does not exist (the `create` throws); 201 exactly otherwise, with a row carrying the user's id and the body's fields, empty optional ids becoming null |
| ReviewsRoute.UnknownClinicFails | app/api/reviews/route.ts:77-105 | a review of a clinic that is not in the table is answered 500 |
| ReviewsRoute.PostDoesNotValidate | app/api/reviews/route.ts:74-97 | for existing references, a rating of 0 and an empty content are stored as sent |
| TreatmentsRoute.ByNameAsc | app/api/treatments/route.ts:16-19 | the name ordering is a total preorder |
| TreatmentsRoute.OfferedIds | app/api/treatments/route.ts:22-33 | an id is listed exactly when the clinic has an active offer of that treatment |
| TreatmentsRoute.ByCategory | app/api/treatments/route.ts:10-19 | the category's treatments (all of them when no category is given), as a multiset, in name order |
| TreatmentsRoute.TreatmentList | app/api/treatments/route.ts:10-39 | the response is in name order; without a clinic id it is the category list; with one, a subsequence of it |
| TreatmentsRoute.ByCategoryMembership | app/api/treatments/route.ts:10-19 | a treatment is listed exactly when it is in the table and in the category, if one is given |
| TreatmentsRoute.TreatmentListMembership | app/api/treatments/route.ts:10-39 | a treatment is in the response exactly when it is in the category (if given) and the clinic (if given) has an active offer of it |
| TreatmentsRoute.Get | app/api/treatments/route.ts:4-47 | the handler answers with the treatment list |
| UsersMeRoute.UserSessions | app/api/users/me/route.ts:35-43 | every session of the user, as a multiset, as many as the count, latest expiry first |
| UsersMeRoute.RecentSessions | app/api/users/me/route.ts:35-45 | the first `min(5, number of the user's sessions)` of the user's sessions in expiry order, latest first, drawn from the user's sessions only (a sub-multiset) |
| UsersMeRoute.RecentSessionsAreTheLatest | app/api/users/me/route.ts:41-44 | any session of the user that is not shown expires no later than every one shown |
| UsersMeRoute.AccountViewsOfUser | app/api/users/me/route.ts:26-34 | a view is in the account list exactly when it is the view of one of the user's accounts |
| UsersMeRoute.Get | app/api/users/me/route.ts:10-92 | 401 exactly without a session user; 404 exactly when no user has the id; otherwise the user's own row, at most five sessions in descending expiry each active exactly when it expires after now, the user's accounts (a view is listed exactly when it is the view of an account of the user, and there are as many as the user's accounts) and the review and favorite counts |
| Auth.Redirect | lib/auth.ts:37-45 | a relative path is joined to the site; a URL on the site's origin is kept; any other URL goes to the site root; an unparsable one throws |
| Auth.RedirectStaysOnSite | lib/auth.ts:37-45 | every redirect target is under the site or has the site's origin |
| Auth.SynthesizedEmail | lib/auth.ts:51-53 | the placeholder is twice the provider name plus the account id plus eight characters long, and starts with `provider_` |
| Auth.AccountIdRoundTrip | lib/auth.ts:51-53 | the account id can be read back out of the placeholder |
| Auth.SynthesizedEmailInjective | lib/auth.ts:51-53 | for provider names without `_`, equal placeholders mean equal provider and account id |
| Auth.SynthesizedEmailCollidesForUnderscoreProviders | lib/auth.ts:51-53 | with `_` in a provider name, two identities can share a placeholder |
| Auth.EnsureEmail | lib/auth.ts:48-55 | a present email is kept; a missing one becomes the placeholder when the account names both provider and id; otherwise it stays missing |
| Auth.EnsureEmailSettles | lib/auth.ts:48-55 | after `signIn` the user has an email, and signing in again changes it no more |
| Auth.PatchOf | lib/auth.ts:69-74 | the patch names the provider and id; name and avatar are set exactly when non-empty |
| Auth.PatchRow | lib/auth.ts:67-75 | a row with another email is untouched; the matching row gets the provider fields and any given name and avatar; id, email, role and timestamps are never changed |
| Auth.PatchRows | lib/auth.ts:67-75 | every row is patched on its own, and the table keeps its length |
| Auth.PatchIdempotent | lib/auth.ts:59-107 | applying the patch twice is applying it once |
| Auth.PatchKeepsKeys | lib/auth.ts:67-75 | the patch keeps ids and emails unique and leaves every email in place |
| Auth.UniqueEmailMatchesAtMostOne | lib/auth.ts:67-68 | with unique emails the patch reaches at most one row |
| Auth.UserTable.constructor | lib/auth.ts:67 | the table starts with the given rows |
| Auth.UserTable.UpdateMany | lib/auth.ts:67-75 | the table becomes the patched rows and the returned count is the number of rows with that email |
| Auth.AuthUser.constructor | lib/auth.ts:46 | the `user` object carries its id, email, name and image |
| Auth.SignIn | lib/auth.ts:46-112 | sign-in always succeeds; the email is ensured when an account is present; the table is patched exactly when there is a user, an account and an email and the update does not throw |
| Auth.SessionUser.constructor | lib/auth.ts:113-114 | a fresh session user has no id and no role |
| Auth.Session | lib/auth.ts:113-139 | with a session user and a database row for the id, the fields are copied from the row, with empty name and avatar as null; otherwise nothing changes |
| Auth.Jwt | lib/auth.ts:140-145 | a signing-in user's id is written to the token; without a user the token is returned as it is |
| Auth.JwtKeepsId | lib/auth.ts:140-145 | a consequence of `Auth.Jwt`'s contract: the id written at sign-in survives the next refresh, and signing in again with the same id changes nothing |
| ReviewForm.SchemaUsesTheLimits | components/review/ReviewForm.tsx:15-22 | the schema's bounds are the application's review length and image limits |
| ReviewForm.AcceptedUrls | components/review/ReviewForm.tsx:94-107 | an upload batch appends at most one image per file |
| ReviewForm.AcceptedUrlsAreTheSmallFiles | components/review/ReviewForm.tsx:94-107 | the images appended are the data URLs of exactly the files within 5 MB, in file order |
| ReviewForm.DropIndex | components/review/ReviewForm.tsx:111-115 | removing an image never lengthens the list |
| ReviewForm.DropIndexRemovesOne | components/review/ReviewForm.tsx:111-115 | an index in range removes exactly that image and keeps the others in order; one out of range changes nothing |
| ReviewForm.FormBody | components/review/ReviewForm.tsx:132-135 | the body is the form values with the selected rating |
| ReviewForm.FormPostStoresAValidReview | components/review/ReviewForm.tsx:118-135 | a body the form lets through, naming an existing user and clinic, is stored by the route with a rating in 1..5, a content of 10 to 2000 characters and at most five images numbered in order |
| ReviewForm.ReviewFormState.constructor | components/review/ReviewForm.tsx:35-40 | the form starts with no rating, no images, no request and the initial clinic id or `""` |
| ReviewForm.ReviewFormState.HandleImageUpload | components/review/ReviewForm.tsx:85-108 | no file list, or a batch that would pass five images, changes nothing; otherwise the accepted images are appended; never more than five images |
| ReviewForm.ReviewFormState.HandleRemoveImage | components/review/ReviewForm.tsx:111-115 | the list becomes the list without that index |
| ReviewForm.ReviewFormState.SearchQueryChanged | components/review/ReviewForm.tsx:63-74 | the effect runs only for a new query value: suggestions are requested exactly for a new query longer than two characters, a new shorter one clears them, and the same value again changes nothing |
| ReviewForm.ReviewFormState.ClinicsFetched | components/review/ReviewForm.tsx:67-69 | the suggestions become the response data, or none |
| ReviewForm.ReviewFormState.SelectClinic | components/review/ReviewForm.tsx:187-192 | the clinic is selected, its name shown and the list closed; the new name re-runs the search effect, which sends a request exactly when the name is longer than two characters and differs from the typed text |
| ReviewForm.ReviewFormState.SelectRating | components/review/ReviewForm.tsx:236-238 | the chosen star count becomes the rating |
| ReviewForm.ReviewFormState.BeginSubmit | components/review/ReviewForm.tsx:118-135 | a body is sent exactly when no request runs, a star is chosen and the schema accepts the values; sending raises the flag |
| ReviewForm.ReviewFormState.EndSubmit | components/review/ReviewForm.tsx:152-154 | the flag drops whatever the outcome |
| AccountEditForm.DefaultValues | components/account/AccountEditForm.tsx:39-42 | each null profile field starts as `""` |
| AccountEditForm.Payload | components/account/AccountEditForm.tsx:56-59 | empty name and avatar are sent as null |
| AccountEditForm.UnchangedFormRoundTrips | components/account/AccountEditForm.tsx:39-59 | saving the defaults unchanged sends the initial profile back, empty strings as null |
| AccountEditForm.ValidFormSendsAName | components/account/AccountEditForm.tsx:13-16 | a form the schema accepts always sends its name; the avatar is null exactly when empty or absent |
| AccountEditForm.MissingNameBlocksSubmit | components/account/AccountEditForm.tsx:13-16 | a profile without a name cannot be saved as it stands |
| AccountEditForm.AccountEditState.constructor | components/account/AccountEditForm.tsx:30 | no request runs at first |
| AccountEditForm.AccountEditState.BeginSubmit | components/account/AccountEditForm.tsx:47-60 | a body is sent exactly when no request runs and the schema accepts the values; it is their payload |
| AccountEditForm.AccountEditState.EndSubmit | components/account/AccountEditForm.tsx:72-74 | the flag drops whatever the outcome |
| AccountEditForm.SubmitCycle | components/account/AccountEditForm.tsx:47-75 | a submit and its completion send a body exactly for valid values and leave the form ready |
| ClinicCard.FirstImageUrl | components/clinic/ClinicCard.tsx:18 | the card's image is the first image's URL, present exactly when there is an image |
| ClinicCard.AverageRating | components/clinic/ClinicCard.tsx:23-25 | 0 without loaded reviews; otherwise the average times the count is the sum of the ratings |
| ClinicCard.SumBounds | components/clinic/ClinicCard.tsx:24 | `n` ratings in `[lo, hi]` sum to a value in `[n * lo, n * hi]` |
| ClinicCard.AverageWithinBounds | components/clinic/ClinicCard.tsx:23-25 | the average of ratings in `[lo, hi]` lies in `[lo, hi]` |
| ClinicCard.AverageExample | components/clinic/ClinicCard.tsx:23-25 | ratings 5, 3 and 4 average to 4.0 |
| ClinicCard.MinOf | components/clinic/ClinicCard.tsx:28 | `Math.min` over the prices is at most every price and is one of them |
| ClinicCard.MinPrice | components/clinic/ClinicCard.tsx:27-29 | null exactly without loaded treatments; otherwise the lowest price |
| ClinicCard.FreeTreatmentHidesPrice | components/clinic/ClinicCard.tsx:83-87 | a clinic whose cheapest treatment is free shows no price line (React renders a bare `0` in its place) |
| ClinicCard.ViewOf | components/clinic/ClinicCard.tsx:17-29 | an image is shown exactly when there is no load error and the first image has a non-empty URL; it is external exactly when that URL starts with `http://` or `https://`; the count and average are `ReviewCountOf` and `AverageRating`; a price is shown exactly when the lowest price exists and is non-zero, and it is that lowest price |
| ClinicCard.ListingCardHasNoAverageOrPrice | components/clinic/ClinicCard.tsx:22-29 | a card fed by the listing route shows its review count beside an average of 0 and no price |
| ClinicCard.CountIndependentOfLoadedReviews | components/clinic/ClinicCard.tsx:22 | the review count does not depend on the loaded reviews and is 0 exactly when `_count` is absent or 0 |
| ClinicCard.CardState.constructor | components/clinic/ClinicCard.tsx:17 | no load error at first |
| ClinicCard.CardState.OnImageError | components/clinic/ClinicCard.tsx:42-55 | a load error is recorded |
| ClinicCard.ErrorShowsPlaceholder | components/clinic/ClinicCard.tsx:19-68 | after a load error the card shows the placeholder |
| ClinicDetail.FirstMainIndex | components/clinic/ClinicDetail.tsx:67 | `find` returns the first index whose image is of type `main`, and none when there is none |
| ClinicDetail.MainImageUrl | components/clinic/ClinicDetail.tsx:67 | the main image's URL if it is non-empty, otherwise the first image's URL, and none without images |
| ClinicDetail.MainImageIsAClinicImage | components/clinic/ClinicDetail.tsx:67 | the chosen URL is one of the clinic's images, and there is one exactly when the clinic has images |
| ClinicDetail.Thumbnails | components/clinic/ClinicDetail.tsx:139-141 | the strip shows the first images, up to four, and only when there is more than one |
| ClinicDetail.Overflow | components/clinic/ClinicDetail.tsx:164-166 | the `+n` tile appears exactly with more than four images and counts the rest |
| ClinicDetail.StripCountsEveryImage | components/clinic/ClinicDetail.tsx:139-166 | thumbnails plus the tile's count are the number of images |
| ClinicDetail.ReviewImageState.constructor | components/clinic/ClinicDetail.tsx:17-18 | a review photo starts without error, showing its own URL |
| ClinicDetail.ReviewImageState.HandleError | components/clinic/ClinicDetail.tsx:20-25 | the first error switches to the placeholder; later ones change nothing |
| ClinicDetail.ErrorTwice | components/clinic/ClinicDetail.tsx:20-36 | two errors leave the photo as one does, showing the fallback box |
| ClinicDetail.DetailState.constructor | components/clinic/ClinicDetail.tsx:63-65 | the page opens on the overview tab, not a favourite, without image error |
| ClinicDetail.DetailState.ToggleFavorite | components/clinic/ClinicDetail.tsx:92 | the heart flips the favourite flag and nothing else |
| ClinicDetail.DetailState.SelectTab | components/clinic/ClinicDetail.tsx:198 | the chosen tab becomes active and nothing else changes |
| ClinicDetail.DetailState.OnMainImageError | components/clinic/ClinicDetail.tsx:110-121 | a main image error is recorded and nothing else changes |
| ClinicDetail.ToggleTwice | components/clinic/ClinicDetail.tsx:92 | pressing the heart twice restores the page |

## Left out

- **Integer parsing.** `parseInt` / `parseFloat` of the query string, including
  `NaN`, are left out. Page and limit arrive as integers, and an absent one takes
  its default.
- ClinicsRoute.Get: requires `limit >= 1`, because a zero, negative or `NaN`
  limit depends on the parse and on how the ORM treats a non-positive `take`.
- SearchRoute.Get: requires `limit >= 1`, for the same reason.
- ReviewsRoute.Get: requires `limit >= 1`, for the same reason.
- **Database ordering.** The model fixes one order for rows that tie on the sort
  key (table order, kept by a stable sort) and for queries without `orderBy`
  (table order). The database may pick another. The exact-row contracts of
  `ClinicsRoute.PageBody`, `SearchRoute.SearchBody`, `ReviewsRoute.Get`,
  `UsersMeRoute.RecentSessions` and `TreatmentsRoute.TreatmentList` hold for
  this order only; "sorted" and "a permutation" hold for any order.
- **Included relations.** The review's user, treatment, images and helpful
  count, the treatment relation of the clinic offers, and the clinic fields the
  core never reads (phones, hours, coordinates and so on) are left out.
- **Generated values.** Ids and timestamps the database generates on `create`
  are not modelled: `ReviewsRoute.Post` returns the row it is given.
- Auth.UserTable.UpdateMany: does not refresh `updatedAt`, because the ORM
  schema that does it is not part of this model.
- Auth.PatchRow: keeps `updatedAt` unchanged for the same reason, where the
  database would refresh it on the patched row.
- ReviewsRoute.Post: the 500 branch covers only references to a missing user,
  clinic or treatment. A body that is not JSON, a field of the wrong type, an
  unparseable `visitDate` and a failing database connection also land in the
  `catch`; they are not modelled.
- **Deferred patch.** The `setImmediate` / `Promise.then` scheduling and the
  200 ms delay are left out. The patch is one atomic step after the callback,
  and a failing update is a parameter. Interleaving with the adapter's own
  writes is concurrency and is left out.
- **next-auth and URL parsing.** The next-auth adapter, providers and session
  lookup are left out. So are `new URL(url).origin` and the schema library's
  URL check, which are function parameters.
- **Session user without an id.** The session callback and the routes take the
  user's id as given. A session user that has no id is not modelled.
- **Case folding.** Case-insensitive matching folds ASCII letters only. Database
  collation and Unicode case folding are left out.
- **Name order.** `orderBy: { name: 'asc' }` (app/api/treatments/route.ts:18) is
  modelled as code-point order on the names (`Text.StrLe`), not the database
  collation.
- **String lengths.** Schema lengths are counted in characters, not UTF-16 code
  units.
- **File reads.** The review form's `FileReader` reads are taken as finishing
  in file order, and each batch's reads as finishing before the next change
  event. The five-image guard (components/review/ReviewForm.tsx:89) reads
  `uploadedImages` as of the last render, so a second batch picked while reads
  are still pending can push the list past five; the model does not capture
  that.
- **Stale form value.** `setValue('images', ...)` in the read callback
  (components/review/ReviewForm.tsx:104) uses the list as it was when the
  handler ran. The form value it leaves behind is not modelled; the model
  tracks the `uploadedImages` state only.
- **File types.** `ALLOWED_IMAGE_TYPES` is not checked by the upload handler,
  and neither is the model.
- **Floating point.** The average is an exact real, not a floating-point
  division. The star rendering and one-decimal display in
  components/ui/Rating.tsx are left out.
- **Rendering.** Markup (including the bare `0` React renders for a free
  cheapest treatment), toasts, routing, the map widget and the image host
  (lib/cloudinary.ts) are left out. So are the pages, the other components and
  the maintenance scripts.
- **Unused constants.** `ITEMS_PER_PAGE_OPTIONS`, `REVIEW_SORT_OPTIONS`,
  `SUPPORTED_LANGUAGES`, `APP_NAME` and `APP_DESCRIPTION` are left out: no
  modelled code reads them.
