# JamJam Trek front end: a verified model of its logic

The JamJam Trek site is a Next.js front end for a trekking company. It has:
- public pages for treks, activities, blog posts and reviews;
- home-page components (featured treks, activities, testimonials);
- an admin area with a login page and a dashboard.

Nearly all of it is markup and `fetch` plumbing. This project models the small amount of real logic in it and proves properties of that logic. The logic covered is:

- **The trek-day decoder** of the dashboard's edit modal (`parseTrekDays`), module `TrekDays`. An itinerary may arrive as an array, as a JSON string, or as a string JSON-encoded several times over, and the decoder recovers it. `JSON.parse` and `JSON.stringify` are function parameters. The round trip is proved under a hypothesis about these two: parsing what was written for any string, and for the day list being written, gives that value back. `TrekDays.RoundTripsSatisfiable` exhibits a writer and a parser that meet it, so the hypothesis is not vacuous.
- **The three response normalisers**, module `Normalize`. Each picks the item list out of a list response whose shape is unknown. One serves the public pages, one the dashboard's trek tab and statistics, and one the dashboard's blog and review tabs. JavaScript truthiness and `||` are modelled exactly on a `Json` value type (module `JsValues`).
- **The REST client** `lib/api.ts`, module `Api`. This covers:
  - the query-string builders and request URLs;
  - the unwrapping of nested list responses;
  - the `{ data: [] }` fallbacks of the review calls;
  - the `_method=PUT` field of `updateTrek`;
  - the `data.message || fallback` errors of the mutating calls.

  What `fetch` produced is an input (`FetchResult`). How a call settles is an `Outcome`, either a value or a thrown error.
- **The public pages and home components**, module `Pages`. This covers:
  - the list each page ends up showing for each response;
  - the home page's prefixes;
  - the featured-trek card image and colour;
  - the activity card description;
  - the star rows.
- **The listing pages' filter-and-sort effect and category list**, module `ListViews`. The sort is an in-place insertion sort on an array, proved sorted and a permutation. It uses `parseInt`, `trim`, `toLowerCase` and `includes` from module `JsStrings`, and `filter` and its counts from module `Seqs`.
- **The dashboard**, module `Dashboard`. This covers:
  - the trek, blog and review tabs;
  - the overview statistics: each counter's value, and the bounds the list sizes put on them;
  - the review cards' badge, Approve button, text and stars.
- **The dashboard's submissions**, module `Forms`. This covers:
  - the multipart forms of the create-trek, edit-trek and create-blog modals;
  - the token check that precedes them;
  - the in-place edit of a blog content section, which is shared between the old and new section lists.
- **The admin login page**, module `AdminLogin`. Its state is a class with the form, the error message, the loading flag and `localStorage` as a map.
- **The reviews page's form**, module `ReviewForm`. Its state is a class with the fields, the `submitting` flag and the message.

Four behaviours of the code are easy to miss:

- The public normaliser has no top-level `<key>` fallback: `{ treks: [...] }` shows nothing on the public pages. It also does not always give an array: a truthy non-array under `data.<key>` is passed through, and `Normalize.NonArrayPassesThrough` shows this.
- When `parseTrekDays` runs out of its ten rounds, it returns `['Day 1: ']`, although `current` still holds a string then. The final `Array.isArray(current)` test can never succeed, because arrays are returned inside the loop.
- `getLatestReviews` and `getPublishableReviews` do not always fall back to `{ data: [] }`. They `return response.json()` without awaiting it inside the `try`, so a body that is not JSON still rejects the call (`Api.ReviewsResult`). The pages then catch that rejection and show `[]`.
- The dashboard's trek tab checks the `data.success` wrapper before anything else. The blog and review tabs do not have that branch.

## Model

| member | source | states |
|---|---|---|
| TrekDays.Decode | app/admin/dashboard/page.tsx:611-646 | The result is never empty. A falsy input gives `['Day 1: ']`. A non-empty array is returned unchanged and an empty one gives the default. A truthy value that is neither a string nor an array gives the default. |
| TrekDays.Unwrap | app/admin/dashboard/page.tsx:619-639 | Every round of the string loop, whatever the parser does, ends in a non-empty list. |
| TrekDays.ParseCalls | app/admin/dashboard/page.tsx:620-631 | The loop calls `JSON.parse` at most as many times as it has rounds left, and at least once when any round is left. |
| TrekDays.DecodeParses | app/admin/dashboard/page.tsx:611-646 | The decoder parses at most 10 times. It parses at all exactly when its input is a truthy string. |
| TrekDays.ParseTrekDays | app/admin/dashboard/page.tsx:611-646 | The `while` loop over `current` and `maxAttempts` terminates and returns exactly `Decode`'s result. Its ghost count of parses equals `DecodeParses`, which is at most 10. |
| TrekDays.RoundTrip | app/admin/dashboard/page.tsx:611-646 | Given that parsing what `JSON.stringify` writes gives back every string and the list itself: a day list encoded 1 to 10 times decodes to itself (an empty list gives the default), after exactly as many parses as there are layers. |
| TrekDays.OverEncodedGivesDefault | app/admin/dashboard/page.tsx:641-642 | Given only that strings round-trip, a list encoded more than 10 times is not recovered. The budget runs out on a string and the result is the default. |
| TrekDays.UnparsableString | app/admin/dashboard/page.tsx:632-637 | A string that fails to parse comes back as the one-element list holding it. If it is all white space, the result is the default. |
| TrekDays.InnerLayerFails | app/admin/dashboard/page.tsx:622-637 | When an inner layer fails to parse, the result holds that inner string, not the original input, and the decoder made exactly 2 parses. |
| TrekDays.ScalarLayerGivesDefault | app/admin/dashboard/page.tsx:622-645 | A round that yields a number, boolean, `null` or object ends with the default after one parse. |
| TrekDays.AddDay | app/admin/dashboard/page.tsx:651-653 | The list grows by one. The old days are kept as a prefix and the new last one is `Day <n+1>: `. |
| TrekDays.RemoveDay | app/admin/dashboard/page.tsx:655-657 | For an index in range, exactly that day goes and the others keep their order. An index out of range changes nothing. |
| TrekDays.RemoveUndoesAdd | app/admin/dashboard/page.tsx:651-657 | Removing the day just added gives the original list back. |
| TrekDays.UpdateDay | app/admin/dashboard/page.tsx:659-663 | The array copy has the same length, the new value at `index`, and every other day unchanged. |
| JsStrings.TrimEmptyIffBlank | app/admin/dashboard/page.tsx:634 | `s.trim()` is empty exactly when every character of `s` is ECMAScript white space. |
| JsStrings.ToLower | app/treks/page.tsx:70 | Lower-casing keeps the length and maps each character on its own. |
| JsStrings.ParseIntOfIntToString | app/treks/page.tsx:60-61 | `parseInt` reads back every integer `String` writes, also when a non-digit suffix such as a unit follows. |
| JsStrings.ParseIntWithoutDigits | app/treks/page.tsx:60-61 | A string with no decimal digit parses to NaN (`None`). |
| Api.RequestUrl | lib/api.ts:84 | The URL is `path + "?" + query` when there are query pairs, and exactly `path` otherwise. |
| Api.SearchUrl | lib/api.ts:84 | The template literal builds `RequestUrl` of the search parameters' pairs. |
| Api.TrekQuerySpec | lib/api.ts:79-82 | Each key appears at most once, in the order `data_type`, `is_active`, `is_featured`. A flag appears exactly when it is given, as `'1'`/`'0'`. `data_type` appears exactly when it is a non-empty string. |
| Api.TrekSearchParams | lib/api.ts:79-82 | The successive `append` calls leave exactly the pairs `TrekQuery` lists. |
| Api.GetTreks | lib/api.ts:78-94 | The request URL is `RequestUrl` of the trek query, and the outcome is `ListResult` for `treks`. |
| Api.ActivityQuerySpec | lib/api.ts:104-106 | Only `category` and `is_active` appear, in that order and each at most once. `category` appears exactly when it is a non-empty string, and `is_active` exactly when given, as `'1'`/`'0'`. |
| Api.ActivitySearchParams | lib/api.ts:104-106 | The `append` calls leave exactly the pairs of `ActivityQuery`, whose meaning `ActivityQuerySpec` proves. |
| Api.GetActivities | lib/api.ts:103-118 | The request URL is `RequestUrl` of the activity query, and the outcome is `ListResult` for `activities`. |
| Api.BlogQuerySpec | lib/api.ts:179-181 | Only `is_published` and `per_page` appear, in that order. `is_published` is present exactly when given, as `'true'`/`'false'`. `per_page` is present exactly when given and non-zero, and its text parses back to the number. |
| Api.BlogSearchParams | lib/api.ts:179-181 | The `append` calls leave exactly the pairs of `BlogQuery`. |
| Api.GetBlogs | lib/api.ts:178-187 | The request URL is `RequestUrl` of the blog query, and the outcome is the parsed body or the fixed error. |
| Api.UnwrapNested | lib/api.ts:87-93 | A `null` body throws, and only a `null` body does. `data.data.<key>` is returned when `success` and `data` are truthy and it is an array. Every other body is returned unchanged as `Ok(data)`. |
| Api.ListResult | lib/api.ts:85-93 | An error status throws the fixed text before the body is read, and a network failure throws a TypeError. An OK body that is not JSON throws a SyntaxError, and an OK JSON body is unwrapped by `UnwrapNested`. |
| Api.JsonOrThrow | lib/api.ts:184-186 | The call returns exactly when the response is OK and its body is JSON, and it returns that body. An error status throws the fixed text. |
| Api.ReviewsResult | lib/api.ts:127-153 | A network failure or an error status gives `{ data: [] }`. An OK JSON body is returned. The call rejects exactly for an OK body that is not JSON. |
| Api.PublishableReviewsUrl | lib/api.ts:141-143 | Without an argument the page size is 8. A given page size is written in decimal as `per_page`. |
| Api.MutationResult | lib/api.ts:202-218 | The call returns the body exactly when the response is OK and JSON. An error status with a body throws `data.message || fallback`. |
| Api.FailureMessageChoice | lib/api.ts:213-215 | The message is the server's when that is truthy and the fixed text otherwise, so it is non-empty whenever the fixed text is. |
| Api.UpdateTrek | lib/api.ts:277-302 | The caller's form gets exactly `_method=PUT` appended, the URL is `/treks/<id>`, and the outcome uses "Failed to update trek". |
| Api.DeleteTrek | lib/api.ts:304-326 | The URL is `/treks/<id>`, and the outcome uses "Failed to delete trek". |
| Normalize.PublicList | app/treks/page.tsx:23-31 | A bare array is kept. An array under `data` is taken. A `data` that is not an object gives `[]`. An object `data` gives `data.<key> || data.items || []`. A non-object response gives `[]`. Any non-array result is a truthy `data.<key>` or `data.items`. |
| Normalize.PublicShapes | app/treks/page.tsx:23-31 | The bare, `data` and nested `success` shapes all give their items, whatever the value of `success`. A top-level `<key>` gives `[]`. |
| Normalize.EmptyKeyArrayWins | app/blog/page.tsx:25-26 | An empty `data.<key>` array is truthy and wins over `items`. |
| Normalize.NonArrayPassesThrough | app/treks/page.tsx:28-30 | No chain promises an array: a truthy string or number under the key is passed through. |
| Normalize.DashboardList | app/admin/dashboard/page.tsx:1855-1862 | A bare array is kept. An array under `data` is taken. Any other object gives its own `<key> \|\| items \|\| []`. A non-object gives `[]`. |
| Normalize.DashboardListShapes | app/admin/dashboard/page.tsx:1956-1963 | The dashboard's blog and review chain takes the bare, `data` and top-level shapes, but not the nested one. |
| Normalize.DashboardTreks | app/admin/dashboard/page.tsx:1599-1609 | A `null` body throws, and only a `null` body does. The nested array is taken under a truthy `success` and a truthy `data`. Every other body, arrays included, gives exactly what the blog and review chain gives. |
| Normalize.DashboardTrekShapes | app/admin/dashboard/page.tsx:1599-1609 | The nested shape is taken only when `success` is true; without it the result is `[]`. The top-level shape works. |
| Normalize.StatsListIsDashboardList | app/admin/dashboard/page.tsx:190-210 | The statistics' extra `success` branch returns what the tabs' chain would return, except that a `null` body throws. |
| Pages.UnwrapIsTransparent | lib/api.ts:90-93 | `getTreks`'s own unwrapping does not change what the public chain shows. |
| Pages.TreksPageShapes | app/treks/page.tsx:20-39 | The treks page shows the items of the bare, `data` and nested shapes, and `[]` for the top-level shape, an error status, a non-JSON or `null` body and a network failure. |
| Pages.BlogPageShapes | app/blog/page.tsx:17-33 | A bare array and an array under `data` are shown. A top-level `blogs` and every thrown call show `[]`. |
| Pages.BlogPageObjectData | app/blog/page.tsx:25-26 | An object under `data` shows its `blogs`, else its `items`. |
| Pages.ReviewsFallbackIsEmpty | app/components/Testimonials.tsx:13-29 | A failed review call, via `{ data: [] }` or a caught rejection, shows an empty list. |
| Pages.Slice | app/components/FeaturedTreks.tsx:30 | `slice(0, n)` succeeds exactly on arrays and strings. For an array it gives the first `min(n, length)` items, and for a string the first `min(n, length)` characters. |
| Pages.HomeListIsPrefix | app/components/FeaturedTreks.tsx:19-30 | A home component shows the first `min(n, length)` entries of the normalised list. A failure shows `[]`, and the list is always an array or a string. |
| Pages.HomeListsArePrefixes | app/components/Activities.tsx:15-31 | At most 3 featured treks and 2 activities are shown, and they are the first entries of what the full page would show. |
| Pages.CardImage | app/components/FeaturedTreks.tsx:68-69 | The image is `featured_image_url` when truthy. Otherwise it is the first of a non-empty `image_urls`, otherwise `null`. A `null` trek throws. |
| Pages.FeaturedColorSpec | app/components/FeaturedTreks.tsx:72-78 | Green exactly for easy or moderate. Amber exactly for challenging or difficult without those. Red exactly for strenuous or hard without any earlier word. |
| Pages.ClassifiersDisagreeOnModerate | app/components/FeaturedTreks.tsx:74 | A moderate difficulty without "easy" (such as "moderate-hard") is green on the home cards and yellow on the listing pages. |
| Pages.CardDescription | app/components/Activities.tsx:93 | The card text is never empty: it is the description when truthy and the fixed sentence otherwise. |
| Pages.TestimonialStars | app/components/Testimonials.tsx:68 | `floor(rating)` stars are drawn for `0 <= rating < 2^32`. Any other rating makes `Array` throw. |
| Pages.StarRow | app/reviews/page.tsx:94-107 | There are 5 stars, and star `k` is filled exactly when `k <= rating`. |
| Pages.FilledStarsArePrefix | app/reviews/page.tsx:97-100 | The filled stars always come first. |
| ListViews.DurationKeySpec | app/treks/page.tsx:58-63 | A duration written as an integer, optionally followed by a unit, sorts by that integer. One with no digit sorts as 0. |
| ListViews.SortByKey | app/treks/page.tsx:54-63 | Sorting the array in place leaves it in non-decreasing key order and a permutation of the old contents. |
| ListViews.SortedCopy | app/treks/page.tsx:46-63 | The sorted copy is ordered and is a permutation of its input. |
| ListViews.TrekView | app/treks/page.tsx:45-67 | `'all'` gives a permutation of the treks. Any other filter keeps each trek of that `data_type` as many times as it occurs, and no other trek. The order is non-decreasing price, non-increasing price or non-decreasing `parseInt(duration) \|\| 0`. |
| ListViews.ActivityView | app/activities/page.tsx:51-73 | The same two facts for categories: a permutation under `'all'`, exactly the activities of the chosen category otherwise, in the chosen order. |
| ListViews.AllCategoryShowsEverything | app/activities/page.tsx:55-57 | Selecting `'all'` shows every activity, so a category literally named `all` cannot be filtered. |
| ListViews.Distinct | app/activities/page.tsx:38 | `[...new Set(s)]` holds exactly the values of `s`, with no duplicates. |
| ListViews.DistinctFirstOccurrenceOrder | app/activities/page.tsx:38 | The distinct values are listed in the order of their first occurrences. |
| ListViews.Categories | app/activities/page.tsx:38 | The category list has no duplicates and contains exactly the categories of the loaded activities. |
| ListViews.ListingColorSpec | app/treks/page.tsx:69-75 | Each badge colour is chosen exactly when its word is the first, in the order easy, moderate, challenging/hard, to occur in the lower-cased difficulty. Gray is chosen otherwise. |
| ListViews.ListingColorIgnoresCase | app/activities/page.tsx:75-81 | A difficulty and its lower-cased form get the same badge. |
| ListViews.ModerateBeforeHard | app/treks/page.tsx:71-73 | A difficulty naming both moderate and hard, without easy, is yellow: the first match wins. |
| Seqs.Filter | app/admin/dashboard/page.tsx:213-216 | `filter` keeps exactly the elements satisfying the test, each as often as it occurs, and nothing else. |
| Seqs.FilterIsSubsequence | app/treks/page.tsx:50 | The filtered list is a subsequence of the input, in the same order. |
| Seqs.DisjointCountsBound | app/admin/dashboard/page.tsx:215-216 | Two tests that no element passes at once count at most the length between them. |
| Dashboard.TabsAndStatus | app/admin/dashboard/page.tsx:1586-1610 | The trek tab shows the nested shape only under `success`, shows `[]` for an error status and a `null` body, and ignores an error status's body. The blog tab shows an error status's body list anyway. |
| Dashboard.PageAndTabDisagree | app/admin/dashboard/page.tsx:1599-1609 | A nested list without `success` is shown by the public treks page only. A top-level `treks` is shown by the dashboard only. |
| Dashboard.StatusPredicates | app/admin/dashboard/page.tsx:2052-2061 | Approved and pending are disjoint. Every review with an Approve button is badged Pending. A review with no status or a `null` status is badged Pending but has no button. |
| Dashboard.ReviewText | app/admin/dashboard/page.tsx:2059 | The card text is never empty: `review` when truthy, else `comment` when truthy, else exactly `'No review text'`. |
| Dashboard.StarsAgree | app/admin/dashboard/page.tsx:2017-2028 | For every rating, the dashboard's `i < floor(rating)` stars are the reviews page's `k <= rating` stars. |
| Dashboard.FetchStats | app/admin/dashboard/page.tsx:159-233 | The totals are the three lists' lengths. Approved, pending, featured and published are the lengths of the lists `filter` keeps for `status === true \|\| status === 1`, `status === false \|\| status === 0`, `is_featured` and `is_active`. Approved plus pending is at most the number of reviews, featured at most the number of treks, published at most the number of blogs. The statistics are set exactly when every body is JSON and non-null and every list is an array of non-null items. |
| Dashboard.CountersMatchCards | app/admin/dashboard/page.tsx:213-216 | The approved counter counts exactly the reviews badged Approved, and the pending counter exactly those with an Approve button. |
| Forms.EncodedFieldsSpec | app/admin/dashboard/page.tsx:356-363 | Each state field becomes one text entry under its key, in order. A flag is `'1'` exactly when set and `'0'` exactly when clear. Text is kept. |
| Forms.AppendFields | app/admin/dashboard/page.tsx:356-363 | The `forEach` loop appends exactly `EncodedFields` to the form. |
| Forms.DaysJson | app/admin/dashboard/page.tsx:366 | The itinerary is written as a JSON array of its days, in order. |
| Forms.BuildTrekForm | app/admin/dashboard/page.tsx:676-694 | A fresh form holds the fields, then `trek_days`, then the featured image when chosen, then the images. |
| Forms.TrekDaysEntryRoundTrip | app/admin/dashboard/page.tsx:686 | Given that strings and the written list round-trip, the `trek_days` entry, right after the fields, decodes back to the edited days through the dashboard's decoder. |
| Forms.SubmitTrekEdit | app/admin/dashboard/page.tsx:665-705 | Without a token nothing is sent. Otherwise the built form plus `_method=PUT` goes to `/treks/<id>`. |
| Forms.SubmitTrekCreate | app/admin/dashboard/page.tsx:343-382 | Without a token nothing is sent. Otherwise the form without a featured image goes to `/treks`. |
| Forms.EditAddsMethodLast | lib/api.ts:280 | From the same state without a featured image, the edit submit and the create submit send something exactly together. The edit's entries are the create's plus one last `_method=PUT`, and its URL is the create URL plus `/<id>`. |
| Forms.UpdateContentSection | app/admin/dashboard/page.tsx:1300-1304 | The new list holds the very section objects of the old one. Only the chosen field of the chosen section changes, under both lists. |
| Forms.SectionsJson | app/admin/dashboard/page.tsx:1328 | The sections are written as a JSON array with one entry per section, in order. Entry `i` is an object with exactly the keys `heading` and `paragraph`, holding section `i`'s current texts. |
| Forms.SubmitBlog | app/admin/dashboard/page.tsx:1306-1343 | Without a token nothing is sent. Otherwise the fields, then `content` as JSON, then the image when chosen, go to `/blogs`. |
| AdminLogin.Decide | app/admin/login/page.tsx:24-41 | Sign-in happens exactly when the call returned with truthy `status` and `token`, and it uses that token. Any other answer shows a non-empty error. A returned object shows `message`, or the invalid-credentials text. A thrown error shows `err.message`, or the generic text, and so does a `null` answer, whose property read throws. |
| AdminLogin.LoginAnswers | lib/api.ts:211-217 | A rejected login shows the server's message or "Login failed", because `login` throws first. An OK answer with a false `status` shows "Invalid email or password". |
| AdminLogin.WithField | app/admin/login/page.tsx:47-52 | The named field takes the value, and every other field keeps its own. |
| AdminLogin.LoginPage.constructor | app/admin/login/page.tsx:12-17 | The form starts with empty email and password, no error, and not loading. |
| AdminLogin.LoginPage.HandleChange | app/admin/login/page.tsx:47-52 | Only the form changes, by `WithField`. |
| AdminLogin.LoginPage.BeginSubmit | app/admin/login/page.tsx:21-22 | The error is cleared and loading starts. |
| AdminLogin.LoginPage.FinishSubmit | app/admin/login/page.tsx:24-44 | A sign-in writes exactly the three `localStorage` keys, with the entered email and the token. Otherwise storage is untouched and the error is the decided message. Loading ends either way. |
| AdminLogin.LoginPage.HandleSubmit | app/admin/login/page.tsx:19-45 | The whole handler: a sign-in leaves the error empty, and a failure leaves storage unchanged. |
| ReviewForm.Verdict | app/reviews/page.tsx:67-88 | The success message is shown exactly when the submission returned, and the failure message otherwise. |
| ReviewForm.SubmittedIffAccepted | lib/api.ts:162-168 | A review counts as submitted exactly when the response is OK and its body is JSON. |
| ReviewForm.ReviewsPage.constructor | app/reviews/page.tsx:14-21 | The form starts empty with rating 5, not submitting, with no message. |
| ReviewForm.ReviewsPage.BeginSubmit | app/reviews/page.tsx:56-65 | The message is cleared, submitting starts, and the payload copies name, email and rating and sends the comment as `review`. |
| ReviewForm.ReviewsPage.FinishSubmit | app/reviews/page.tsx:67-91 | On success the form resets to `('', '', 5, '')`. On failure it keeps what was typed. Either way the message is `Verdict` and submitting ends. |
| ReviewForm.ReviewsPage.ClickStar | app/reviews/page.tsx:102 | An interactive star sets the rating to its number. A non-interactive one changes nothing. |

## Left out

- Network I/O: every `fetch` call, headers, `Promise.all` and the logout and auth-check calls. What a call received is an input (`FetchResult`).
- The internals of `JSON.parse` and `JSON.stringify`. They are function parameters, and what the round-trip hypothesis assumes about them covers only strings and the day list being written.
- Pages.CardImage: strings are sequences of Unicode characters, so for a string `image_urls` the model takes the first character where JavaScript takes the first UTF-16 code unit. The two differ only when the string starts with a character outside the Basic Multilingual Plane, where JavaScript gives a lone surrogate.
- Dashboard.Badge and Dashboard.ReviewText: a `null` entry in the review list makes the card's `review.status` and `review.review` reads throw a TypeError while rendering. The model reads no fields of `null`, so such an entry gets the "Pending" badge and the fallback text instead.
- Pages.Length: only arrays and strings have a `length`. An object whose own `length` key is set is treated as having none.
- Api.Serialize: the percent-encoding `URLSearchParams` applies (the application/x-www-form-urlencoded serializer of the WHATWG URL Standard, section 5.2). Query strings are ordered key/value pairs joined with `=` and `&`.
- JsStrings.ParseInt: hexadecimal `0x` input and radix handling. Only decimal digits after optional white space and a sign are read.
- JsStrings.ToLower: only ASCII letters are lower-cased. Full Unicode case mapping is not modelled.
- The dashboard's average rating (floating-point `Math.round(x*10)/10`), file sizes and all date formatting. These depend on floating point or locale.
- ListViews.SortByKey: `Array.prototype.sort` is modelled by an insertion sort, which swaps only on a strictly greater key. The contract states ordering and permutation only. Stability, which JavaScript guarantees (the `Array.prototype.sort` section of ECMA-262 requires a stable sort since its 10th edition, 2019), is not stated: treks or activities with equal prices or durations without leading digits keep their filtered order, and the model does not prove this.
- ListViews.TrekView and ListViews.ActivityView work on typed records (`Trek`, `Activity`) with a real price. A missing or non-numeric price, and the NaN ordering it would cause, are not modelled.
- TrekDays.UpdateDay: requires an index inside the list, since the page only passes rendered rows. In JavaScript an index past the end would grow the array with holes.
- AdminLogin.ErrorMessage: a built-in error (TypeError, SyntaxError) is shown with its name in place of the engine's own message text.
- AdminLogin.LoginPage.FinishSubmit: `localStorage.setItem` stores the string form of the token. That conversion is the `toText` parameter and is not modelled for non-string tokens.
- Api.JsError: `new Error(x)` keeps the value `x` as its message. The string conversion `Error` applies to a non-string message is not modelled.
- Forms.FieldValue: form state values are text or booleans. The `toString` of other values (numbers from numeric inputs) is taken to be the text already held.
- The `toast`, `router.push`, `Image` and `File` handling and all JSX/CSS rendering.
- The reviews page's 1-second `setTimeout` refresh after a submission. It is a timer re-running the list fetch that `Pages.ReviewsList` models.
- The edit modal's initial form defaults, the add/remove of blog content sections, `CreateActivityModal` (it never sends its form) and `ActivitiesTab`, which is never mounted.
- The static components (navigation bar, footer, hero, why-choose-us, statistics strip, call to action), the layout and the deployment configuration.
