/** What the public pages and the home-page components keep of their list
    fetch, and the small display choices they make per item. A page's list
    starts as `[]`; when the call throws, the `catch` either resets it to
    `[]` or leaves that initial value, so a thrown call always shows `[]`. */
module Pages {

  import opened JsValues
  import opened JsStrings
  import opened Api
  import opened Normalize
  import opened ListViews

  /** The list a public page holds once its call has settled. */
  function PageList(result: Outcome<Json>, key: string): Json
  {
    match result
    case Thrown(_) => EmptyArray
    case Ok(response) => PublicList(response, key)
  }

  /** `getTreks`'s own unwrapping is invisible to the public chain: a body
      the client unwraps and the same body left as it is normalise to the
      same list. */
  lemma UnwrapIsTransparent(data: Json, key: string)
    requires UnwrapNested(data, key).Ok?
    ensures PublicList(UnwrapNested(data, key).value, key) == PublicList(data, key)
  {
    if UnwrapNested(data, key).value != data {
      var inner := Get(data, "data").value;
      assert inner.JObj?;
      assert Get(data, "data") == Some(inner);
    }
  }

  /** The treks page (app/treks/page.tsx), fed by `getTreks`. */
  function TreksPageList(fetched: FetchResult): Json
  {
    PageList(ListResult(fetched, "treks", "Failed to fetch treks"), "treks")
  }

  /** The treks page shows the items of every response shape but the
      top-level one, whether or not `success` is set, and `[]` on any
      failure. */
  lemma TreksPageShapes(xs: seq<Json>, success: bool)
    ensures TreksPageList(Response(true, Some(BareShape(xs)))) == JArr(xs)
    ensures TreksPageList(Response(true, Some(DataShape(xs)))) == JArr(xs)
    ensures TreksPageList(Response(true, Some(NestedShape("treks", xs, success)))) == JArr(xs)
    ensures TreksPageList(Response(true, Some(TopLevelShape("treks", xs)))) == EmptyArray
    ensures TreksPageList(Response(false, Some(BareShape(xs)))) == EmptyArray
    ensures TreksPageList(Response(true, None)) == EmptyArray
    ensures TreksPageList(Response(true, Some(JNull))) == EmptyArray
    ensures TreksPageList(NetworkFailure) == EmptyArray
  {
    PublicShapes("treks", xs, success);
    UnwrapIsTransparent(BareShape(xs), "treks");
    UnwrapIsTransparent(DataShape(xs), "treks");
    UnwrapIsTransparent(NestedShape("treks", xs, success), "treks");
    UnwrapIsTransparent(TopLevelShape("treks", xs), "treks");
  }

  /** The blog page (app/blog/page.tsx), fed by `getBlogs`, which does not
      unwrap. */
  function BlogPageList(fetched: FetchResult): Json
  {
    PageList(JsonOrThrow(fetched, "Failed to fetch blogs"), "blogs")
  }

  /** The blog page takes a bare array and an array under `data`; a
      top-level `blogs` without `data` and every failure give `[]`. */
  lemma BlogPageShapes(xs: seq<Json>, fetched: FetchResult)
    ensures BlogPageList(Response(true, Some(BareShape(xs)))) == JArr(xs)
    ensures BlogPageList(Response(true, Some(DataShape(xs)))) == JArr(xs)
    ensures BlogPageList(Response(true, Some(TopLevelShape("blogs", xs)))) == EmptyArray
    ensures JsonOrThrow(fetched, "Failed to fetch blogs").Thrown? ==> BlogPageList(fetched) == EmptyArray
  {
    PublicShapes("blogs", xs, true);
  }

  /** An object under `data` gives its `blogs`, even an empty one, which
      wins over `items`; without `blogs` it gives `items`. */
  lemma BlogPageObjectData(xs: seq<Json>, ys: seq<Json>)
    ensures BlogPageList(Response(true, Some(JObj(map["data" := JObj(map["blogs" := JArr(xs), "items" := JArr(ys)])])))) == JArr(xs)
    ensures BlogPageList(Response(true, Some(JObj(map["data" := JObj(map["items" := JArr(ys)])])))) == JArr(ys)
  {
    var both := JObj(map["blogs" := JArr(xs), "items" := JArr(ys)]);
    assert Get(JObj(map["data" := both]), "data") == Some(both);
    assert Get(both, "blogs") == Some(JArr(xs));
    var onlyItems := JObj(map["items" := JArr(ys)]);
    assert Get(JObj(map["data" := onlyItems]), "data") == Some(onlyItems);
    assert Get(onlyItems, "blogs") == None;
  }

  /** The home page's testimonials (app/components/Testimonials.tsx) and
      the reviews page (app/reviews/page.tsx): both fetch through a review
      call that answers `{ data: [] }` instead of failing. */
  function ReviewsList(fetched: FetchResult): Json
  {
    PageList(ReviewsResult(fetched), "reviews")
  }

  /** The `{ data: [] }` fallback shows as an empty list, so a failed
      review call and an empty answer look the same. */
  lemma ReviewsFallbackIsEmpty(fetched: FetchResult)
    requires fetched.NetworkFailure? || !fetched.ok || (fetched.body.None?)
    ensures ReviewsList(fetched) == EmptyArray
  {
    assert Get(EmptyReviews, "data") == Some(JArr([]));
  }

  /** `list.slice(0, n)`: arrays and strings have it; any other value throws
      a TypeError. */
  function Slice(list: Json, n: nat): (r: Outcome<Json>)
    ensures r.Ok? <==> list.JArr? || list.JStr?
    ensures list.JArr? ==>
              (r.Ok? && r.value.JArr? &&
               |r.value.items| == (if n < |list.items| then n else |list.items|) &&
               r.value.items == list.items[..|r.value.items|])
    ensures list.JStr? ==>
              (r.Ok? && r.value.JStr? &&
               |r.value.s| == (if n < |list.s| then n else |list.s|) &&
               r.value.s == list.s[..|r.value.s|])
  {
    match list
    case JArr(items) => Ok(JArr(if n < |items| then items[..n] else items))
    case JStr(s) => Ok(JStr(if n < |s| then s[..n] else s))
    case _ => Thrown(TypeError)
  }

  /** A home-page component's list: the normalised list cut to its first
      `n` entries. A value `slice` rejects leaves the initial `[]`. */
  function HomeList(result: Outcome<Json>, key: string, n: nat): Json
  {
    match result
    case Thrown(_) => EmptyArray
    case Ok(response) =>
      match Slice(PublicList(response, key), n)
      case Thrown(_) => EmptyArray
      case Ok(shown) => shown
  }

  /** The component shows the first `min(n, |xs|)` items of what a page
      would show, nothing on failure, and never a value other than an
      array or a string. */
  lemma HomeListIsPrefix(result: Outcome<Json>, key: string, n: nat)
    ensures result.Thrown? ==> HomeList(result, key, n) == EmptyArray
    ensures PageList(result, key).JArr? ==>
      var xs := PageList(result, key).items;
      HomeList(result, key, n) == JArr(xs[..if n < |xs| then n else |xs|])
    ensures !PageList(result, key).JArr? && !PageList(result, key).JStr? ==>
      HomeList(result, key, n) == EmptyArray
    ensures HomeList(result, key, n).JArr? || HomeList(result, key, n).JStr?
  {
    if result.Ok? {
      var shown := Slice(PublicList(result.value, key), n);
    }
  }

  /** The home page's featured treks (app/components/FeaturedTreks.tsx),
      fed by `getTreks` with `is_active` and `is_featured`. */
  function FeaturedTreksList(fetched: FetchResult): Json
  {
    HomeList(ListResult(fetched, "treks", "Failed to fetch treks"), "treks", 3)
  }

  /** The home page's activities (app/components/Activities.tsx), fed by
      `getActivities` with `is_active`. */
  function HomeActivitiesList(fetched: FetchResult): Json
  {
    HomeList(ListResult(fetched, "activities", "Failed to fetch activities"), "activities", 2)
  }

  /** At most three featured treks and two activities are shown; when the
      full page would hold an array, they are its first entries. */
  lemma HomeListsArePrefixes(fetched: FetchResult)
    ensures FeaturedTreksList(fetched).JArr? ==> |FeaturedTreksList(fetched).items| <= 3
    ensures TreksPageList(fetched).JArr? ==>
      (FeaturedTreksList(fetched).JArr? &&
       FeaturedTreksList(fetched).items == TreksPageList(fetched).items[..|FeaturedTreksList(fetched).items|])
    ensures HomeActivitiesList(fetched).JArr? ==> |HomeActivitiesList(fetched).items| <= 2
    ensures (var all := PageList(ListResult(fetched, "activities", "Failed to fetch activities"), "activities");
             all.JArr? ==>
               (HomeActivitiesList(fetched).JArr? &&
                HomeActivitiesList(fetched).items == all.items[..|HomeActivitiesList(fetched).items|]))
  {
    HomeListIsPrefix(ListResult(fetched, "treks", "Failed to fetch treks"), "treks", 3);
    HomeListIsPrefix(ListResult(fetched, "activities", "Failed to fetch activities"), "activities", 2);
  }

  // ---- Featured trek cards

  /** `v.length` of a value: arrays and strings have one, other values
      give `undefined`. */
  function Length(v: Json): Option<nat>
  {
    match v
    case JArr(items) => Some(|items|)
    case JStr(s) => Some(|s|)
    case _ => None
  }

  /** `v[0]` of a value with a positive length. */
  function First(v: Json): Json
    requires Length(v).Some? && Length(v).value > 0
  {
    match v
    case JArr(items) => items[0]
    case JStr(s) => JStr([s[0]])
  }

  /** The card image: `featured_image_url` when truthy, otherwise the first of
      a non-empty `image_urls`, otherwise `null`. Reading a property of a
      `null` trek throws (`None`). */
  function CardImage(trek: Json): (r: Option<Json>)
    ensures r.None? <==> trek == JNull
    ensures trek != JNull && TruthyOpt(Get(trek, "featured_image_url")) ==> r == Get(trek, "featured_image_url")
    ensures trek != JNull && !TruthyOpt(Get(trek, "featured_image_url")) &&
            (!TruthyOpt(Get(trek, "image_urls")) || Length(Get(trek, "image_urls").value) == None ||
             Length(Get(trek, "image_urls").value) == Some(0)) ==>
      r == Some(JNull)
    ensures trek != JNull && !TruthyOpt(Get(trek, "featured_image_url")) && IsArray(Get(trek, "image_urls")) &&
            |Get(trek, "image_urls").value.items| > 0 ==>
      r == Some(Get(trek, "image_urls").value.items[0])
    ensures trek != JNull && !TruthyOpt(Get(trek, "featured_image_url")) && TruthyOpt(Get(trek, "image_urls")) &&
            Get(trek, "image_urls").value.JStr? ==>
      r == Some(JStr([Get(trek, "image_urls").value.s[0]]))
  {
    if trek == JNull then None
    else
      var featured := Get(trek, "featured_image_url");
      var urls := Get(trek, "image_urls");
      if TruthyOpt(featured) then featured
      else if TruthyOpt(urls) && Length(urls.value).Some? && Length(urls.value).value > 0 then
        Some(First(urls.value))
      else Some(JNull)
  }

  const FeaturedEasy: string := "bg-green-100 text-green-800"
  const FeaturedChallenging: string := "bg-amber-100 text-amber-800"
  const FeaturedStrenuous: string := "bg-red-100 text-red-800"
  const FeaturedOther: string := "bg-gray-100 text-gray-800"

  /** `getDifficultyColor` of the featured trek cards, which differs from the
      listing pages' one. */
  function FeaturedColor(difficulty: string): string
  {
    var lower := ToLower(difficulty);
    if Contains(lower, "easy") || Contains(lower, "moderate") then FeaturedEasy
    else if Contains(lower, "challenging") || Contains(lower, "difficult") then FeaturedChallenging
    else if Contains(lower, "strenuous") || Contains(lower, "hard") then FeaturedStrenuous
    else FeaturedOther
  }

  /** The featured cards' colour is chosen by the first group of words that
      occurs in the lower-cased difficulty. */
  lemma FeaturedColorSpec(difficulty: string)
    ensures var lower := ToLower(difficulty);
      (FeaturedColor(difficulty) == FeaturedEasy <==> Contains(lower, "easy") || Contains(lower, "moderate")) &&
      (FeaturedColor(difficulty) == FeaturedChallenging <==>
        !Contains(lower, "easy") && !Contains(lower, "moderate") &&
        (Contains(lower, "challenging") || Contains(lower, "difficult"))) &&
      (FeaturedColor(difficulty) == FeaturedStrenuous <==>
        !Contains(lower, "easy") && !Contains(lower, "moderate") &&
        !Contains(lower, "challenging") && !Contains(lower, "difficult") &&
        (Contains(lower, "strenuous") || Contains(lower, "hard")))
  {
  }

  /** The two classifiers disagree on a moderate trek: the home page shows
      it green, the listing pages yellow; a "moderate-hard" difficulty is
      green on the home page, not red. */
  lemma ClassifiersDisagreeOnModerate(difficulty: string)
    requires Contains(ToLower(difficulty), "moderate") && !Contains(ToLower(difficulty), "easy")
    ensures FeaturedColor(difficulty) == FeaturedEasy
    ensures ListingColor(difficulty) == ModerateBadge
  {
  }

  // ---- Activity cards

  const DefaultDescription: string :=
    "Experience breathtaking views and exhilarating moments in the stunning landscapes of Nepal."

  /** The activity card's text: the description when truthy, otherwise the
      fixed sentence, so a card never shows an empty text. */
  function CardDescription(description: Option<Json>): (r: Json)
    ensures Truthy(r)
    ensures TruthyOpt(description) ==> r == description.value
    ensures !TruthyOpt(description) ==> r == JStr(DefaultDescription)
  {
    OrElse(description, JStr(DefaultDescription))
  }

  // ---- Stars

  /** `[...Array(Math.floor(rating))]`: the number of stars a testimonial
      draws. `Array(n)` throws a RangeError (`None`) for a negative `n` or
      one of 2^32 or more. */
  function TestimonialStars(rating: real): (r: Option<nat>)
    ensures r.None? <==> rating < 0.0 || rating >= 4294967296.0
    ensures r.Some? ==> r.value as real <= rating < r.value as real + 1.0
  {
    var f := rating.Floor;
    if f < 0 || f >= 0x1_0000_0000 then None else Some(f as nat)
  }

  /** The reviews page's five stars: star `k` (1 to 5, at index `k - 1`) is
      filled exactly when `k <= rating`. */
  function StarRow(rating: real): (r: seq<bool>)
    ensures |r| == 5
    ensures forall i :: 0 <= i < 5 ==> (r[i] <==> (i + 1) as real <= rating)
  {
    seq(5, i requires 0 <= i < 5 => (i + 1) as real <= rating)
  }

  /** The filled stars come first: once a star is empty, so is every star
      after it. */
  lemma FilledStarsArePrefix(rating: real)
    ensures forall i, j :: 0 <= i < j < 5 && StarRow(rating)[j] ==> StarRow(rating)[i]
  {
    var r := StarRow(rating);
    forall i, j | 0 <= i < j < 5 && r[j] ensures r[i] {
      assert (j + 1) as real <= rating;
      assert r[i] <==> (i + 1) as real <= rating;
    }
  }
}
