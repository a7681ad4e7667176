/** The admin dashboard's data: the lists of its trek, blog and review tabs,
    the statistics of its overview, and the review cards' badge, button,
    text and stars. */
module Dashboard {

  import opened JsValues
  import opened Api
  import opened Normalize
  import opened Seqs
  import Pages

  /** The trek tab: an error status empties the list without reading the
      body; a body that is not JSON, a `null` body (whose `success` cannot
      be read) and a network failure are caught and empty it too. */
  function TreksTab(fetched: FetchResult): Json
  {
    match fetched
    case NetworkFailure => EmptyArray
    case Response(ok, body) =>
      if !ok || body.None? then EmptyArray
      else
        match DashboardTreks(body.value, "treks")
        case None => EmptyArray
        case Some(list) => list
  }

  /** The blog and review tabs read the body whatever the status. */
  function ListTab(fetched: FetchResult, key: string): Json
  {
    match fetched
    case NetworkFailure => EmptyArray
    case Response(_, body) => if body.None? then EmptyArray else DashboardList(body.value, key)
  }

  /** The trek tab takes the nested shape only from a `success` response and
      ignores an error status's body; the blog tab shows the body of an
      error status as if it were a list. */
  lemma TabsAndStatus(xs: seq<Json>)
    ensures TreksTab(Response(true, Some(NestedShape("treks", xs, true)))) == JArr(xs)
    ensures TreksTab(Response(true, Some(NestedShape("treks", xs, false)))) == EmptyArray
    ensures TreksTab(Response(false, Some(JArr(xs)))) == EmptyArray
    ensures ListTab(Response(false, Some(JArr(xs))), "blogs") == JArr(xs)
    ensures TreksTab(Response(true, Some(JNull))) == EmptyArray
  {
    DashboardTrekShapes("treks", xs);
  }

  /** The public treks page and the dashboard's trek tab disagree on two
      shapes: a nested list without `success`, which only the page shows,
      and a top-level `treks`, which only the tab shows. */
  lemma PageAndTabDisagree(xs: seq<Json>)
    requires xs != []
    ensures Pages.TreksPageList(Response(true, Some(NestedShape("treks", xs, false)))) == JArr(xs)
    ensures TreksTab(Response(true, Some(NestedShape("treks", xs, false)))) == EmptyArray
    ensures Pages.TreksPageList(Response(true, Some(TopLevelShape("treks", xs)))) == EmptyArray
    ensures TreksTab(Response(true, Some(TopLevelShape("treks", xs)))) == JArr(xs)
  {
    Pages.TreksPageShapes(xs, false);
    DashboardTrekShapes("treks", xs);
  }

  // ---- Review status

  /** `status === true || status === 1`. */
  predicate IsApproved(review: Json)
  {
    Get(review, "status") == Some(JBool(true)) || Get(review, "status") == Some(JNum(1.0))
  }

  /** `status === false || status === 0`. */
  predicate IsPending(review: Json)
  {
    Get(review, "status") == Some(JBool(false)) || Get(review, "status") == Some(JNum(0.0))
  }

  /** The badge of a review card. */
  function Badge(review: Json): string
  {
    if IsApproved(review) then "Approved" else "Pending"
  }

  /** Whether a review card shows the Approve button. */
  predicate ShowsApprove(review: Json)
  {
    IsPending(review)
  }

  /** No review is both approved and pending; every review with an Approve
      button is badged "Pending". The converse fails: a review whose status
      is missing or `null` is badged "Pending" but cannot be approved. */
  lemma StatusPredicates(review: Json)
    ensures !(IsApproved(review) && IsPending(review))
    ensures ShowsApprove(review) ==> Badge(review) == "Pending"
    ensures Badge(JObj(map[])) == "Pending" && !ShowsApprove(JObj(map[]))
    ensures Badge(JObj(map["status" := JNull])) == "Pending" && !ShowsApprove(JObj(map["status" := JNull]))
  {
    assert Get(JObj(map["status" := JNull]), "status") == Some(JNull);
  }

  /** The text of a review card: `review || comment || 'No review text'`,
      never empty. */
  function ReviewText(review: Json): (r: Json)
    ensures Truthy(r)
    ensures TruthyOpt(Get(review, "review")) ==> r == Get(review, "review").value
    ensures !TruthyOpt(Get(review, "review")) && TruthyOpt(Get(review, "comment")) ==> r == Get(review, "comment").value
    ensures !TruthyOpt(Get(review, "review")) && !TruthyOpt(Get(review, "comment")) ==> r == JStr("No review text")
  {
    OrElse(Or(Get(review, "review"), Get(review, "comment")), JStr("No review text"))
  }

  /** The dashboard's five stars: star `i` (0 to 4) is filled when
      `i < Math.floor(rating)`. */
  function DashboardStars(rating: real): (r: seq<bool>)
    ensures |r| == 5
  {
    seq(5, i requires 0 <= i < 5 => i < rating.Floor)
  }

  /** The dashboard and the public reviews page draw the same stars for
      every rating, although one compares with `Math.floor(rating)` and the
      other compares with the rating itself. */
  lemma StarsAgree(rating: real)
    ensures DashboardStars(rating) == Pages.StarRow(rating)
  {
    var d := DashboardStars(rating);
    var p := Pages.StarRow(rating);
    forall i | 0 <= i < 5 ensures d[i] == p[i] {
      assert d[i] <==> i < rating.Floor;
      assert p[i] <==> (i + 1) as real <= rating;
    }
  }

  // ---- Statistics

  /** The counters of the overview (the average rating is left out). */
  datatype Stats = Stats(treks: nat, blogs: nat, reviews: nat, approved: nat, pending: nat,
                         featured: nat, published: nat)

  /** `t.is_featured` is truthy. */
  predicate IsFeatured(trek: Json)
  {
    TruthyOpt(Get(trek, "is_featured"))
  }

  /** `b.is_active` is truthy. */
  predicate IsActive(blog: Json)
  {
    TruthyOpt(Get(blog, "is_active"))
  }

  /** The statistics call reads each body whatever its status. */
  function StatsBody(fetched: FetchResult): Option<Json>
  {
    match fetched
    case NetworkFailure => None
    case Response(_, body) => body
  }

  /** A list the counters can run over: an array (`filter` exists) of
      non-`null` items (each item's property can be read). */
  predicate Countable(list: Option<Json>)
  {
    list.Some? && list.value.JArr? && forall i :: 0 <= i < |list.value.items| ==> list.value.items[i] != JNull
  }

  /** `fetchStats`: `None` when anything throws, which leaves the previous
      statistics on screen. */
  function FetchStats(treksRes: FetchResult, blogsRes: FetchResult, reviewsRes: FetchResult): (r: Option<Stats>)
    ensures r.Some? ==> r.value.approved + r.value.pending <= r.value.reviews
    ensures r.Some? ==> r.value.featured <= r.value.treks && r.value.published <= r.value.blogs
    ensures r.Some? <==>
      StatsBody(treksRes).Some? && StatsBody(blogsRes).Some? && StatsBody(reviewsRes).Some? &&
      StatsBody(treksRes).value != JNull && StatsBody(blogsRes).value != JNull && StatsBody(reviewsRes).value != JNull &&
      Countable(DashboardTreks(StatsBody(treksRes).value, "treks")) &&
      Countable(StatsList(StatsBody(blogsRes).value, "blogs")) &&
      Countable(StatsList(StatsBody(reviewsRes).value, "reviews"))
    ensures r.Some? ==>
      var ts := DashboardTreks(StatsBody(treksRes).value, "treks").value.items;
      var bs := StatsList(StatsBody(blogsRes).value, "blogs").value.items;
      var rs := StatsList(StatsBody(reviewsRes).value, "reviews").value.items;
      r.value.treks == |ts| && r.value.blogs == |bs| && r.value.reviews == |rs| &&
      r.value.approved == |Filter(rs, IsApproved)| && r.value.pending == |Filter(rs, IsPending)| &&
      r.value.featured == |Filter(ts, IsFeatured)| && r.value.published == |Filter(bs, IsActive)|
  {
    var tb := StatsBody(treksRes);
    var bb := StatsBody(blogsRes);
    var rb := StatsBody(reviewsRes);
    if tb.None? || bb.None? || rb.None? || tb.value == JNull || bb.value == JNull || rb.value == JNull then None
    else
      var treks := DashboardTreks(tb.value, "treks");
      var blogs := StatsList(bb.value, "blogs");
      var reviews := StatsList(rb.value, "reviews");
      if !Countable(treks) || !Countable(blogs) || !Countable(reviews) then None
      else
        var ts := treks.value.items;
        var bs := blogs.value.items;
        var rs := reviews.value.items;
        StatusPredicatesDisjoint(rs);
        DisjointCountsBound(rs, IsApproved, IsPending);
        Some(Stats(|ts|, |bs|, |rs|, Count(rs, IsApproved), Count(rs, IsPending),
                   Count(ts, IsFeatured), Count(bs, IsActive)))
  }

  lemma StatusPredicatesDisjoint(rs: seq<Json>)
    ensures forall i :: 0 <= i < |rs| ==> !(IsApproved(rs[i]) && IsPending(rs[i]))
  {
  }

  /** The approved counter counts exactly the reviews badged "Approved",
      and the pending counter exactly those with an Approve button. */
  lemma CountersMatchCards(rs: seq<Json>)
    ensures forall x :: x in Filter(rs, IsApproved) <==> x in rs && Badge(x) == "Approved"
    ensures forall x :: x in Filter(rs, IsPending) <==> x in rs && ShowsApprove(x)
  {
    forall x ensures x in Filter(rs, IsApproved) <==> x in rs && Badge(x) == "Approved" {
      assert x in Filter(rs, IsApproved) <==> multiset(Filter(rs, IsApproved))[x] > 0;
      assert x in rs <==> multiset(rs)[x] > 0;
    }
    forall x ensures x in Filter(rs, IsPending) <==> x in rs && ShowsApprove(x) {
      assert x in Filter(rs, IsPending) <==> multiset(Filter(rs, IsPending))[x] > 0;
      assert x in rs <==> multiset(rs)[x] > 0;
    }
  }
}
