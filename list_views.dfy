/** The trek and activity listing pages: the effect that filters a copy of
    the loaded list and sorts it in place, the category list built from a
    `Set`, and the difficulty badge colour. Records carry the fields these
    pieces read. */
module ListViews {

  import opened JsValues
  import opened JsStrings
  import opened Seqs

  datatype Trek = Trek(id: int, dataType: string, price: real, duration: string, difficulty: string)

  datatype Activity = Activity(id: int, category: string, price: real, duration: string, difficulty: string)

  /** The three values of the sort selector. */
  datatype SortOrder = PriceLow | PriceHigh | Duration

  /** `parseInt(duration) || 0`: a duration without a leading number (NaN)
      counts as 0, as does one that reads as 0. */
  function DurationKey(duration: string): int
  {
    match ParseInt(duration)
    case None => 0
    case Some(n) => n
  }

  /** A duration written as a number, with or without a unit after it
      (`"5 days"`), sorts by that number; one with no digit at all counts
      as 0 days. */
  lemma DurationKeySpec(n: int, unit: string, s: string)
    requires unit == "" || !IsDigit(unit[0])
    requires forall i :: 0 <= i < |s| ==> !IsDigit(s[i])
    ensures DurationKey(IntToString(n) + unit) == n
    ensures DurationKey(s) == 0
  {
    ParseIntOfIntToString(n, unit);
    ParseIntWithoutDigits(s);
  }

  /** The comparator of each order as a key that is sorted ascending:
      `b.price - a.price` sorts by the negated price. */
  function SortKey(order: SortOrder, price: real, duration: string): real
  {
    match order
    case PriceLow => price
    case PriceHigh => -price
    case Duration => DurationKey(duration) as real
  }

  /** `key` is non-decreasing along `s`. */
  predicate SortedBy<T>(s: seq<T>, key: T -> real)
  {
    forall i, j :: 0 <= i < j < |s| ==> key(s[i]) <= key(s[j])
  }

  /** The inner loop's invariant: the first `hi + 1` elements are in order,
      except that the element at `j`, which is moving left, may be smaller
      than those before it. */
  ghost predicate SortedExcept<T>(s: seq<T>, key: T -> real, hi: nat, j: nat)
    requires hi < |s|
  {
    forall p, q :: 0 <= p < q <= hi && q != j ==> key(s[p]) <= key(s[q])
  }

  lemma StartInner<T>(s: seq<T>, key: T -> real, i: nat)
    requires i < |s| && SortedBy(s[..i], key)
    ensures SortedExcept(s, key, i, i)
  {
    forall p, q | 0 <= p < q <= i && q != i ensures key(s[p]) <= key(s[q]) {
      assert s[..i][p] == s[p] && s[..i][q] == s[q];
    }
  }

  /** Swapping the moving element with a larger left neighbour moves the
      exception one place left. */
  lemma SwapStep<T>(s: seq<T>, key: T -> real, i: nat, j: nat)
    requires 0 < j <= i < |s|
    requires SortedExcept(s, key, i, j)
    requires key(s[j - 1]) > key(s[j])
    ensures SortedExcept(s[j - 1 := s[j]][j := s[j - 1]], key, i, j - 1)
  {
    var t := s[j - 1 := s[j]][j := s[j - 1]];
    forall p, q | 0 <= p < q <= i && q != j - 1 ensures key(t[p]) <= key(t[q]) {
      if q == j {
        if p < j - 1 {
          assert key(s[p]) <= key(s[j - 1]);
        }
      } else if p == j - 1 {
        assert key(s[j]) <= key(s[q]);
      } else if p == j {
        assert key(s[j - 1]) <= key(s[q]);
      }
    }
  }

  /** Once the moving element has no larger left neighbour, the first
      `i + 1` elements are in order. */
  lemma EndInner<T>(s: seq<T>, key: T -> real, i: nat, j: nat)
    requires j <= i < |s|
    requires SortedExcept(s, key, i, j)
    requires j == 0 || key(s[j - 1]) <= key(s[j])
    ensures SortedBy(s[..i + 1], key)
  {
    var t := s[..i + 1];
    forall p, q | 0 <= p < q < |t| ensures key(t[p]) <= key(t[q]) {
      assert t[p] == s[p] && t[q] == s[q];
      if q == j {
        if p < j - 1 {
          assert key(s[p]) <= key(s[j - 1]);
        }
      }
    }
  }

  /** One pass of the insertion: the element at `i` moves left past every
      larger neighbour, after which the first `i + 1` elements are in
      order. */
  method InsertAt<T>(a: array<T>, key: T -> real, i: nat)
    requires i < a.Length && SortedBy(a[..i], key)
    modifies a
    ensures SortedBy(a[..i + 1], key)
    ensures multiset(a[..]) == multiset(old(a[..]))
  {
    StartInner(a[..], key, i);
    var j := i;
    while j > 0 && key(a[j - 1]) > key(a[j])
      invariant 0 <= j <= i
      invariant SortedExcept(a[..], key, i, j)
      invariant multiset(a[..]) == multiset(old(a[..]))
    {
      ghost var s := a[..];
      SwapStep(s, key, i, j);
      a[j - 1], a[j] := a[j], a[j - 1];
      assert a[..] == s[j - 1 := s[j]][j := s[j - 1]];
      j := j - 1;
    }
    EndInner(a[..], key, i, j);
  }

  /** `a.sort(compare)` for a comparator `key(x) - key(y)`, as an insertion
      sort by adjacent swaps. */
  method SortByKey<T>(a: array<T>, key: T -> real)
    modifies a
    ensures SortedBy(a[..], key)
    ensures multiset(a[..]) == multiset(old(a[..]))
  {
    var i := 0;
    while i < a.Length
      invariant 0 <= i <= a.Length
      invariant SortedBy(a[..i], key)
      invariant multiset(a[..]) == multiset(old(a[..]))
    {
      InsertAt(a, key, i);
      i := i + 1;
    }
    assert a[..] == a[..a.Length];
  }

  /** Copies `s` into a fresh array, sorts it and reads it back. */
  method SortedCopy<T>(s: seq<T>, key: T -> real) returns (r: seq<T>)
    ensures SortedBy(r, key)
    ensures multiset(r) == multiset(s)
  {
    var a := new T[|s|](i requires 0 <= i < |s| => s[i]);
    assert a[..] == s;
    SortByKey(a, key);
    r := a[..];
  }

  /** The trek page's filter: every trek under `'all'`, otherwise those whose
      `data_type` is the selected one. */
  function TrekFilter(treks: seq<Trek>, filterType: string): seq<Trek>
  {
    if filterType == "all" then treks else Filter(treks, (t: Trek) => t.dataType == filterType)
  }

  /** The trek page's filter-and-sort effect. */
  method TrekView(treks: seq<Trek>, filterType: string, order: SortOrder) returns (r: seq<Trek>)
    ensures filterType == "all" ==> multiset(r) == multiset(treks)
    ensures filterType != "all" ==>
      forall t :: multiset(r)[t] == if t.dataType == filterType then multiset(treks)[t] else 0
    ensures order == PriceLow ==> forall i, j :: 0 <= i < j < |r| ==> r[i].price <= r[j].price
    ensures order == PriceHigh ==> forall i, j :: 0 <= i < j < |r| ==> r[i].price >= r[j].price
    ensures order == Duration ==>
      forall i, j :: 0 <= i < j < |r| ==> DurationKey(r[i].duration) <= DurationKey(r[j].duration)
  {
    var filtered := TrekFilter(treks, filterType);
    var key := (t: Trek) => SortKey(order, t.price, t.duration);
    r := SortedCopy(filtered, key);
    assert forall i, j :: 0 <= i < j < |r| ==> key(r[i]) <= key(r[j]);
  }

  /** The activity page's filter: every activity under `'all'`, otherwise
      those of the selected category. */
  function ActivityFilter(activities: seq<Activity>, category: string): seq<Activity>
  {
    if category == "all" then activities else Filter(activities, (a: Activity) => a.category == category)
  }

  /** The activity page's filter-and-sort effect. */
  method ActivityView(activities: seq<Activity>, category: string, order: SortOrder) returns (r: seq<Activity>)
    ensures category == "all" ==> multiset(r) == multiset(activities)
    ensures category != "all" ==>
      forall a :: multiset(r)[a] == if a.category == category then multiset(activities)[a] else 0
    ensures order == PriceLow ==> forall i, j :: 0 <= i < j < |r| ==> r[i].price <= r[j].price
    ensures order == PriceHigh ==> forall i, j :: 0 <= i < j < |r| ==> r[i].price >= r[j].price
    ensures order == Duration ==>
      forall i, j :: 0 <= i < j < |r| ==> DurationKey(r[i].duration) <= DurationKey(r[j].duration)
  {
    var filtered := ActivityFilter(activities, category);
    var key := (a: Activity) => SortKey(order, a.price, a.duration);
    r := SortedCopy(filtered, key);
    assert forall i, j :: 0 <= i < j < |r| ==> key(r[i]) <= key(r[j]);
  }

  /** A category literally named `'all'` cannot be selected on its own:
      choosing it shows every activity. */
  lemma AllCategoryShowsEverything(activities: seq<Activity>)
    ensures ActivityFilter(activities, "all") == activities
  {
  }

  // ---- Categories

  /** No value occurs twice in `s`. */
  predicate NoDuplicates<T(==)>(s: seq<T>)
  {
    forall i, j :: 0 <= i < j < |s| ==> s[i] != s[j]
  }

  /** The index of the first `x` in `s`. */
  function FirstIndex(s: seq<string>, x: string): (k: nat)
    requires x in s
    ensures k < |s| && s[k] == x
    ensures forall i :: 0 <= i < k ==> s[i] != x
  {
    if s[0] == x then 0 else 1 + FirstIndex(s[1..], x)
  }

  /** `[...new Set(s)]`: the distinct values of `s`, each where it first
      occurs. */
  function Distinct(s: seq<string>): (r: seq<string>)
    ensures forall x :: x in r <==> x in s
    ensures NoDuplicates(r)
  {
    if s == [] then []
    else
      var init := s[..|s| - 1];
      var rest := Distinct(init);
      assert forall x :: x in s <==> x in init || x == s[|s| - 1];
      if s[|s| - 1] in rest then rest else rest + [s[|s| - 1]]
  }

  /** The first occurrence of a value of a prefix is its first occurrence in
      the whole sequence. */
  lemma {:induction false} FirstIndexOfPrefix(s: seq<string>, n: nat, x: string)
    requires n <= |s| && x in s[..n]
    ensures FirstIndex(s[..n], x) == FirstIndex(s, x)
  {
    var k := FirstIndex(s[..n], x);
    var m := FirstIndex(s, x);
    assert s[..n][k] == s[k];
  }

  /** `Distinct` lists values in the order of their first occurrences. */
  lemma {:induction false} DistinctFirstOccurrenceOrder(s: seq<string>)
    ensures forall i, j :: 0 <= i < j < |Distinct(s)| ==>
      FirstIndex(s, Distinct(s)[i]) < FirstIndex(s, Distinct(s)[j])
  {
    if s != [] {
      var n := |s| - 1;
      var init := s[..n];
      var last := s[n];
      DistinctFirstOccurrenceOrder(init);
      var rest := Distinct(init);
      forall x | x in rest ensures FirstIndex(s, x) == FirstIndex(init, x) < n {
        FirstIndexOfPrefix(s, n, x);
      }
      var r := Distinct(s);
      if last in rest {
        assert r == rest;
      } else {
        assert r == rest + [last];
        assert last !in init;
        assert FirstIndex(s, last) == n;
        forall i, j | 0 <= i < j < |r|
          ensures FirstIndex(s, r[i]) < FirstIndex(s, r[j])
        {
          assert r[i] == rest[i] && r[i] in rest;
          if j < |rest| {
            assert r[j] == rest[j];
          } else {
            assert r[j] == last;
          }
        }
      }
    }
  }

  /** The category list of the activity page. */
  function Categories(activities: seq<Activity>): (r: seq<string>)
    ensures NoDuplicates(r)
    ensures forall c :: c in r <==> exists i :: 0 <= i < |activities| && activities[i].category == c
  {
    var cs := seq(|activities|, i requires 0 <= i < |activities| => activities[i].category);
    assert forall c :: c in cs ==> exists i :: 0 <= i < |activities| && activities[i].category == c;
    assert forall i :: 0 <= i < |activities| ==> activities[i].category == cs[i];
    Distinct(cs)
  }

  // ---- Difficulty badge

  const EasyBadge: string := "bg-green-100 text-green-700"
  const ModerateBadge: string := "bg-yellow-100 text-yellow-700"
  const HardBadge: string := "bg-red-100 text-red-700"
  const OtherBadge: string := "bg-gray-100 text-gray-700"

  /** `getDifficultyColor` of the trek and activity pages. */
  function ListingColor(difficulty: string): string
  {
    var lower := ToLower(difficulty);
    if Contains(lower, "easy") then EasyBadge
    else if Contains(lower, "moderate") then ModerateBadge
    else if Contains(lower, "challenging") || Contains(lower, "hard") then HardBadge
    else OtherBadge
  }

  /** Each colour is chosen exactly when its word is the first of the list
      to occur in the lower-cased difficulty. */
  lemma ListingColorSpec(difficulty: string)
    ensures var lower := ToLower(difficulty);
      (ListingColor(difficulty) == EasyBadge <==> Contains(lower, "easy")) &&
      (ListingColor(difficulty) == ModerateBadge <==> !Contains(lower, "easy") && Contains(lower, "moderate")) &&
      (ListingColor(difficulty) == HardBadge <==>
        !Contains(lower, "easy") && !Contains(lower, "moderate") &&
        (Contains(lower, "challenging") || Contains(lower, "hard"))) &&
      (ListingColor(difficulty) == OtherBadge <==>
        !Contains(lower, "easy") && !Contains(lower, "moderate") &&
        !Contains(lower, "challenging") && !Contains(lower, "hard"))
  {
  }

  lemma LowerCharIdempotent(c: char)
    ensures LowerChar(LowerChar(c)) == LowerChar(c)
  {
  }

  /** Lower-casing twice is lower-casing once. */
  lemma ToLowerIdempotent(s: string)
    ensures ToLower(ToLower(s)) == ToLower(s)
  {
    forall i | 0 <= i < |s| ensures ToLower(ToLower(s))[i] == ToLower(s)[i] {
      LowerCharIdempotent(s[i]);
    }
  }

  /** The badge ignores letter case: a difficulty and its lower-cased form
      get the same colour. */
  lemma ListingColorIgnoresCase(difficulty: string)
    ensures ListingColor(ToLower(difficulty)) == ListingColor(difficulty)
  {
    ToLowerIdempotent(difficulty);
  }

  /** A difficulty that names both "moderate" and "hard" but not "easy"
      is shown as moderate: the first match wins. */
  lemma ModerateBeforeHard(difficulty: string)
    requires Contains(ToLower(difficulty), "moderate") && Contains(ToLower(difficulty), "hard")
    requires !Contains(ToLower(difficulty), "easy")
    ensures ListingColor(difficulty) == ModerateBadge
  {
  }
}
