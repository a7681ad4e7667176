/** The three ways the site picks the item list out of a list response
    whose shape it does not know: the public pages' chain, the dashboard's
    trek chain (which looks inside a `success` response first) and the
    dashboard's blog and review chain. Each is parameterised by the
    collection key (`treks`, `activities`, `blogs`, `reviews`). */
module Normalize {

  import opened JsValues

  /** `a || b || []`. */
  function FirstTruthy(a: Option<Json>, b: Option<Json>): Json
  {
    OrElse(Or(a, b), EmptyArray)
  }

  /** The public pages (treks, activities, reviews, blog, and the three
      home-page components): a bare array, else an array under `data`,
      else, when `data` is an object, `data.<key> || data.items || []`,
      else `[]`. A truthy non-array under `data.<key>` is passed through;
      keys at the top level of the response are never consulted. */
  function PublicList(response: Json, key: string): (r: Json)
    ensures response.JArr? ==> r == response
    ensures !response.JObj? && !response.JArr? ==> r == EmptyArray
    ensures response.JObj? && IsArray(Get(response, "data")) ==> r == Get(response, "data").value
    ensures response.JObj? && !IsObjectLike(Get(response, "data")) ==> r == EmptyArray
    ensures response.JObj? && Get(response, "data").Some? && Get(response, "data").value.JObj? ==>
      r == FirstTruthy(Get(Get(response, "data").value, key), Get(Get(response, "data").value, "items"))
    ensures !r.JArr? ==>
              (Truthy(r) && response.JObj? && Get(response, "data").Some? &&
               Get(response, "data").value.JObj? &&
               (Some(r) == Get(Get(response, "data").value, key) ||
                Some(r) == Get(Get(response, "data").value, "items")))
  {
    if response.JArr? then response
    else if Truthy(response) && IsArray(Get(response, "data")) then Get(response, "data").value
    else if Truthy(response) && TruthyOpt(Get(response, "data")) && IsObjectLike(Get(response, "data"))
    then FirstTruthy(Get(Get(response, "data").value, key), Get(Get(response, "data").value, "items"))
    else EmptyArray
  }

  /** The top-level `<key> || items || []` fallback the dashboard uses for
      an object response. */
  function TopLevel(data: Json, key: string): Json
  {
    FirstTruthy(Get(data, key), Get(data, "items"))
  }

  /** The dashboard's blog and review tabs: a bare array, else an array
      under `data`, else, for an object, its own `<key> || items || []`.
      The `data &&` guards keep it from ever reading a property of `null`. */
  function DashboardList(data: Json, key: string): (r: Json)
    ensures data.JArr? ==> r == data
    ensures !data.JObj? && !data.JArr? ==> r == EmptyArray
    ensures data.JObj? && IsArray(Get(data, "data")) ==> r == Get(data, "data").value
    ensures data.JObj? && !IsArray(Get(data, "data")) ==> r == TopLevel(data, key)
  {
    if data.JArr? then data
    else if Truthy(data) && IsArray(Get(data, "data")) then Get(data, "data").value
    else if Truthy(data) && IsObjectLike(Some(data)) then TopLevel(data, key)
    else EmptyArray
  }

  /** The dashboard's trek tab and its trek statistics: first the array at
      `data.data.<key>` of a `success` response, then the blog/review chain.
      The first test reads `data.success` unguarded, so a `null` body
      throws a TypeError (`None`). */
  function DashboardTreks(data: Json, key: string): (r: Option<Json>)
    ensures r.None? <==> data == JNull
    ensures (data != JNull && TruthyOpt(Get(data, "success")) && TruthyOpt(Get(data, "data")) &&
             IsArray(Get(Get(data, "data").value, key))) ==>
      r == Some(Get(Get(data, "data").value, key).value)
    ensures (data != JNull && !(TruthyOpt(Get(data, "success")) && TruthyOpt(Get(data, "data")) &&
             IsArray(Get(Get(data, "data").value, key)))) ==>
      r == Some(DashboardList(data, key))
  {
    if data == JNull then None
    else if TruthyOpt(Get(data, "success")) && TruthyOpt(Get(data, "data")) &&
            IsArray(Get(Get(data, "data").value, key))
    then Some(Get(Get(data, "data").value, key).value)
    else if data.JArr? then Some(data)
    else if Truthy(data) && IsArray(Get(data, "data")) then Some(Get(data, "data").value)
    else if Truthy(data) && IsObjectLike(Some(data)) then Some(TopLevel(data, key))
    else Some(EmptyArray)
  }

  /** The blog and review chains of the dashboard's statistics: like the
      tabs', but preceded by `data.success && data.data &&
      Array.isArray(data.data)`, which reads a property of `null` first. */
  function StatsList(data: Json, key: string): Option<Json>
  {
    if data == JNull then None
    else if TruthyOpt(Get(data, "success")) && TruthyOpt(Get(data, "data")) && IsArray(Get(data, "data"))
    then Some(Get(data, "data").value)
    else if data.JArr? then Some(data)
    else if Truthy(data) && IsArray(Get(data, "data")) then Some(Get(data, "data").value)
    else if Truthy(data) && IsObjectLike(Some(data)) then Some(TopLevel(data, key))
    else Some(EmptyArray)
  }

  /** The statistics' extra first branch changes nothing but the `null`
      case: it returns what the tabs' chain would return anyway. */
  lemma StatsListIsDashboardList(data: Json, key: string)
    ensures StatsList(data, key) == if data == JNull then None else Some(DashboardList(data, key))
  {
  }

  /** The four response shapes, holding the same items `xs`. */
  function BareShape(xs: seq<Json>): Json { JArr(xs) }
  function DataShape(xs: seq<Json>): Json { JObj(map["data" := JArr(xs)]) }
  function NestedShape(key: string, xs: seq<Json>, success: bool): Json
  {
    JObj(map["success" := JBool(success), "data" := JObj(map[key := JArr(xs), "pagination" := JObj(map[])])])
  }
  function TopLevelShape(key: string, xs: seq<Json>): Json { JObj(map[key := JArr(xs)]) }

  /** On the public pages the bare, `data` and nested shapes give the
      items, whether or not `success` is set; a top-level `<key>` gives
      `[]`. */
  lemma PublicShapes(key: string, xs: seq<Json>, success: bool)
    requires key != "data" && key != "success" && key != "items" && key != "pagination"
    ensures PublicList(BareShape(xs), key) == JArr(xs)
    ensures PublicList(DataShape(xs), key) == JArr(xs)
    ensures PublicList(NestedShape(key, xs, success), key) == JArr(xs)
    ensures PublicList(TopLevelShape(key, xs), key) == EmptyArray
  {
    var inner := map[key := JArr(xs), "pagination" := JObj(map[])];
    assert Get(NestedShape(key, xs, success), "data") == Some(JObj(inner));
    assert Get(JObj(inner), key) == Some(JArr(xs));
  }

  /** The dashboard's trek chain takes the nested shape only under a
      truthy `success`: `{ data: { treks: [...] } }` without it falls
      through to the top-level `treks || items || []`, which is `[]`. The
      top-level shape, ignored by the public pages, works here. */
  lemma DashboardTrekShapes(key: string, xs: seq<Json>)
    requires key != "data" && key != "success" && key != "items" && key != "pagination"
    ensures DashboardTreks(BareShape(xs), key) == Some(JArr(xs))
    ensures DashboardTreks(DataShape(xs), key) == Some(JArr(xs))
    ensures DashboardTreks(NestedShape(key, xs, true), key) == Some(JArr(xs))
    ensures DashboardTreks(NestedShape(key, xs, false), key) == Some(EmptyArray)
    ensures DashboardTreks(TopLevelShape(key, xs), key) == Some(JArr(xs))
  {
    var inner := map[key := JArr(xs), "pagination" := JObj(map[])];
    assert Get(NestedShape(key, xs, true), "data") == Some(JObj(inner));
    assert Get(JObj(inner), key) == Some(JArr(xs));
    var without := NestedShape(key, xs, false);
    assert Get(without, key) == None && Get(without, "items") == None;
  }

  /** The dashboard's blog and review chain never looks inside `data`
      unless `data` is itself the array. */
  lemma DashboardListShapes(key: string, xs: seq<Json>, success: bool)
    requires key != "data" && key != "success" && key != "items" && key != "pagination"
    ensures DashboardList(BareShape(xs), key) == JArr(xs)
    ensures DashboardList(DataShape(xs), key) == JArr(xs)
    ensures DashboardList(TopLevelShape(key, xs), key) == JArr(xs)
    ensures DashboardList(NestedShape(key, xs, success), key) == EmptyArray
  {
    var nested := NestedShape(key, xs, success);
    assert Get(nested, key) == None && Get(nested, "items") == None;
  }

  /** None of the chains promises an array: a truthy string under `<key>`
      comes through as it is. */
  lemma NonArrayPassesThrough(key: string)
    requires key != "items"
    ensures PublicList(JObj(map["data" := JObj(map[key := JStr("x")])]), key) == JStr("x")
    ensures DashboardList(JObj(map[key := JNum(1.0)]), key) == JNum(1.0)
  {
    var data := JObj(map[key := JStr("x")]);
    assert Get(JObj(map["data" := data]), "data") == Some(data);
    assert Get(data, key) == Some(JStr("x"));
  }

  /** An empty `<key>` array is truthy, so it wins over `items`. */
  lemma EmptyKeyArrayWins(key: string, items: seq<Json>)
    requires key != "items"
    ensures PublicList(JObj(map["data" := JObj(map[key := JArr([]), "items" := JArr(items)])]), key) == EmptyArray
  {
    var data := JObj(map[key := JArr([]), "items" := JArr(items)]);
    assert Get(JObj(map["data" := data]), "data") == Some(data);
    assert Get(data, key) == Some(JArr([]));
  }
}
