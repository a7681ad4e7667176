/** The REST client of the site (lib/api.ts): query-string builders,
    request URLs, the unwrapping of nested list responses, the fallbacks
    of the review endpoints and the error messages of the mutating calls.
    The network is not modelled: what `fetch` produced is an input. */
module Api {

  import opened JsValues
  import opened JsStrings

  const ApiBaseUrl: string := "http://161.97.167.73:8001/api"

  /** What a call can throw: an `Error` built from a value (its message is
      that value; the string conversion `Error` applies is not modelled),
      the SyntaxError of `response.json()` on a body that is not JSON, and
      the TypeError of `fetch` on a network failure or of a property read
      on `null`. */
  datatype JsError = Error(message: Json) | SyntaxError | TypeError

  /** How an `async` call settles. */
  datatype Outcome<+T> = Ok(value: T) | Thrown(error: JsError)

  /** What `fetch` produced: a network failure, or a response with its
      `ok` flag and its body as `response.json()` reads it (`None` when the
      body is not JSON). */
  datatype FetchResult = NetworkFailure | Response(ok: bool, body: Option<Json>)

  // ---- Query strings

  type Pair = (string, string)

  /** `key=value` pairs joined with `&`, as `URLSearchParams.toString()`
      writes them (the percent-encoding of the values is not modelled). */
  function Serialize(q: seq<Pair>): (r: string)
    ensures q != [] ==> |r| >= |q[0].0| + 1
  {
    if q == [] then ""
    else q[0].0 + "=" + q[0].1 + (if |q| > 1 then "&" + Serialize(q[1..]) else "")
  }

  /** A `URLSearchParams` object: an ordered list of pairs that `append`
      extends. */
  class SearchParams {
    var pairs: seq<Pair>

    constructor ()
      ensures pairs == []
    {
      pairs := [];
    }

    method Append(key: string, value: string)
      modifies this
      ensures pairs == old(pairs) + [(key, value)]
    {
      pairs := pairs + [(key, value)];
    }

    function ToString(): string
      reads this
    {
      Serialize(pairs)
    }
  }

  /** `path` followed by `?query` when the query string is not empty,
      exactly as the template literals of the three list calls build it. */
  function RequestUrl(path: string, q: seq<Pair>): (url: string)
    ensures q == [] ==> url == path
    ensures q != [] ==> url == path + "?" + Serialize(q)
  {
    var qs := Serialize(q);
    if qs != "" then path + "?" + qs else path
  }

  /** The `'1'` / `'0'` encoding of a boolean flag. */
  function FlagValue(b: bool): string
  {
    if b then "1" else "0"
  }

  /** Optional arguments of `getTreks`; an absent `params` is all `None`. */
  datatype TrekParams = TrekParams(dataType: Option<string>, isActive: Option<bool>, isFeatured: Option<bool>)

  /** The pairs `getTreks` appends: `data_type` when truthy, then the two
      flags when they are not `undefined`. */
  function TrekQuery(p: TrekParams): seq<Pair>
  {
    (if p.dataType.Some? && p.dataType.value != "" then [("data_type", p.dataType.value)] else []) +
    (if p.isActive.Some? then [("is_active", FlagValue(p.isActive.value))] else []) +
    (if p.isFeatured.Some? then [("is_featured", FlagValue(p.isFeatured.value))] else [])
  }

  /** The position of a trek query key in the order `getTreks` appends. */
  function TrekKeyRank(key: string): nat
  {
    if key == "data_type" then 0 else if key == "is_active" then 1 else 2
  }

  /** The trek query lists its keys in the order `data_type`, `is_active`,
      `is_featured`, each at most once; a flag appears exactly when it was
      given, encoded as `'1'` or `'0'`; `data_type` appears exactly when it
      is a non-empty string. */
  lemma TrekQuerySpec(p: TrekParams)
    ensures forall i, j :: 0 <= i < j < |TrekQuery(p)| ==>
      TrekKeyRank(TrekQuery(p)[i].0) < TrekKeyRank(TrekQuery(p)[j].0)
    ensures forall v :: ("is_active", v) in TrekQuery(p) <==> p.isActive.Some? && v == FlagValue(p.isActive.value)
    ensures forall v :: ("is_featured", v) in TrekQuery(p) <==> p.isFeatured.Some? && v == FlagValue(p.isFeatured.value)
    ensures forall v :: ("data_type", v) in TrekQuery(p) <==> p.dataType == Some(v) && v != ""
    ensures forall i :: 0 <= i < |TrekQuery(p)| && TrekQuery(p)[i].0 != "data_type" ==>
      TrekQuery(p)[i].1 == "1" || TrekQuery(p)[i].1 == "0"
    ensures forall i :: 0 <= i < |TrekQuery(p)| ==>
      TrekQuery(p)[i].0 == "data_type" || TrekQuery(p)[i].0 == "is_active" || TrekQuery(p)[i].0 == "is_featured"
  {
  }

  /** Optional arguments of `getActivities`. */
  datatype ActivityParams = ActivityParams(category: Option<string>, isActive: Option<bool>)

  /** The pairs `getActivities` appends: `category` when truthy, then the
      flag when it is not `undefined`. */
  function ActivityQuery(p: ActivityParams): seq<Pair>
  {
    (if p.category.Some? && p.category.value != "" then [("category", p.category.value)] else []) +
    (if p.isActive.Some? then [("is_active", FlagValue(p.isActive.value))] else [])
  }

  /** The activity query holds only `category` and `is_active`, in that
      order and each at most once; `category` appears exactly when it is a
      non-empty string, and the flag exactly when it was given, encoded as
      `'1'` or `'0'`. */
  lemma ActivityQuerySpec(p: ActivityParams)
    ensures forall i :: 0 <= i < |ActivityQuery(p)| ==>
      ActivityQuery(p)[i].0 == "category" || ActivityQuery(p)[i].0 == "is_active"
    ensures forall i, j :: 0 <= i < j < |ActivityQuery(p)| ==>
      ActivityQuery(p)[i].0 == "category" && ActivityQuery(p)[j].0 == "is_active"
    ensures forall v :: ("category", v) in ActivityQuery(p) <==> p.category == Some(v) && v != ""
    ensures forall v :: ("is_active", v) in ActivityQuery(p) <==>
      p.isActive.Some? && v == FlagValue(p.isActive.value)
    ensures forall i :: 0 <= i < |ActivityQuery(p)| && ActivityQuery(p)[i].0 == "is_active" ==>
      ActivityQuery(p)[i].1 == "1" || ActivityQuery(p)[i].1 == "0"
  {
  }

  /** Optional arguments of `getBlogs`. */
  datatype BlogParams = BlogParams(isPublished: Option<bool>, perPage: Option<int>)

  /** `getBlogs` writes `is_published` as `String(bool)`, i.e. `'true'` or
      `'false'`, and `per_page` only when it is truthy (not 0). */
  function BlogQuery(p: BlogParams): seq<Pair>
  {
    (if p.isPublished.Some? then [("is_published", if p.isPublished.value then "true" else "false")] else []) +
    (if p.perPage.Some? && p.perPage.value != 0 then [("per_page", IntToString(p.perPage.value))] else [])
  }

  /** The blog query holds only `is_published` and `per_page`, in that
      order and each at most once; `is_published` appears exactly when it
      was given, as `'true'` or `'false'`; `per_page` appears exactly when it
      was given and is not 0, and its text parses back to the number. */
  lemma BlogQuerySpec(p: BlogParams)
    ensures forall i :: 0 <= i < |BlogQuery(p)| ==>
      BlogQuery(p)[i].0 == "is_published" || BlogQuery(p)[i].0 == "per_page"
    ensures forall i, j :: 0 <= i < j < |BlogQuery(p)| ==>
      BlogQuery(p)[i].0 == "is_published" && BlogQuery(p)[j].0 == "per_page"
    ensures forall v :: ("is_published", v) in BlogQuery(p) <==>
      p.isPublished.Some? && v == (if p.isPublished.value then "true" else "false")
    ensures (exists v :: ("per_page", v) in BlogQuery(p)) <==> p.perPage.Some? && p.perPage.value != 0
    ensures forall v :: ("per_page", v) in BlogQuery(p) ==> ParseInt(v) == p.perPage
  {
    if p.perPage.Some? && p.perPage.value != 0 {
      ParseIntOfIntToString(p.perPage.value, "");
      assert IntToString(p.perPage.value) + "" == IntToString(p.perPage.value);
      assert ("per_page", IntToString(p.perPage.value)) in BlogQuery(p);
    }
  }

  // ---- Responses

  /** The shared tail of `getTreks` / `getActivities`: the array nested at
      `data.data.<key>` of a `success` response, otherwise the body
      unchanged. Reading `success` of a `null` body throws. */
  function UnwrapNested(data: Json, key: string): (r: Outcome<Json>)
    ensures data == JNull <==> r == Thrown(TypeError)
    ensures r.Ok? && r.value != data ==>
      r.value.JArr? && TruthyOpt(Get(data, "success")) && TruthyOpt(Get(data, "data")) &&
      Some(r.value) == Get(Get(data, "data").value, key)
    ensures (data != JNull && TruthyOpt(Get(data, "success")) && TruthyOpt(Get(data, "data")) &&
             IsArray(Get(Get(data, "data").value, key))) ==>
      r == Ok(Get(Get(data, "data").value, key).value)
    ensures (data != JNull && !(TruthyOpt(Get(data, "success")) && TruthyOpt(Get(data, "data")) &&
             IsArray(Get(Get(data, "data").value, key)))) ==>
      r == Ok(data)
  {
    if data == JNull then Thrown(TypeError)
    else if TruthyOpt(Get(data, "success")) && TruthyOpt(Get(data, "data")) &&
            IsArray(Get(Get(data, "data").value, key))
    then Ok(Get(Get(data, "data").value, key).value)
    else Ok(data)
  }

  /** A list call: an error status throws the fixed `failure` text before
      the body is read; an OK body is then unwrapped by `UnwrapNested`. */
  function ListResult(fetched: FetchResult, key: string, failure: string): (r: Outcome<Json>)
    ensures fetched.Response? && !fetched.ok ==> r == Thrown(Error(JStr(failure)))
    ensures fetched.NetworkFailure? ==> r == Thrown(TypeError)
    ensures fetched == Response(true, None) ==> r == Thrown(SyntaxError)
    ensures fetched.Response? && fetched.ok && fetched.body.Some? ==> r == UnwrapNested(fetched.body.value, key)
  {
    match fetched
    case NetworkFailure => Thrown(TypeError)
    case Response(ok, body) =>
      if !ok then Thrown(Error(JStr(failure)))
      else if body.None? then Thrown(SyntaxError)
      else UnwrapNested(body.value, key)
  }

  /** `${path}${queryString ? `?${queryString}` : ''}`. */
  method SearchUrl(path: string, queryParams: SearchParams) returns (url: string)
    ensures url == RequestUrl(path, queryParams.pairs)
  {
    var qs := queryParams.ToString();
    url := path + (if qs != "" then "?" + qs else "");
  }

  /** The `append` calls of `getTreks`. */
  method TrekSearchParams(p: TrekParams) returns (queryParams: SearchParams)
    ensures fresh(queryParams)
    ensures queryParams.pairs == TrekQuery(p)
  {
    queryParams := new SearchParams();
    if p.dataType.Some? && p.dataType.value != "" {
      queryParams.Append("data_type", p.dataType.value);
    }
    if p.isActive.Some? {
      queryParams.Append("is_active", FlagValue(p.isActive.value));
    }
    if p.isFeatured.Some? {
      queryParams.Append("is_featured", FlagValue(p.isFeatured.value));
    }
  }

  /** `getTreks(params)`: builds the query with successive `append`
      calls, requests the URL, and unwraps the response. */
  method GetTreks(p: TrekParams, fetched: FetchResult) returns (url: string, r: Outcome<Json>)
    ensures url == RequestUrl(ApiBaseUrl + "/treks", TrekQuery(p))
    ensures r == ListResult(fetched, "treks", "Failed to fetch treks")
  {
    var queryParams := TrekSearchParams(p);
    url := SearchUrl(ApiBaseUrl + "/treks", queryParams);
    r := ListResult(fetched, "treks", "Failed to fetch treks");
  }

  /** The `append` calls of `getActivities`. */
  method ActivitySearchParams(p: ActivityParams) returns (queryParams: SearchParams)
    ensures fresh(queryParams)
    ensures queryParams.pairs == ActivityQuery(p)
  {
    queryParams := new SearchParams();
    if p.category.Some? && p.category.value != "" {
      queryParams.Append("category", p.category.value);
    }
    if p.isActive.Some? {
      queryParams.Append("is_active", FlagValue(p.isActive.value));
    }
  }

  /** `getActivities(params)`. */
  method GetActivities(p: ActivityParams, fetched: FetchResult) returns (url: string, r: Outcome<Json>)
    ensures url == RequestUrl(ApiBaseUrl + "/activities", ActivityQuery(p))
    ensures r == ListResult(fetched, "activities", "Failed to fetch activities")
  {
    var queryParams := ActivitySearchParams(p);
    url := SearchUrl(ApiBaseUrl + "/activities", queryParams);
    r := ListResult(fetched, "activities", "Failed to fetch activities");
  }

  /** The plain request shape: throw `failure` unless the response is OK,
      then return its parsed body. */
  function JsonOrThrow(fetched: FetchResult, failure: string): (r: Outcome<Json>)
    ensures r.Ok? <==> fetched.Response? && fetched.ok && fetched.body.Some?
    ensures r.Ok? ==> r.value == fetched.body.value
    ensures fetched.Response? && !fetched.ok ==> r == Thrown(Error(JStr(failure)))
  {
    match fetched
    case NetworkFailure => Thrown(TypeError)
    case Response(ok, body) =>
      if !ok then Thrown(Error(JStr(failure)))
      else if body.None? then Thrown(SyntaxError)
      else Ok(body.value)
  }

  /** The `append` calls of `getBlogs`. */
  method BlogSearchParams(p: BlogParams) returns (queryParams: SearchParams)
    ensures fresh(queryParams)
    ensures queryParams.pairs == BlogQuery(p)
  {
    queryParams := new SearchParams();
    if p.isPublished.Some? {
      queryParams.Append("is_published", if p.isPublished.value then "true" else "false");
    }
    if p.perPage.Some? && p.perPage.value != 0 {
      queryParams.Append("per_page", IntToString(p.perPage.value));
    }
  }

  /** `getBlogs(params)`. */
  method GetBlogs(p: BlogParams, fetched: FetchResult) returns (url: string, r: Outcome<Json>)
    ensures url == RequestUrl(ApiBaseUrl + "/blogs", BlogQuery(p))
    ensures r == JsonOrThrow(fetched, "Failed to fetch blogs")
  {
    var queryParams := BlogSearchParams(p);
    url := SearchUrl(ApiBaseUrl + "/blogs", queryParams);
    r := JsonOrThrow(fetched, "Failed to fetch blogs");
  }

  /** The `{ data: [] }` a review call returns instead of failing. */
  const EmptyReviews: Json := JObj(map["data" := JArr([])])

  /** `getLatestReviews` and `getPublishableReviews`: a network failure or
      an error status gives `{ data: [] }`. The body is returned with
      `return response.json()`, not awaited inside the `try`, so a body
      that is not JSON still rejects the call. */
  function ReviewsResult(fetched: FetchResult): (r: Outcome<Json>)
    ensures r.Thrown? <==> fetched.Response? && fetched.ok && fetched.body.None?
    ensures fetched.NetworkFailure? || !fetched.ok ==> r == Ok(EmptyReviews)
    ensures fetched.Response? && fetched.ok && fetched.body.Some? ==> r == Ok(fetched.body.value)
  {
    match fetched
    case NetworkFailure => Ok(EmptyReviews)
    case Response(ok, body) =>
      if !ok then Ok(EmptyReviews)
      else if body.None? then Thrown(SyntaxError)
      else Ok(body.value)
  }

  /** The page size `getPublishableReviews` asks for when called without one. */
  const DefaultPerPage: int := 8

  /** The URL of `getPublishableReviews(perPage)`. */
  function PublishableReviewsUrl(perPage: Option<int>): (url: string)
    ensures perPage.None? ==> url == ApiBaseUrl + "/reviews/publishable?per_page=8"
    ensures perPage.Some? ==> url == ApiBaseUrl + "/reviews/publishable?per_page=" + IntToString(perPage.value)
  {
    var n := if perPage.Some? then perPage.value else DefaultPerPage;
    ApiBaseUrl + "/reviews/publishable?per_page=" + IntToString(n)
  }

  /** The fixed messages of the calls that report the server's message. */
  const LoginFailed: string := "Login failed"
  const CreateTrekFailed: string := "Failed to create trek"
  const UpdateTrekFailed: string := "Failed to update trek"
  const DeleteTrekFailed: string := "Failed to delete trek"
  const CreateBlogFailed: string := "Failed to create blog"

  /** The message of a failed mutating call: `data.message || fallback`. */
  function FailureMessage(data: Json, fallback: string): Json
  {
    OrElse(Get(data, "message"), JStr(fallback))
  }

  /** `login`, `createTrek`, `updateTrek`, `deleteTrek` and `createBlog`:
      the body is parsed first, then an error status throws
      `new Error(data.message || fallback)`; the `catch` blocks of the last
      four only log and rethrow. */
  function MutationResult(fetched: FetchResult, fallback: string): (r: Outcome<Json>)
    ensures r.Ok? <==> fetched.Response? && fetched.ok && fetched.body.Some?
    ensures r.Ok? ==> r.value == fetched.body.value
    ensures (fetched.Response? && !fetched.ok && fetched.body.Some? && fetched.body.value != JNull) ==>
      r == Thrown(Error(FailureMessage(fetched.body.value, fallback)))
  {
    match fetched
    case NetworkFailure => Thrown(TypeError)
    case Response(ok, body) =>
      if body.None? then Thrown(SyntaxError)
      else if ok then Ok(body.value)
      else if body.value == JNull then Thrown(TypeError)
      else Thrown(Error(FailureMessage(body.value, fallback)))
  }

  /** The server's message wins exactly when it is truthy; otherwise the
      fixed per-call text is used. */
  lemma FailureMessageChoice(data: Json, fallback: string)
    ensures TruthyOpt(Get(data, "message")) ==> FailureMessage(data, fallback) == Get(data, "message").value
    ensures !TruthyOpt(Get(data, "message")) ==> FailureMessage(data, fallback) == JStr(fallback)
    ensures Truthy(FailureMessage(data, fallback)) <==> TruthyOpt(Get(data, "message")) || fallback != ""
  {
  }

  // ---- Form submissions

  /** A `FormData` entry value: text, or an uploaded file (named here). */
  datatype FormValue = Text(text: string) | File(name: string)

  /** A `FormData` object: the ordered entries `append` adds. */
  class FormData {
    var entries: seq<(string, FormValue)>

    constructor ()
      ensures entries == []
    {
      entries := [];
    }

    method Append(key: string, value: FormValue)
      modifies this
      ensures entries == old(entries) + [(key, value)]
    {
      entries := entries + [(key, value)];
    }
  }

  /** `updateTrek(token, id, formData)`: Laravel needs a `_method` field to
      treat a multipart POST as a PUT, so the caller's form gets
      `_method=PUT` appended before it is sent to `/treks/<id>`. */
  method UpdateTrek(id: int, form: FormData, fetched: FetchResult) returns (url: string, r: Outcome<Json>)
    modifies form
    ensures form.entries == old(form.entries) + [("_method", Text("PUT"))]
    ensures url == ApiBaseUrl + "/treks/" + IntToString(id)
    ensures r == MutationResult(fetched, UpdateTrekFailed)
  {
    form.Append("_method", Text("PUT"));
    url := ApiBaseUrl + "/treks/" + IntToString(id);
    r := MutationResult(fetched, UpdateTrekFailed);
  }

  /** `deleteTrek(token, id)`: a `DELETE` of `/treks/<id>` whose failure
      reports the server's message or the fixed text. */
  method DeleteTrek(id: int, fetched: FetchResult) returns (url: string, r: Outcome<Json>)
    ensures url == ApiBaseUrl + "/treks/" + IntToString(id)
    ensures r == MutationResult(fetched, DeleteTrekFailed)
  {
    url := ApiBaseUrl + "/treks/" + IntToString(id);
    r := MutationResult(fetched, DeleteTrekFailed);
  }
}
