/** The admin login page: its two-field form, and the submit handler that
    either opens a session in `localStorage` or shows an error. */
module AdminLogin {

  import opened JsValues
  import opened Api

  const InvalidCredentials: string := "Invalid email or password"
  const GenericFailure: string := "An error occurred. Please try again."

  /** `err.message` of a thrown error. A built-in error's message is the
      engine's own non-empty text; the model uses the error's name in its
      place. */
  function ErrorMessage(e: JsError): Json
  {
    match e
    case Error(m) => m
    case SyntaxError => JStr("SyntaxError")
    case TypeError => JStr("TypeError")
  }

  /** What the handler does once `login` has settled. */
  datatype Decision = SignIn(token: Json) | ShowError(message: Json)

  /** `handleSubmit`'s branches: a response whose `status` and `token` are
      both truthy signs in; any other response shows its `message`, or the
      invalid-credentials text; a thrown error shows its message, or the
      generic text. Reading `status` of a `null` response throws inside the
      `try` and lands in the second case. */
  function Decide(outcome: Outcome<Json>): (d: Decision)
    ensures d.SignIn? <==>
      outcome.Ok? && TruthyOpt(Get(outcome.value, "status")) && TruthyOpt(Get(outcome.value, "token"))
    ensures d.SignIn? ==> Truthy(d.token) && Some(d.token) == Get(outcome.value, "token")
    ensures d.ShowError? ==> Truthy(d.message)
    ensures outcome.Ok? && outcome.value != JNull && d.ShowError? ==>
      d.message == OrElse(Get(outcome.value, "message"), JStr(InvalidCredentials))
    ensures outcome.Thrown? ==> d == ShowError(OrElse(Some(ErrorMessage(outcome.error)), JStr(GenericFailure)))
    ensures outcome == Ok(JNull) ==> d == ShowError(ErrorMessage(TypeError))
  {
    match outcome
    case Thrown(e) => ShowError(OrElse(Some(ErrorMessage(e)), JStr(GenericFailure)))
    case Ok(data) =>
      if data == JNull then ShowError(OrElse(Some(ErrorMessage(TypeError)), JStr(GenericFailure)))
      else if TruthyOpt(Get(data, "status")) && TruthyOpt(Get(data, "token")) then SignIn(Get(data, "token").value)
      else ShowError(OrElse(Get(data, "message"), JStr(InvalidCredentials)))
  }

  /** What the page shows for each server answer. `login` itself throws on
      an error status, so a rejected login shows the server's message or
      "Login failed"; the invalid-credentials text appears only for an OK
      answer without a truthy `status` and `token`. */
  lemma LoginAnswers(token: Json, message: Json)
    requires Truthy(token)
    ensures Decide(MutationResult(Response(true, Some(JObj(map["status" := JBool(true), "token" := token]))), LoginFailed))
      == SignIn(token)
    ensures Decide(MutationResult(Response(true, Some(JObj(map["status" := JBool(false), "token" := token]))), LoginFailed))
      == ShowError(JStr(InvalidCredentials))
    ensures Truthy(message) ==>
      Decide(MutationResult(Response(false, Some(JObj(map["message" := message]))), LoginFailed)) == ShowError(message)
    ensures Decide(MutationResult(Response(false, Some(JObj(map[]))), LoginFailed)) == ShowError(JStr(LoginFailed))
  {
    var ok := JObj(map["status" := JBool(true), "token" := token]);
    assert Get(ok, "status") == Some(JBool(true)) && Get(ok, "token") == Some(token);
    var denied := JObj(map["status" := JBool(false), "token" := token]);
    assert Get(denied, "status") == Some(JBool(false)) && Get(denied, "message") == None;
    assert Get(JObj(map["message" := message]), "message") == Some(message);
  }

  /** `{ ...formData, [name]: value }`: the named field takes the value and
      every other field keeps its own. */
  function WithField(form: map<string, string>, name: string, value: string): (r: map<string, string>)
    ensures r.Keys == form.Keys + {name}
    ensures r[name] == value
    ensures forall k :: k in form && k != name ==> r[k] == form[k]
  {
    form[name := value]
  }

  /** The login page's state. */
  class LoginPage {
    var form: map<string, string>
    var error: Json
    var loading: bool
    /** `localStorage`. */
    var storage: map<string, string>

    ghost predicate Valid()
      reads this
    {
      "email" in form && "password" in form
    }

    constructor (storage: map<string, string>)
      ensures Valid()
      ensures form == map["email" := "", "password" := ""] && error == JStr("") && !loading
      ensures this.storage == storage
    {
      form := map["email" := "", "password" := ""];
      error := JStr("");
      loading := false;
      this.storage := storage;
    }

    /** `handleChange` for the input called `name`. */
    method HandleChange(name: string, value: string)
      requires Valid()
      modifies this
      ensures Valid()
      ensures form == WithField(old(form), name, value)
      ensures error == old(error) && loading == old(loading) && storage == old(storage)
    {
      form := WithField(form, name, value);
    }

    /** The start of `handleSubmit`: the old error is cleared and the
      button shows it is busy. */
    method BeginSubmit()
      modifies this
      ensures error == JStr("") && loading
      ensures form == old(form) && storage == old(storage)
    {
      error := JStr("");
      loading := true;
    }

    /** The rest of `handleSubmit`, once `login(email, password)` has
        settled with `fetched`. `setItem` stores `toText(token)`, the
        string form of the token. */
    method FinishSubmit(fetched: FetchResult, toText: Json -> string)
      requires Valid()
      modifies this
      ensures Valid() && form == old(form) && !loading
      ensures Decide(MutationResult(fetched, LoginFailed)).SignIn? ==>
        storage == old(storage)["isAdminLoggedIn" := "true"]["adminEmail" := old(form)["email"]]
                               ["authToken" := toText(Decide(MutationResult(fetched, LoginFailed)).token)] &&
        error == old(error)
      ensures Decide(MutationResult(fetched, LoginFailed)).ShowError? ==>
        storage == old(storage) && error == Decide(MutationResult(fetched, LoginFailed)).message
    {
      var outcome := MutationResult(fetched, LoginFailed);
      match Decide(outcome) {
        case SignIn(token) =>
          storage := storage["isAdminLoggedIn" := "true"];
          storage := storage["adminEmail" := form["email"]];
          storage := storage["authToken" := toText(token)];
        case ShowError(message) =>
          error := message;
      }
      loading := false;
    }

    /** The whole handler: a successful sign-in leaves the error empty. */
    method HandleSubmit(fetched: FetchResult, toText: Json -> string)
      requires Valid()
      modifies this
      ensures Valid() && form == old(form) && !loading
      ensures Decide(MutationResult(fetched, LoginFailed)).SignIn? ==>
        storage == old(storage)["isAdminLoggedIn" := "true"]["adminEmail" := old(form)["email"]]
                               ["authToken" := toText(Decide(MutationResult(fetched, LoginFailed)).token)] &&
        error == JStr("")
      ensures Decide(MutationResult(fetched, LoginFailed)).ShowError? ==>
        storage == old(storage) && error == Decide(MutationResult(fetched, LoginFailed)).message
    {
      BeginSubmit();
      FinishSubmit(fetched, toText);
    }
  }
}
