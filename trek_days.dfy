/** The itinerary ("trek days") of a trek in the admin dashboard's edit
    form: the decoder that recovers the day list from whatever the API
    stored (an array, a JSON string, or a string JSON-encoded several
    times over), and the add / remove / update operations on the list. */
module TrekDays {

  import opened JsValues
  import opened JsStrings

  /** `JSON.parse`: `None` when it throws a SyntaxError. */
  type Parser = string -> Option<Json>

  /** `JSON.stringify` on a JSON value. */
  type Writer = Json -> string

  /** The list the decoder falls back to: `['Day 1: ']`. */
  const DefaultDays: seq<Json> := [JStr("Day 1: ")]

  /** The decoder's budget of `JSON.parse` rounds (`maxAttempts`). */
  const MaxAttempts: nat := 10

  /** What the decoding loop returns when `current` holds the string `s`
      and `attempts` rounds are left: the array a round yields (or the
      default when it is empty), the failing string itself when a parse
      throws, another round when the parse yields a string, and the
      default for any other parse result or an exhausted budget. */
  function Unwrap(parse: Parser, s: string, attempts: nat): (r: seq<Json>)
    ensures r != []
    decreases attempts
  {
    if attempts == 0 then DefaultDays
    else match parse(s)
      case None => if Trim(s) != "" then [JStr(s)] else DefaultDays
      case Some(JArr(items)) => if items != [] then items else DefaultDays
      case Some(JStr(next)) => Unwrap(parse, next, attempts - 1)
      case Some(_) => DefaultDays
  }

  /** How many times the loop calls `JSON.parse` from that point on. */
  function ParseCalls(parse: Parser, s: string, attempts: nat): (n: nat)
    ensures n <= attempts
    ensures attempts > 0 ==> n >= 1
    decreases attempts
  {
    if attempts == 0 then 0
    else match parse(s)
      case Some(JStr(next)) => 1 + ParseCalls(parse, next, attempts - 1)
      case _ => 1
  }

  /** `parseTrekDays(days)` as a function of its input; `days` is
      `None` when the trek has no `trek_days` field. */
  function Decode(parse: Parser, days: Option<Json>): (r: seq<Json>)
    ensures r != []
    ensures !TruthyOpt(days) ==> r == DefaultDays
    ensures days.Some? && days.value.JArr? && days.value.items != [] ==> r == days.value.items
    ensures days == Some(JArr([])) ==> r == DefaultDays
    ensures TruthyOpt(days) && !days.value.JArr? && !days.value.JStr? ==> r == DefaultDays
  {
    if !TruthyOpt(days) then DefaultDays
    else match days.value
      case JArr(items) => if items != [] then items else DefaultDays
      case JStr(s) => Unwrap(parse, s, MaxAttempts)
      case _ => DefaultDays
  }

  /** The number of `JSON.parse` calls `parseTrekDays(days)` makes. */
  function DecodeParses(parse: Parser, days: Option<Json>): (n: nat)
    ensures n <= MaxAttempts
    ensures n > 0 <==> TruthyOpt(days) && days.value.JStr?
  {
    if TruthyOpt(days) && days.value.JStr? then ParseCalls(parse, days.value.s, MaxAttempts) else 0
  }

  /** The decoder as the page runs it: a loop of at most `MaxAttempts`
      rounds over `current`, which the parse results overwrite. The ghost
      out-parameter counts the `JSON.parse` calls. */
  method ParseTrekDays(parse: Parser, days: Option<Json>) returns (r: seq<Json>, ghost parses: nat)
    ensures r == Decode(parse, days)
    ensures parses == DecodeParses(parse, days) && parses <= MaxAttempts
  {
    parses := 0;
    if !TruthyOpt(days) {
      return DefaultDays, parses;
    }
    if days.value.JArr? {
      r := if |days.value.items| > 0 then days.value.items else DefaultDays;
      return r, parses;
    }
    if days.value.JStr? {
      var current: Json := days.value;
      var maxAttempts: nat := MaxAttempts;
      while maxAttempts > 0 && current.JStr?
        invariant maxAttempts <= MaxAttempts
        invariant parses + maxAttempts == MaxAttempts
        invariant current.JStr? ==>
          Unwrap(parse, days.value.s, MaxAttempts) == Unwrap(parse, current.s, maxAttempts) &&
          ParseCalls(parse, days.value.s, MaxAttempts) == parses + ParseCalls(parse, current.s, maxAttempts)
        invariant !current.JStr? ==>
          !current.JArr? && Unwrap(parse, days.value.s, MaxAttempts) == DefaultDays &&
          ParseCalls(parse, days.value.s, MaxAttempts) == parses
        decreases maxAttempts
      {
        var parsed := parse(current.s);
        parses := parses + 1;
        if parsed.None? {
          // the catch block: `current` is the string that failed to parse
          r := if Trim(current.s) != "" then [current] else DefaultDays;
          return r, parses;
        }
        if parsed.value.JArr? {
          r := if |parsed.value.items| > 0 then parsed.value.items else DefaultDays;
          return r, parses;
        }
        current := parsed.value;
        maxAttempts := maxAttempts - 1;
      }
      // Arrays are returned inside the loop, so the final
      // `Array.isArray(current)` test never succeeds.
      assert !current.JArr?;
      return DefaultDays, parses;
    }
    return DefaultDays, parses;
  }

  /** `JSON.stringify` and `JSON.parse` agree on strings: parsing what was
      written for a string gives the string back, and what is written is
      never empty (it holds at least the two quotes). */
  ghost predicate StringsRoundTrip(parse: Parser, stringify: Writer)
  {
    forall s: string :: stringify(JStr(s)) != "" && parse(stringify(JStr(s))) == Some(JStr(s))
  }

  /** The same agreement on strings and on the one day list `d` that is
      written. Only these values are ever written, so nothing is assumed
      about the others (a number, say, whose text would lose precision). */
  ghost predicate RoundTrips(parse: Parser, stringify: Writer, d: seq<Json>)
  {
    StringsRoundTrip(parse, stringify) &&
    stringify(JArr(d)) != "" && parse(stringify(JArr(d))) == Some(JArr(d))
  }

  /** A writer that marks a string with a leading `s` and writes every other
      value as `a`. */
  function TaggingWriter(): Writer
  {
    (j: Json) => if j.JStr? then "s" + j.s else "a"
  }

  /** The parser that undoes `TaggingWriter` for the day list `d`. */
  function TaggingParser(d: seq<Json>): Parser
  {
    (t: string) => if t == "a" then Some(JArr(d)) else if t != "" && t[0] == 's' then Some(JStr(t[1..])) else None
  }

  /** The round-trip hypothesis can be met, for every day list. */
  lemma RoundTripsSatisfiable(d: seq<Json>)
    ensures RoundTrips(TaggingParser(d), TaggingWriter(), d)
  {
    forall s: string
      ensures TaggingWriter()(JStr(s)) != "" && TaggingParser(d)(TaggingWriter()(JStr(s))) == Some(JStr(s))
    {
      assert TaggingWriter()(JStr(s)) == "s" + s;
      assert ("s" + s)[1..] == s;
    }
  }

  /** The day list `d` written with `JSON.stringify` `k` times over
      (`k` = 1 is the form's own `JSON.stringify(trekDays)`). */
  function Encoded(stringify: Writer, d: seq<Json>, k: nat): string
    requires k >= 1
  {
    if k == 1 then stringify(JArr(d)) else stringify(JStr(Encoded(stringify, d, k - 1)))
  }

  lemma {:induction false} UnwrapEncoded(parse: Parser, stringify: Writer, d: seq<Json>, k: nat, attempts: nat)
    requires RoundTrips(parse, stringify, d)
    requires 1 <= k <= attempts
    ensures Unwrap(parse, Encoded(stringify, d, k), attempts) == if d != [] then d else DefaultDays
    ensures ParseCalls(parse, Encoded(stringify, d, k), attempts) == k
  {
    if k == 1 {
      assert parse(stringify(JArr(d))) == Some(JArr(d));
    } else {
      var inner := Encoded(stringify, d, k - 1);
      assert parse(stringify(JStr(inner))) == Some(JStr(inner));
      UnwrapEncoded(parse, stringify, d, k - 1, attempts - 1);
    }
  }

  /** Round trip with the form's writer: a day list JSON-encoded between
      one and ten times decodes to itself (an empty list to the
      default), after exactly as many parses as layers. */
  lemma RoundTrip(parse: Parser, stringify: Writer, d: seq<Json>, k: nat)
    requires RoundTrips(parse, stringify, d)
    requires 1 <= k <= MaxAttempts
    ensures Decode(parse, Some(JStr(Encoded(stringify, d, k)))) == if d != [] then d else DefaultDays
    ensures DecodeParses(parse, Some(JStr(Encoded(stringify, d, k)))) == k
  {
    UnwrapEncoded(parse, stringify, d, k, MaxAttempts);
    if k == 1 {
      assert Encoded(stringify, d, k) == stringify(JArr(d));
    } else {
      assert Encoded(stringify, d, k) == stringify(JStr(Encoded(stringify, d, k - 1)));
    }
  }

  lemma {:induction false} UnwrapOverEncoded(parse: Parser, stringify: Writer, d: seq<Json>, k: nat, attempts: nat)
    requires StringsRoundTrip(parse, stringify)
    requires attempts < k
    ensures Unwrap(parse, Encoded(stringify, d, k), attempts) == DefaultDays
  {
    if attempts > 0 {
      var inner := Encoded(stringify, d, k - 1);
      assert parse(stringify(JStr(inner))) == Some(JStr(inner));
      UnwrapOverEncoded(parse, stringify, d, k - 1, attempts - 1);
    }
  }

  /** A list encoded more than ten times is not recovered: the budget runs
      out on a string and the decoder gives the default. */
  lemma OverEncodedGivesDefault(parse: Parser, stringify: Writer, d: seq<Json>, k: nat)
    requires StringsRoundTrip(parse, stringify)
    requires k > MaxAttempts
    ensures Decode(parse, Some(JStr(Encoded(stringify, d, k)))) == DefaultDays
  {
    UnwrapOverEncoded(parse, stringify, d, k, MaxAttempts);
    assert Encoded(stringify, d, k) == stringify(JStr(Encoded(stringify, d, k - 1)));
  }

  /** A string that is not JSON at all comes back as the one day it
      spells out, unless it is only white space. */
  lemma UnparsableString(parse: Parser, s: string)
    requires s != "" && parse(s) == None
    ensures Decode(parse, Some(JStr(s))) == if IsBlank(s) then DefaultDays else [JStr(s)]
  {
    TrimEmptyIffBlank(s);
  }

  /** A parse failure on an inner layer keeps that inner string, not the
      original input: `'"abc"'` decodes to `['abc']`. */
  lemma InnerLayerFails(parse: Parser, s: string, t: string)
    requires s != "" && parse(s) == Some(JStr(t)) && parse(t) == None
    ensures Decode(parse, Some(JStr(s))) == if IsBlank(t) then DefaultDays else [JStr(t)]
    ensures DecodeParses(parse, Some(JStr(s))) == 2
  {
    TrimEmptyIffBlank(t);
    assert Unwrap(parse, s, MaxAttempts) == Unwrap(parse, t, MaxAttempts - 1);
    assert ParseCalls(parse, s, MaxAttempts) == 1 + ParseCalls(parse, t, MaxAttempts - 1);
    assert ParseCalls(parse, t, MaxAttempts - 1) == 1;
  }

  /** A round that yields a number, a boolean, `null` or an object ends the
      loop with the default list. */
  lemma ScalarLayerGivesDefault(parse: Parser, s: string, v: Json)
    requires s != "" && parse(s) == Some(v) && !v.JStr? && !v.JArr?
    ensures Decode(parse, Some(JStr(s))) == DefaultDays
    ensures DecodeParses(parse, Some(JStr(s))) == 1
  {
  }

  // ---- Editing the day list (the create and edit modals share this code)

  /** The label `Day ${n}: ` of a new day. */
  function DayLabel(n: nat): string
  {
    "Day " + NatToString(n) + ": "
  }

  /** `addTrekDay`: appends the label of the next day. */
  function AddDay(days: seq<string>): (r: seq<string>)
    ensures |r| == |days| + 1
    ensures r[..|days|] == days
    ensures r[|days|] == DayLabel(|days| + 1)
  {
    days + [DayLabel(|days| + 1)]
  }

  /** `days.filter((_, i) => i !== index)` for the elements of `days`
      that sit at positions `offset`, `offset + 1`, ... of the whole list. */
  function DropAt(days: seq<string>, index: int, offset: nat): (r: seq<string>)
    ensures offset <= index < offset + |days| ==> r == days[..index - offset] + days[index - offset + 1..]
    ensures !(offset <= index < offset + |days|) ==> r == days
  {
    if days == [] then []
    else (if offset == index then [] else [days[0]]) + DropAt(days[1..], index, offset + 1)
  }

  /** `removeTrekDay(index)`: drops the day at `index` and keeps the others
      in order; an index outside the list removes nothing. */
  function RemoveDay(days: seq<string>, index: int): (r: seq<string>)
    ensures 0 <= index < |days| ==>
      |r| == |days| - 1 &&
      (forall j :: 0 <= j < index ==> r[j] == days[j]) &&
      (forall j :: index <= j < |r| ==> r[j] == days[j + 1])
    ensures !(0 <= index < |days|) ==> r == days
  {
    DropAt(days, index, 0)
  }

  /** Removing the day just added gives the list back. */
  lemma RemoveUndoesAdd(days: seq<string>)
    ensures RemoveDay(AddDay(days), |days|) == days
  {
    assert AddDay(days)[..|days|] == days;
  }

  /** `updateTrekDay(index, value)`: a copy of the list with one slot
      overwritten. The page only passes the index of a rendered row. */
  method UpdateDay(days: seq<string>, index: nat, value: string) returns (r: seq<string>)
    requires index < |days|
    ensures |r| == |days|
    ensures r[index] == value
    ensures forall j :: 0 <= j < |r| && j != index ==> r[j] == days[j]
  {
    var updated := new string[|days|](i requires 0 <= i < |days| => days[i]);
    updated[index] := value;
    r := updated[..];
  }
}
