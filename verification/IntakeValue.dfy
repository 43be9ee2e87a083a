/** The decoded answers of a language model, and the coercions that read them. */
module IntakeValue {
  import opened Text
  import opened Wrappers

  datatype Json = Null | Bool(b: bool) | Number(n: real) | String(s: string) | List(items: seq<Json>) | Object(fields: map<string, Json>)

  // The library readers: how a value prints, and what a text parses to.
  datatype Reader = Reader(
    print_: Json -> string, number: string -> Option<real>, integer: string -> Option<int>,
    amount: string -> real, truth: string -> Option<bool>, date: string -> bool)

  function ToString(k: Reader, v: Json): string {
    match v
    case Null => ""
    case String(s) => s
    case Bool(b) => if b then "true" else "false"
    case _ => k.print_(v)
  }

  function Field(v: Json, name: string): Json {
    if v.Object? && name in v.fields then v.fields[name] else Null
  }

  function AsList(v: Json): seq<Json> {
    match v
    case Null => []
    case List(items) => items
    case _ => [v]
  }

  function AsStrings(k: Reader, items: seq<Json>): seq<string> {
    if items == [] then [] else AsStrings(k, items[..|items| - 1]) + [ToString(k, items[|items| - 1])]
  }

  predicate IsEmpty(v: Json) {
    match v
    case Null => true
    case String(s) => Trim(s) == ""
    case List(items) => items == []
    case Object(fields) => fields == map[]
    case Number(n) => n == 0.0
    case Bool(_) => false
  }

  // Absent, unreadable and non-positive page numbers are no page.
  function OptionalInt(k: Reader, v: Json): Option<int> {
    if v.Null? || v == String("") then None
    else
      var parsed := k.integer(Trim(ToString(k, v)));
      if parsed.Some? && parsed.value <= 0 then None else parsed
  }

  function Amount(k: Reader, v: Json): real {
    match v
    case Null => 0.0
    case Bool(_) => 0.0
    case Number(n) => n
    case _ => k.amount(Trim(ToString(k, v)))
  }

  /** A confidence always lies between 0 and 1. */
  function Confidence(k: Reader, v: Json): (c: real)
    ensures 0.0 <= c <= 1.0
  {
    var n := Amount(k, v);
    if n < 0.0 then 0.0 else if n > 1.0 then 1.0 else n
  }

  function CoerceBool(k: Reader, v: Json, default: bool): bool {
    match v
    case Null => default
    case Bool(b) => b
    case Number(n) => n != 0.0
    case _ =>
      if v == String("") then default
      else
        var read := k.truth(Lower(Trim(ToString(k, v))));
        if read.Some? then read.value else default
  }

  function TextOr(k: Reader, v: Json, default: string): string {
    var s := Trim(ToString(k, v));
    if s != "" then s else default
  }

  /** How the answers of a model are read, kind by kind: a text by what it says without the space around it, a truth value
      never as a number, and nothing at all as the default. */
  lemma ReadByKind(k: Reader, text: string, n: real, b: bool, default: bool)
    ensures ToString(k, Null) == "" && ToString(k, String(text)) == text && ToString(k, Number(n)) == k.print_(Number(n))
    ensures ToString(k, Bool(true)) == "true" && ToString(k, Bool(false)) == "false"
    ensures Amount(k, Null) == Amount(k, Bool(b)) == 0.0 && Amount(k, Number(n)) == n && Amount(k, String(text)) == k.amount(Trim(text))
    ensures CoerceBool(k, Null, default) == CoerceBool(k, String(""), default) == default && CoerceBool(k, Bool(b), default) == b
    ensures CoerceBool(k, Number(n), default) == (n != 0.0)
    ensures text != "" ==>
              CoerceBool(k, String(text), default) == match k.truth(Lower(Trim(text))) case Some(said) => said case None => default
    ensures OptionalInt(k, Null) == OptionalInt(k, String("")) == None
    ensures text != "" ==>
              var read := k.integer(Trim(text));
              OptionalInt(k, String(text)) == if read.Some? && read.value > 0 then read else None
  {
  }

  /** A value that is no list is a list of its own, unless it is nothing; a field that is not there is nothing. */
  lemma ListsAndFields(k: Reader, v: Json, items: seq<Json>, fields: map<string, Json>, name: string, default: string)
    ensures AsList(Null) == [] && AsList(List(items)) == items && (!v.Null? && !v.List? ==> AsList(v) == [v])
    ensures Field(Object(fields), name) == if name in fields then fields[name] else Null
    ensures !v.Object? ==> Field(v, name) == Null
    ensures AsStrings(k, []) == [] && AsStrings(k, items + [v]) == AsStrings(k, items) + [ToString(k, v)]
    ensures TextOr(k, v, default) == if Trim(ToString(k, v)) == "" then default else Trim(ToString(k, v))
  {
    hide ToString, Trim;
    assert (items + [v])[..|items|] == items;
  }

  /** What counts as empty: nothing, a blank text, an empty list or object, and zero; a truth value never does. */
  lemma EmptyByKind(v: Json)
    ensures IsEmpty(v) <==>
              || v == Null || (v.String? && Trim(v.s) == "") || v == List([]) || v == Object(map[]) || v == Number(0.0)
  {
  }

  /** A confidence is the number itself between 0 and 1, and the nearer end outside. */
  lemma ConfidenceClamps(k: Reader, v: Json)
    ensures 0.0 <= Amount(k, v) <= 1.0 ==> Confidence(k, v) == Amount(k, v)
    ensures Amount(k, v) < 0.0 ==> Confidence(k, v) == 0.0
    ensures Amount(k, v) > 1.0 ==> Confidence(k, v) == 1.0
  {
  }

  lemma {:induction false} WithoutConcat(a: string, b: string, c: char)
    ensures Without(a + b, c) == Without(a, c) + Without(b, c)
  {
    if a == "" {
      assert a + b == b;
    } else {
      var head := if a[0] == c then "" else [a[0]];
      WithoutConcat(a[1..], b, c);
      assert (a + b)[1..] == a[1..] + b && (a + b)[0] == a[0];
      assert head + (Without(a[1..], c) + Without(b, c)) == (head + Without(a[1..], c)) + Without(b, c);
    }
  }

  /** Nothing but the character goes, and the rest keeps its order. */
  lemma WithoutMeaning(a: string, b: string, c: char)
    ensures Without(a + [c] + b, c) == Without(a + b, c)
    ensures c !in a ==> Without(a, c) == a
    ensures c !in Without(a, c)
  {
    WithoutConcat(a + [c], b, c);
    WithoutConcat(a, [c], c);
    WithoutConcat(a, b, c);
    NothingToRemove(a, c);
    OneRemoved(c);
    hide Without;
  }

  lemma OneRemoved(c: char)
    ensures Without([c], c) == []
  {
  }

  lemma {:induction false} NothingToRemove(a: string, c: char)
    ensures c !in a ==> Without(a, c) == a
    ensures c !in Without(a, c)
  {
    if a != "" {
      NothingToRemove(a[1..], c);
      assert a == [a[0]] + a[1..];
    }
  }

  function Without(s: string, c: char): string {
    if s == "" then "" else (if s[0] == c then "" else [s[0]]) + Without(s[1..], c)
  }

  // Decimal digits of a number.
  function Decimal(n: nat): string {
    (if n < 10 then "" else Decimal(n / 10)) + [('0' as int + n % 10) as char]
  }

  // The number a string of digits stands for.
  function Read(s: string): int {
    if s == "" then 0 else Read(s[..|s| - 1]) * 10 + (s[|s| - 1] as int - '0' as int)
  }

  lemma {:induction false} DecimalReadsBack(n: nat)
    ensures Read(Decimal(n)) == n && Decimal(n) != "" && forall i :: 0 <= i < |Decimal(n)| ==> '0' <= Decimal(n)[i] <= '9'
    ensures n > 0 ==> Decimal(n)[0] != '0'
  {
    var tens, last := if n < 10 then "" else Decimal(n / 10), [('0' as int + n % 10) as char];
    if n >= 10 {
      DecimalReadsBack(n / 10);
    }
    assert (tens + last)[..|tens|] == tens;
  }
}
