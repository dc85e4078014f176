// JSON values as Python sees them after `json.loads`, and JSON text as an
// abstract pair of functions.
module JsonValues {
  import opened Wrappers
  import opened Text

  datatype Json =
    | Null
    | Bool(b: bool)
    | Int(n: int)
    | Float(x: real)
    | Str(s: string)
    | Arr(items: seq<Json>)
    | Obj(fields: map<string, Json>)

  /** `value.get(key)` on an object; `Null` for an absent key or a non-object. */
  function Field(j: Json, key: string): Json {
    if j.Obj? && key in j.fields then j.fields[key] else Null
  }

  predicate Truthy(j: Json) {
    match j
    case Null => false
    case Bool(b) => b
    case Int(n) => n != 0
    case Float(x) => x != 0.0
    case Str(s) => s != ""
    case Arr(items) => items != []
    case Obj(fields) => fields != map[]
  }

  /** Seven values count as nothing. */
  lemma NothingIs(j: Json)
    ensures !Truthy(j) <==> j in [Null, Bool(false), Int(0), Float(0.0), Str(""), Arr([]), Obj(map[])]
  {
  }

  /** Python's `a or b`. */
  function Or(a: Json, b: Json): Json {
    if Truthy(a) then a else b
  }

  /** Python's `int(x)` on a float: truncation towards zero. */
  function Truncate(x: real): int {
    if x >= 0.0 then x.Floor else -((-x).Floor)
  }

  /**
   * One reported token count: a number or a string of digits. Booleans are
   * refused although Python counts them as integers.
   */
  function AsCount(j: Json): Option<int> {
    match j
    case Int(n) => Some(n)
    case Float(x) => Some(Truncate(x))
    case Str(s) =>
      var digits := Strip(s);
      if digits != "" && forall i | 0 <= i < |digits| :: IsDigit(digits[i])
      then Some(DigitsValue(digits))
      else None
    case _ => None
  }

  /** A count sent as digits, with or without space around them, is the number they spell. */
  lemma DigitsCount(n: nat, before: string, after: string)
    requires forall c | c in before + after :: IsSpace(c)
    ensures AsCount(Str(before + Decimal(n) + after)) == Some(n)
  {
    StripsSpace(before, Decimal(n), after);
    DecimalReadsBack(n);
  }

  /** A fractional count is cut towards zero. */
  lemma FractionsAreCut(x: real)
    ensures var n := AsCount(Float(x));
            && n.Some?
            && (x >= 0.0 ==> n.value as real <= x < n.value as real + 1.0)
            && (x <= 0.0 ==> n.value as real - 1.0 < x <= n.value as real)
  {
  }

  /** Nothing else counts: no boolean, no null, no object, no list, and no text with anything but digits in it. */
  lemma OnlyNumbersCount(j: Json)
    ensures j.Int? ==> AsCount(j) == Some(j.n)
    ensures j.Bool? || j.Null? || j.Arr? || j.Obj? ==> AsCount(j) == None
    ensures j.Str? && (exists c | c in j.s :: !IsSpace(c) && !IsDigit(c)) ==> AsCount(j) == None
    ensures j.Str? && (forall c | c in j.s :: IsSpace(c)) ==> AsCount(j) == None
  {
    if j.Str? {
      StripKeepsWords(j.s);
      if forall c | c in j.s :: IsSpace(c) {
        BlankStripsToNothing(j.s);
      }
    }
  }

  /** The serialiser and parser of the JSON library, as functions. */
  datatype Codec = Codec(dump: Json -> string, parse: string -> Option<Json>) {
    /** This value's text parses back to it, and the empty text is no JSON. */
    predicate Keeps(j: Json) {
      parse("") == None && dump(j) != "" && parse(dump(j)) == Some(j)
    }
  }

  function Tally(n: nat): (s: string)
    ensures |s| == n
  {
    seq(n, i => 'x')
  }

  function Position(values: seq<Json>, j: Json): (i: nat)
    ensures j in values ==> i < |values| && values[i] == j
  {
    if values == [] || values[0] == j then 0 else 1 + Position(values[1..], j)
  }

  /** However many values have to be kept, some codec keeps them. */
  lemma SomeCodecKeeps(values: seq<Json>) returns (codec: Codec)
    ensures forall j | j in values :: codec.Keeps(j)
  {
    codec := Codec(
      j => Tally(Position(values, j) + 1),
      s => if 1 <= |s| <= |values| then Some(values[|s| - 1]) else None);
  }
}
