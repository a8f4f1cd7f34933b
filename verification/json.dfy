/** The values `JSON.parse` produces, and the JavaScript operations the relay
    applies to them: optional property access (`x?.k`, `x?.[0]`), truthiness,
    and the `Number(...)` conversion of token counters. Parsing itself is not
    modelled: callers receive a `parse: string -> Option<Json>` function whose
    `None` stands for a `JSON.parse` that throws. */
module Json {
  import opened Wrappers
  import opened Text

  /** A JavaScript number as far as the relay distinguishes them. Counters are
      whole numbers here; `Infinite` covers both infinities. */
  datatype Numeric = Finite(value: int) | Infinite | NotANumber

  /** A parsed JSON value. An object maps each key to the value `JSON.parse`
      kept for it (the last one, when a key is repeated). */
  datatype Json =
    | Null
    | Bool(b: bool)
    | Num(n: Numeric)
    | Str(s: string)
    | Arr(items: seq<Json>)
    | Obj(fields: map<string, Json>)

  /** `x?.[key]`: the property of an object, and `None` (undefined) for every
      other value, including a missing one. Arrays and strings carry no property
      the relay asks for. */
  function Member(x: Option<Json>, key: string): (r: Option<Json>)
    ensures r.Some? <==> x.Some? && x.value.Obj? && key in x.value.fields
    ensures r.Some? ==> r.value == x.value.fields[key]
  {
    match x
    case Some(Obj(fields)) => if key in fields then Some(fields[key]) else None
    case _ => None
  }

  /** `x?.[i]`: an array element, an object's property named by the index, or a
      one-character string. */
  function Index(x: Option<Json>, i: nat): (r: Option<Json>)
    ensures x.Some? && x.value.Arr? ==> (r.Some? <==> i < |x.value.items|)
    ensures x.Some? && x.value.Arr? && i < |x.value.items| ==> r == Some(x.value.items[i])
    ensures x.None? || x.value.Null? || x.value.Bool? || x.value.Num? ==> r.None?
  {
    match x
    case Some(Arr(items)) => if i < |items| then Some(items[i]) else None
    case Some(Obj(_)) => Member(x, NatToString(i))
    case Some(Str(s)) => if i < |s| then Some(Str([s[i]])) else None
    case _ => None
  }

  /** JavaScript truthiness: `null`, `false`, `0`, `NaN` and `""` are falsy. */
  predicate Truthy(j: Json)
    ensures Truthy(j) ==> j != Null && j != Bool(false) && j != Str([])
    ensures Truthy(j) ==> j != Num(Finite(0)) && j != Num(NotANumber)
    ensures j.Arr? || j.Obj? || j == Bool(true) || (j.Num? && j.n.Infinite?) ==> Truthy(j)
  {
    match j
    case Null => false
    case Bool(b) => b
    case Num(n) => !(n == Finite(0) || n == NotANumber)
    case Str(s) => s != []
    case Arr(_) => true
    case Obj(_) => true
  }

  predicate AllDigits(s: string) {
    |s| > 0 && forall i :: 0 <= i < |s| ==> IsDigit(s[i])
  }

  /** `Number(s)` for the string forms a token counter can plausibly take: blank
      is 0, an optionally signed run of decimal digits is its value, a signed or
      unsigned "Infinity" is infinite, and anything else is `NaN`. */
  function StringToNumber(s: string): (n: Numeric)
    ensures Trim(s) == [] ==> n == Finite(0)
    ensures n.Infinite? <==> Trim(s) == "Infinity" || Trim(s) == "+Infinity" || Trim(s) == "-Infinity"
    ensures AllDigits(Trim(s)) ==> n == Finite(DigitsValue(Trim(s)))
    ensures Trim(s) != [] && Trim(s)[0] == '+' && AllDigits(Trim(s)[1..]) ==> n == Finite(DigitsValue(Trim(s)[1..]))
    ensures Trim(s) != [] && Trim(s)[0] == '-' && AllDigits(Trim(s)[1..]) ==> n == Finite(-(DigitsValue(Trim(s)[1..]) as int))
    ensures n.Finite? && n.value < 0 ==> Trim(s) != [] && Trim(s)[0] == '-'
  {
    TrimmedNumber(Trim(s))
  }

  /** The conversion of text that `Number()` has already trimmed. */
  function TrimmedNumber(t: string): (n: Numeric)
    ensures t == [] ==> n == Finite(0)
    ensures n.Infinite? <==> t == "Infinity" || t == "+Infinity" || t == "-Infinity"
    ensures AllDigits(t) ==> n == Finite(DigitsValue(t))
    ensures t != [] && t[0] == '+' && AllDigits(t[1..]) ==> n == Finite(DigitsValue(t[1..]))
    ensures t != [] && t[0] == '-' && AllDigits(t[1..]) ==> n == Finite(-(DigitsValue(t[1..]) as int))
    ensures n.Finite? && n.value < 0 ==> t != [] && t[0] == '-'
  {
    if t == [] then Finite(0)
    else if t == "Infinity" || t == "+Infinity" || t == "-Infinity" then Infinite
    else if AllDigits(t) then Finite(DigitsValue(t))
    else if t[0] == '+' && AllDigits(t[1..]) then Finite(DigitsValue(t[1..]))
    else if t[0] == '-' && AllDigits(t[1..]) then Finite(-(DigitsValue(t[1..]) as int))
    else NotANumber
  }

  /** `Number(j)` for a parsed JSON value. An array converts through its
      `join(",")` text: the empty array reads as 0, a longer one always has a
      comma and reads as `NaN`, and a one-element array reads as the text of its
      element (empty for null, "true"/"false" for a boolean, "[object Object]"
      for an object, and the element's own rendering otherwise). */
  function ToNumber(j: Json): (n: Numeric)
    ensures j.Null? ==> n == Finite(0)
    ensures j.Bool? ==> n == Finite(if j.b then 1 else 0)
    ensures j.Num? ==> n == j.n
    ensures j.Str? ==> n == StringToNumber(j.s)
    ensures j.Obj? || (j.Arr? && |j.items| > 1) ==> n == NotANumber
    ensures j.Arr? && |j.items| == 0 ==> n == Finite(0)
    ensures j.Arr? && |j.items| == 1 && (j.items[0].Bool? || j.items[0].Obj?) ==> n == NotANumber
    ensures j.Arr? && |j.items| == 1 && !j.items[0].Bool? && !j.items[0].Obj? ==>
              n == (if j.items[0].Null? then Finite(0) else ToNumber(j.items[0]))
  {
    match j
    case Null => Finite(0)
    case Bool(b) => Finite(if b then 1 else 0)
    case Num(n) => n
    case Str(s) => StringToNumber(s)
    case Arr(items) =>
      if |items| == 0 then Finite(0)
      else if |items| > 1 then NotANumber
      else (match items[0]
            case Null => Finite(0)
            case Bool(_) => NotANumber
            case Obj(_) => NotANumber
            case _ => ToNumber(items[0]))
    case Obj(_) => NotANumber
  }

  /** `Number(x?.[key] ?? 0)`: a missing or null counter reads as 0. */
  function Counter(x: Option<Json>, key: string): (n: Numeric)
    ensures Member(x, key).None? || Member(x, key) == Some(Null) ==> n == Finite(0)
    ensures Member(x, key).Some? && Member(x, key).value != Null ==> n == ToNumber(Member(x, key).value)
    ensures forall v :: Member(x, key) == Some(Num(v)) ==> n == v
    ensures forall t :: Member(x, key) == Some(Str(t)) ==> n == StringToNumber(t)
  {
    match Member(x, key)
    case None => Finite(0)
    case Some(Null) => Finite(0)
    case Some(v) => ToNumber(v)
  }

  /** `Number(String(k))` is `k` for a whole number: its decimal text, with a
      minus sign when negative, reads back as the number, so a counter sent as
      such a string counts the same as the number itself. */
  lemma IntegerTextReadsBack(k: int)
    ensures StringToNumber(if k < 0 then "-" + NatToString(-k) else NatToString(k)) == Finite(k)
  {
    if k < 0 {
      NegativeTextReadsBack(k);
    } else {
      NaturalTextReadsBack(k);
    }
  }

  lemma NaturalTextReadsBack(k: nat)
    ensures StringToNumber(NatToString(k)) == Finite(k)
  {
    var t := NatToString(k);
    assert AllDigits(t);
    TrimOfUnpadded(t);
  }

  lemma NegativeTextReadsBack(k: int)
    requires k < 0
    ensures StringToNumber("-" + NatToString(-k)) == Finite(k)
  {
    var digits := NatToString(-k);
    assert DigitsValue(digits) == -k;
    var t := "-" + digits;
    assert AllDigits(digits);
    assert t[|t| - 1] == digits[|digits| - 1];
    assert t[1..] == digits;
    assert t[0] == '-';
    TrimOfUnpadded(t);
  }

  /** For null, booleans and numbers, a value is truthy exactly when `Number()`
      of it is neither 0 nor `NaN`. */
  lemma TruthyAgreesWithNumber(j: Json)
    ensures j.Null? || j.Bool? || j.Num? ==> (Truthy(j) <==> ToNumber(j) != Finite(0) && ToNumber(j) != NotANumber)
  {
  }
}
