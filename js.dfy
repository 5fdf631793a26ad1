/**
 * JavaScript values as the client handles them: JSON-shaped data, numbers
 * reduced to integers and NaN, and the conversions `Boolean(v)`,
 * `String(v)` and `Number(s)` that the source applies to them.
 */
module Js {
  import opened Wrappers
  import opened Records
  import Decimal
  import Strings

  /** `Number.MAX_SAFE_INTEGER`, 2^53 - 1. */
  const MaxSafeInteger: int := 9007199254740991

  /** A JavaScript number: an integer, or NaN. */
  datatype Number = Int(i: int) | NaN

  /** A JSON-shaped JavaScript value; objects are ordered records. */
  datatype Value =
    | Null
    | Bool(b: bool)
    | Num(n: Number)
    | Str(s: string)
    | Arr(items: seq<Value>)
    | Obj(fields: Record<Value>)

  /**
   * `Boolean(v)`, with `None` standing for `undefined`: exactly undefined,
   * null, false, 0, NaN and "" are falsy (section 7.1.2 of ECMA-262).
   */
  predicate Truthy(v: Option<Value>): (b: bool)
    ensures !b <==> v.None? || v.value in {Null, Bool(false), Num(Int(0)), Num(NaN), Str("")}
  {
    match v
    case None => false
    case Some(Null) => false
    case Some(Bool(b)) => b
    case Some(Num(n)) => n.Int? && n.i != 0
    case Some(Str(s)) => s != ""
    case Some(Arr(_)) => true
    case Some(Obj(_)) => true
  }

  /** `String(n)` for a number: optional minus sign, then canonical digits. */
  function NumberText(n: Number): (s: string)
    ensures |s| > 0
    ensures n.NaN? <==> s == "NaN"
    ensures n.Int? && n.i >= 0 ==> Decimal.Canonical(s) && Decimal.Value(s) == n.i
    ensures n.Int? && n.i < 0 ==> s[0] == '-' && Decimal.Canonical(s[1..]) && Decimal.Value(s[1..]) == -n.i
    ensures n.Int? ==> forall i :: 0 <= i < |s| ==> Decimal.IsDigit(s[i]) || (i == 0 && s[i] == '-')
  {
    match n
    case NaN => "NaN"
    case Int(i) =>
      if i < 0 then
        Decimal.ValueFromNat(-i);
        var s := "-" + Decimal.FromNat(-i);
        assert s[0] != "NaN"[0];
        assert s[1..] == Decimal.FromNat(-i);
        assert forall k :: 1 <= k < |s| ==> s[k] == s[1..][k - 1];
        s
      else
        Decimal.ValueFromNat(i);
        var s := Decimal.FromNat(i);
        assert s[0] != "NaN"[0];
        s
  }

  /**
   * `String(v)`: a string is itself, an object is "[object Object]", an
   * array is its elements' texts joined by "," with null shown as "".
   */
  function ToText(v: Value): (t: string)
    ensures v.Str? ==> t == v.s
    ensures v.Obj? ==> t == "[object Object]"
    ensures v.Num? ==> t == NumberText(v.n)
    ensures v.Null? ==> t == "null"
    ensures v.Bool? ==> t == if v.b then "true" else "false"
    ensures v.Arr? ==> t == JoinItems(v.items)
    decreases v, 0
  {
    match v
    case Null => "null"
    case Bool(b) => if b then "true" else "false"
    case Num(n) => NumberText(n)
    case Str(s) => s
    case Obj(_) => "[object Object]"
    case Arr(items) => JoinItems(items)
  }

  /** The text of one array item: a null item is shown as "". */
  function ItemText(v: Value): (t: string)
    ensures v.Null? ==> t == ""
    ensures !v.Null? ==> t == ToText(v)
    decreases v, 1
  {
    if v.Null? then "" else ToText(v)
  }

  /** The texts of `items` separated by ","; a null item contributes nothing. */
  function JoinItems(items: seq<Value>): (t: string)
    ensures items == [] ==> t == ""
    ensures |items| == 1 ==> t == ItemText(items[0])
    ensures |items| > 1 ==> t == ItemText(items[0]) + "," + JoinItems(items[1..])
    decreases items
  {
    if items == [] then ""
    else
      var first := ItemText(items[0]);
      if |items| == 1 then first else first + "," + JoinItems(items[1..])
  }

  /** `t` without one leading "+" or "-". */
  function Unsigned(t: string): (d: string)
    ensures t != "" && (t[0] == '+' || t[0] == '-') ==> d == t[1..]
    ensures t == "" || (t[0] != '+' && t[0] != '-') ==> d == t
  {
    if t != "" && (t[0] == '+' || t[0] == '-') then t[1..] else t
  }

  /**
   * `Number(s)` on the strings this model covers (section 7.1.4.1 of
   * ECMA-262): white space around the text is ignored, a blank text is 0,
   * an optionally signed string of decimal digits of size up to
   * `MaxSafeInteger` is its value (leading zeros ignored), and every other
   * string is NaN.
   */
  function ToNumber(s: string): (n: Number)
    ensures Strings.Trim(s) == "" ==> n == Int(0)
    ensures n.Int? ==> -MaxSafeInteger <= n.i <= MaxSafeInteger
    ensures var t := Strings.Trim(s);
      n.Int? && t != "" ==> Unsigned(t) != "" && Decimal.AllDigits(Unsigned(t))
    ensures var t := Strings.Trim(s);
      t != "" && Decimal.AllDigits(t) && Decimal.Value(t) <= MaxSafeInteger ==> n == Int(Decimal.Value(t))
    ensures var t := Strings.Trim(s);
      && |t| > 1 && t[0] == '-' && Decimal.AllDigits(t[1..]) && Decimal.Value(t[1..]) <= MaxSafeInteger
      ==> n == Int(-(Decimal.Value(t[1..]) as int))
    ensures var t := Strings.Trim(s);
      && |t| > 1 && t[0] == '+' && Decimal.AllDigits(t[1..]) && Decimal.Value(t[1..]) <= MaxSafeInteger
      ==> n == Int(Decimal.Value(t[1..]))
    ensures var t := Strings.Trim(s);
      n.Int? && t != "" ==> n.i == if t[0] == '-' then -(Decimal.Value(Unsigned(t)) as int) else Decimal.Value(Unsigned(t))
  {
    var t := Strings.Trim(s);
    var d := Unsigned(t);
    if t == "" then Int(0)
    else if d != "" && Decimal.AllDigits(d) && Decimal.Value(d) <= MaxSafeInteger then
      if t[0] == '-' then Int(-(Decimal.Value(d) as int)) else Int(Decimal.Value(d))
    else NaN
  }

  /** `Number(s)` sees `s` only through its trimmed text. */
  lemma SameTrimSameNumber(a: string, b: string)
    requires Strings.Trim(a) == Strings.Trim(b)
    ensures ToNumber(a) == ToNumber(b)
  {
  }

  /** A digit string has no white space to trim. */
  lemma TrimDigits(s: string)
    requires Decimal.AllDigits(s)
    ensures Strings.Trim(s) == s
  {
    assert "" + s + "" == s;
    Strings.TrimPadded("", s, "");
  }

  /** A digit string, once converted and printed, loses exactly its leading zeros. */
  lemma NumberTextOfDigits(s: string)
    requires s != "" && Decimal.AllDigits(s) && Decimal.Value(s) <= MaxSafeInteger
    ensures NumberText(ToNumber(s)) == Decimal.StripZeros(s)
  {
    TrimDigits(s);
    Decimal.FromNatValueStrips(s);
  }

  /** Printing a safe integer and converting it back gives it again. */
  lemma ToNumberOfText(n: int)
    requires -MaxSafeInteger <= n <= MaxSafeInteger
    ensures ToNumber(NumberText(Int(n))) == Int(n)
  {
    var s := NumberText(Int(n));
    if n >= 0 {
      TrimDigits(s);
    } else {
      assert "" + s + "" == s;
      Strings.TrimPadded("", s, "");
    }
  }

  /**
   * The characters a string `Number` accepts can hold: digits, white
   * space, signs, the decimal point, and the letters of exponents, radix
   * prefixes, hexadecimal digits and "Infinity".
   */
  predicate NumeralChar(c: char) {
    Decimal.IsDigit(c) || Strings.IsWhiteSpace(c) || c == '+' || c == '-' || c == '.'
    || 'a' <= c <= 'z' || 'A' <= c <= 'Z'
  }

  /** A string with a character that no number text holds converts to NaN. */
  lemma NonNumeralIsNaN(s: string, i: nat)
    requires i < |s| && !NumeralChar(s[i])
    ensures ToNumber(s) == NaN
  {
    var t := Strings.Trim(s);
    var lead := Strings.SkipLeading(s, 0);
    assert forall j :: 0 <= j < lead ==> s[..lead][j] == s[j];
    assert forall j :: lead + |t| <= j < |s| ==> s[lead + |t|..][j - lead - |t|] == s[j];
    assert lead <= i < lead + |t|;
    assert t[i - lead] == s[i];
    var d := Unsigned(t);
    if i == lead {
      assert d == t && !Decimal.IsDigit(d[0]);
    } else {
      assert d[i - lead - |t| + |d|] == s[i];
    }
  }
}
