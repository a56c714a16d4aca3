/**
 * The JavaScript built-ins the application leans on: values as they flow
 * through forms and the schema, `Number(...)`, `String(...)`, truthiness,
 * `String.prototype.split`, string indexing and `String.prototype.includes`.
 */
module Js {
  import opened Wrappers

  /** A JavaScript number: NaN or a finite value. Infinities are not modelled. */
  datatype Number = NaN | Finite(value: real)

  /** The JavaScript values that reach the schema and `FormData`. */
  datatype JsValue = Undefined | Null | Bool(b: bool) | Num(n: Number) | Str(s: string)

  /** Truthiness, as tested by `!v`, `v || w` and `v && w`. */
  predicate Truthy(v: JsValue)
    ensures !Truthy(v) <==> v in {Undefined, Null, Bool(false), Num(NaN), Num(Finite(0.0)), Str("")}
  {
    match v
    case Undefined => false
    case Null => false
    case Bool(b) => b
    case Num(n) => n.Finite? && n.value != 0.0
    case Str(s) => s != ""
  }

  // ---------------------------------------------------------------------
  // Number(string): decimal literals only

  predicate IsDigit(c: char) { '0' <= c <= '9' }

  /** The white space `Number(...)` strips (a subset of what JavaScript strips). */
  predicate IsSpace(c: char) { c == ' ' || c == '\t' || c == '\n' || c == '\r' }

  predicate AllDigits(s: string) { forall i :: 0 <= i < |s| ==> IsDigit(s[i]) }

  function DigitOf(c: char): nat
    requires IsDigit(c)
  {
    c as int - '0' as int
  }

  function TrimStart(s: string): (r: string)
    ensures |r| <= |s| && r == s[|s| - |r|..]
    ensures r == [] || !IsSpace(r[0])
    ensures forall i :: 0 <= i < |s| - |r| ==> IsSpace(s[i])
  {
    if s != [] && IsSpace(s[0]) then TrimStart(s[1..]) else s
  }

  function TrimEnd(s: string): (r: string)
    ensures |r| <= |s| && r == s[..|r|]
    ensures r == [] || !IsSpace(r[|r| - 1])
    ensures forall i :: |r| <= i < |s| ==> IsSpace(s[i])
  {
    if s != [] && IsSpace(s[|s| - 1]) then TrimEnd(s[..|s| - 1]) else s
  }

  function Trim(s: string): string
  {
    TrimEnd(TrimStart(s))
  }

  /** The value of a run of decimal digits, most significant first. */
  function DigitsValue(ds: string): nat
    requires AllDigits(ds)
  {
    if ds == [] then 0 else DigitsValue(ds[..|ds| - 1]) * 10 + DigitOf(ds[|ds| - 1])
  }

  /** The value of the digits after a decimal point. */
  function FractionValue(ds: string): real
    requires AllDigits(ds)
  {
    if ds == [] then 0.0 else (DigitOf(ds[0]) as real + FractionValue(ds[1..])) / 10.0
  }

  /** The first index of `c` in `s`, or `|s|` when there is none. */
  function IndexOf(s: string, c: char): (i: nat)
    ensures i <= |s|
    ensures i < |s| ==> s[i] == c
    ensures forall j :: 0 <= j < i ==> s[j] != c
  {
    if s == [] then 0 else if s[0] == c then 0 else 1 + IndexOf(s[1..], c)
  }

  /** An unsigned decimal literal: digits, optionally one point, at least one digit. */
  function UnsignedDecimal(t: string): Number
  {
    var k := IndexOf(t, '.');
    var whole := t[..k];
    var frac := if k < |t| then t[k + 1..] else [];
    if AllDigits(whole) && AllDigits(frac) && |whole| + |frac| > 0
    then Finite(DigitsValue(whole) as real + FractionValue(frac))
    else NaN
  }

  function Negate(n: Number): Number
  {
    match n
    case NaN => NaN
    case Finite(x) => Finite(-x)
  }

  /** `Number(s)` for a string: blank gives 0, a decimal literal its value, anything else NaN. */
  function StringToNumber(s: string): Number
  {
    var t := Trim(s);
    if t == [] then Finite(0.0)
    else if t[0] == '-' then Negate(UnsignedDecimal(t[1..]))
    else if t[0] == '+' then UnsignedDecimal(t[1..])
    else UnsignedDecimal(t)
  }

  /** `Number(text)`: blank text is 0, and a run of digits between white space is its decimal value. */
  lemma DigitTextNumber(s: string)
    ensures Trim(s) == [] ==> StringToNumber(s) == Finite(0.0)
    ensures Trim(s) != [] && AllDigits(Trim(s)) ==> StringToNumber(s) == Finite(DigitsValue(Trim(s)) as real)
  {
    DigitRunValue(Trim(s));
  }

  /** A non-empty run of digits has no sign and no point, so it reads as its digit value. */
  lemma DigitRunValue(t: string)
    ensures t != [] && AllDigits(t) ==>
      t[0] != '-' && t[0] != '+' && UnsignedDecimal(t) == Finite(DigitsValue(t) as real)
  {
    if t != [] && AllDigits(t) {
      assert IsDigit(t[0]);
      assert forall j :: 0 <= j < |t| ==> t[j] != '.';
      assert t[..IndexOf(t, '.')] == t;
    }
  }

  /** `Number(v)`. */
  function ToNumber(v: JsValue): Number
  {
    match v
    case Undefined => NaN
    case Null => Finite(0.0)
    case Bool(b) => Finite(if b then 1.0 else 0.0)
    case Num(n) => n
    case Str(s) => StringToNumber(s)
  }

  // ---------------------------------------------------------------------
  // String(v)

  /**
   * `String(v)`. Printing a number is JavaScript's shortest round-trip
   * float formatting, which this model takes as the parameter `numberText`.
   */
  function ToText(v: JsValue, numberText: real -> string): string
  {
    match v
    case Undefined => "undefined"
    case Null => "null"
    case Bool(b) => if b then "true" else "false"
    case Num(n) => if n.NaN? then "NaN" else numberText(n.value)
    case Str(s) => s
  }

  /** A string's `length` in JavaScript: UTF-16 code units, two for a character above U+FFFF. */
  function Utf16Length(s: string): (n: nat)
    ensures |s| <= n <= 2 * |s|
    ensures (forall i :: 0 <= i < |s| ==> s[i] as int <= 0xFFFF) ==> n == |s|
  {
    if s == [] then 0 else (if s[0] as int > 0xFFFF then 2 else 1) + Utf16Length(s[1..])
  }

  function DigitChar(d: nat): (c: char)
    requires d < 10
    ensures IsDigit(c) && DigitOf(c) == d
  {
    ('0' as int + d) as char
  }

  /**
   * The decimal digits of a whole number. JavaScript prints this form for
   * whole numbers below 10^21 and switches to exponent notation above.
   */
  function IntegerText(n: nat): (s: string)
    ensures s != [] && AllDigits(s)
  {
    if n < 10 then [DigitChar(n)] else IntegerText(n / 10) + [DigitChar(n % 10)]
  }

  lemma {:induction false} IntegerTextValue(n: nat)
    ensures DigitsValue(IntegerText(n)) == n
  {
    if n >= 10 {
      var s := IntegerText(n);
      IntegerTextValue(n / 10);
      assert s[..|s| - 1] == IntegerText(n / 10);
    }
  }

  /** `Number(String(n))` gives back `n` for every whole number this model prints. */
  lemma IntegerTextReadsBack(n: nat)
    ensures StringToNumber(IntegerText(n)) == Finite(n as real)
  {
    var s := IntegerText(n);
    assert !IsSpace(s[0]) && !IsSpace(s[|s| - 1]);
    assert TrimStart(s) == s;
    assert Trim(s) == s;
    assert s[0] != '-' && s[0] != '+';
    assert forall j :: 0 <= j < |s| ==> s[j] != '.';
    assert IndexOf(s, '.') == |s|;
    assert s[..|s|] == s;
    IntegerTextValue(n);
  }

  // ---------------------------------------------------------------------
  // split, indexing, includes

  /** `s.split(sep)` for a one-character separator. */
  function Split(s: string, sep: char): (pieces: seq<string>)
    ensures |pieces| >= 1
    ensures forall k :: 0 <= k < |pieces| ==> sep !in pieces[k]
    ensures sep !in s ==> pieces == [s]
    ensures sep in s ==> |pieces| > 1
    decreases |s|
  {
    var i := IndexOf(s, sep);
    if i == |s| then [s] else [s[..i]] + Split(s[i + 1..], sep)
  }

  /** `pieces.join(sep)`, the inverse of `Split`. */
  function Join(pieces: seq<string>, sep: char): string
    requires |pieces| >= 1
  {
    if |pieces| == 1 then pieces[0] else pieces[0] + [sep] + Join(pieces[1..], sep)
  }

  /** Joining a head onto at least one more piece puts the separator between them. */
  lemma JoinCons(head: string, rest: seq<string>, sep: char)
    requires |rest| >= 1
    ensures Join([head] + rest, sep) == head + [sep] + Join(rest, sep)
  {
    var pieces := [head] + rest;
    assert pieces[0] == head && pieces[1..] == rest;
  }

  lemma {:induction false} SplitJoin(s: string, sep: char)
    ensures Join(Split(s, sep), sep) == s
    decreases |s|
  {
    var i := IndexOf(s, sep);
    if i < |s| {
      var tail := s[i + 1..];
      Recompose(s, i);
      SplitCons(s, sep);
      JoinCons(s[..i], Split(tail, sep), sep);
      SplitJoin(tail, sep);
    }
  }
  /** Cutting around one character and gluing it back gives the text. */
  lemma Recompose(s: string, i: int)
    requires 0 <= i < |s|
    ensures s[..i] + [s[i]] + s[i + 1..] == s
  {}
  /** Text with a separator splits into the piece before it and the split of the rest. */
  lemma SplitCons(s: string, sep: char)
    requires IndexOf(s, sep) < |s|
    ensures Split(s, sep) == [s[..IndexOf(s, sep)]] + Split(s[IndexOf(s, sep) + 1..], sep)
  {}
  /** Splitting text whose first separator closes the piece `head`. */
  lemma SplitAfterHead(head: string, sep: char, tail: string)
    requires sep !in head
    ensures Split(head + [sep] + tail, sep) == [head] + Split(tail, sep)
  {
    var s := head + [sep] + tail;
    assert IndexOf(s, sep) == |head| by {
      assert s[|head|] == sep;
      assert forall j :: 0 <= j < |head| ==> s[j] == head[j] && s[j] != sep;
    }
    assert s[..|head|] == head;
    assert s[|head| + 1..] == tail;
  }

  /** `s[i]`: a character, or `undefined` out of range. */
  function CharAt(s: string, i: int): (c: Option<char>)
    ensures c.Some? <==> 0 <= i < |s|
    ensures c.Some? ==> c.value == s[i]
  {
    if 0 <= i < |s| then Some(s[i]) else None
  }

  /** What a template literal `${c}` prints for `s[i]`. */
  function TemplateText(c: Option<char>): string
  {
    match c
    case Some(ch) => [ch]
    case None => "undefined"
  }

  predicate IsPrefix(p: string, s: string)
  {
    |p| <= |s| && s[..|p|] == p
  }

  /** `s.includes(sub)`. */
  predicate Includes(s: string, sub: string)
    ensures Includes(s, sub) ==> |sub| <= |s|
    ensures IsPrefix(sub, s) ==> Includes(s, sub)
  {
    assert s[0..] == s;
    exists i :: 0 <= i <= |s| - |sub| && IsPrefix(sub, s[i..])
  }
}
