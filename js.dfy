/** The few JavaScript built-ins the application code leans on, stated over Dafny values:
    nullable values, truthiness, `Array.prototype.find`, `String.prototype.trim`,
    `toLowerCase`, `includes`, and the IEEE special values of `number` that the
    arithmetic helpers can produce (amounts themselves are reals). */
module Js {

  /** `T | null` (and `undefined`) */
  datatype Option<+T> = None | Some(value: T)

  /** Truthiness of a possibly missing string: `null`, `undefined` and `''` are falsy. */
  predicate Truthy(s: Option<string>) {
    s.Some? && s.value != ""
  }

  /** `s || fallback` on a possibly missing string */
  function OrElse(s: Option<string>, fallback: string): string {
    if Truthy(s) then s.value else fallback
  }

  /** `o ?? fallback` */
  function GetOr<T>(o: Option<T>, fallback: T): T {
    if o.Some? then o.value else fallback
  }

  // ---------------------------------------------------------------------------------------
  // Array.prototype.find

  /** Index of the element `find(p)` returns: the first one satisfying `p`. */
  function FindIndex<T>(s: seq<T>, p: T -> bool): (r: Option<nat>)
    ensures r.Some? ==> r.value < |s| && p(s[r.value])
    ensures r.Some? ==> forall j :: 0 <= j < r.value ==> !p(s[j])
    ensures r.None? ==> forall j :: 0 <= j < |s| ==> !p(s[j])
  {
    if s == [] then None
    else if p(s[0]) then Some(0)
    else
      match FindIndex(s[1..], p)
      case None => None
      case Some(k) => Some(k + 1)
  }

  /** `s.find(p)`, `undefined` being `None` */
  function Find<T>(s: seq<T>, p: T -> bool): (r: Option<T>)
    ensures r.Some? ==> exists i :: (0 <= i < |s| && s[i] == r.value && p(s[i])
                                     && forall j :: 0 <= j < i ==> !p(s[j]))
    ensures r.None? ==> forall j :: 0 <= j < |s| ==> !p(s[j])
  {
    match FindIndex(s, p)
    case None => None
    case Some(k) => Some(s[k])
  }

  // ---------------------------------------------------------------------------------------
  // Strings

  predicate StartsWith(s: string, prefix: string) {
    |prefix| <= |s| && s[..|prefix|] == prefix
  }

  /** `hay.includes(needle)` */
  predicate Includes(hay: string, needle: string)
    decreases |hay|
  {
    StartsWith(hay, needle) || (hay != [] && Includes(hay[1..], needle))
  }

  /** `needle` occurs in `hay` at offset `k`. */
  predicate OccursAt(hay: string, needle: string, k: int) {
    0 <= k && k + |needle| <= |hay| && hay[k..k + |needle|] == needle
  }

  /** `includes` holds exactly when the needle occurs at some offset. */
  lemma {:induction false} IncludesIffOccurs(hay: string, needle: string)
    ensures Includes(hay, needle) <==> exists k :: OccursAt(hay, needle, k)
    decreases |hay|
  {
    if StartsWith(hay, needle) {
      assert OccursAt(hay, needle, 0);
    } else if hay == [] {
    } else {
      var tail := hay[1..];
      IncludesIffOccurs(tail, needle);
      if exists k :: OccursAt(hay, needle, k) {
        var k :| OccursAt(hay, needle, k);
        assert k != 0;
        assert tail[k - 1..k - 1 + |needle|] == hay[k..k + |needle|];
        assert OccursAt(tail, needle, k - 1);
      }
      if Includes(tail, needle) {
        var k :| OccursAt(tail, needle, k);
        assert hay[k + 1..k + 1 + |needle|] == tail[k..k + |needle|];
        assert OccursAt(hay, needle, k + 1);
      }
    }
  }

  /** `toLowerCase` on one character; only the ASCII letters are folded. */
  function LowerChar(c: char): char {
    if 'A' <= c <= 'Z' then (c as int + 32) as char else c
  }

  function Lower(s: string): (r: string)
    ensures |r| == |s|
    ensures forall i :: 0 <= i < |s| ==> r[i] == LowerChar(s[i])
  {
    seq(|s|, i requires 0 <= i < |s| => LowerChar(s[i]))
  }

  /** The characters `String.prototype.trim` removes: WhiteSpace and LineTerminator. */
  predicate IsWhitespace(c: char) {
    c == '\t' || c == '\n' || c == '\U{B}' || c == '\U{C}' || c == '\r' || c == ' '
    || c == '\U{A0}' || c == '\U{1680}' || ('\U{2000}' <= c <= '\U{200A}')
    || c == '\U{2028}' || c == '\U{2029}' || c == '\U{202F}' || c == '\U{205F}'
    || c == '\U{3000}' || c == '\U{FEFF}'
  }

  function TrimStart(s: string): (r: string)
    ensures |r| <= |s| && r == s[|s| - |r|..]
    ensures r == [] || !IsWhitespace(r[0])
    ensures forall i :: 0 <= i < |s| - |r| ==> IsWhitespace(s[i])
  {
    if s != [] && IsWhitespace(s[0]) then TrimStart(s[1..]) else s
  }

  function TrimEnd(s: string): (r: string)
    ensures |r| <= |s| && r == s[..|r|]
    ensures r == [] || !IsWhitespace(r[|r| - 1])
    ensures forall i :: |r| <= i < |s| ==> IsWhitespace(s[i])
  {
    if s != [] && IsWhitespace(s[|s| - 1]) then TrimEnd(s[..|s| - 1]) else s
  }

  /** `s.trim()`: the longest infix of `s` with no whitespace at either end. */
  function Trim(s: string): (r: string)
    ensures r == [] || (!IsWhitespace(r[0]) && !IsWhitespace(r[|r| - 1]))
    ensures exists a, b :: (0 <= a <= b <= |s| && r == s[a..b]
      && forall i :: 0 <= i < |s| && (i < a || b <= i) ==> IsWhitespace(s[i]))
  {
    TrimBounds(s);
    TrimEnd(TrimStart(s))
  }

  /** Where the two trims cut `s`. */
  lemma TrimBounds(s: string)
    ensures var a := |s| - |TrimStart(s)|;
      var b := a + |TrimEnd(TrimStart(s))|;
      0 <= a <= b <= |s| && TrimEnd(TrimStart(s)) == s[a..b]
      && forall i :: 0 <= i < |s| && (i < a || b <= i) ==> IsWhitespace(s[i])
  {
    var t := TrimStart(s);
    var r := TrimEnd(t);
    var a, b := |s| - |t|, |s| - |t| + |r|;
    assert s[a..b] == t[..|r|];
    forall i | b <= i < |s|
      ensures IsWhitespace(s[i])
    {
      assert s[i] == t[i - a];
    }
  }

  lemma TrimKeepsTrimmed(s: string)
    requires s == [] || (!IsWhitespace(s[0]) && !IsWhitespace(s[|s| - 1]))
    ensures Trim(s) == s
  {
  }

  lemma TrimIdempotent(s: string)
    ensures Trim(Trim(s)) == Trim(s)
  {
    TrimKeepsTrimmed(Trim(s));
  }

  // ---------------------------------------------------------------------------------------
  // number

  /** A JavaScript `number` as far as these helpers need it. */
  datatype Number = Finite(value: real) | NaN | Infinity(negative: bool)

  /** `a / b` on finite operands (no signed zero) */
  function Div(a: real, b: real): Number {
    if b != 0.0 then Finite(a / b)
    else if a > 0.0 then Infinity(false)
    else if a < 0.0 then Infinity(true)
    else NaN
  }

  /** `n * k` for a positive constant `k` */
  function Scale(n: Number, k: real): Number
    requires k > 0.0
  {
    match n
    case Finite(v) => Finite(v * k)
    case _ => n
  }

  /** `Math.min(a, b)`: NaN if either is NaN */
  function Min(a: Number, b: Number): Number {
    if a.NaN? || b.NaN? then NaN
    else if a == Infinity(true) || b == Infinity(false) then a
    else if b == Infinity(true) || a == Infinity(false) then b
    else if a.value <= b.value then a
    else b
  }

  function MinReal(a: real, b: real): real {
    if a <= b then a else b
  }

  function MaxReal(a: real, b: real): real {
    if a >= b then a else b
  }
}
