/** The JavaScript values and built-ins that the components rely on, stated
    over mathematical numbers: amounts are integer cents, quotients are reals,
    and the non-finite results of a division are explicit values. */
module Js {

  datatype Option<+T> = None | Some(value: T)

  /** A JavaScript number as the components can produce one. */
  datatype Num = Finite(value: real) | PosInfinity | NegInfinity | NaN

  /** `Math.abs` on an integer amount. */
  function Abs(x: int): (r: nat)
    ensures r == x || r == -x
  {
    if x < 0 then -x else x
  }

  /** `x / y` on JavaScript numbers: a zero divisor gives an infinity or NaN. */
  function Div(x: real, y: real): (r: Num)
    ensures r == NaN <==> x == 0.0 && y == 0.0
    ensures r.Finite? <==> y != 0.0
    ensures y != 0.0 ==> r.value * y == x
    ensures y == 0.0 ==> ((r == PosInfinity <==> x > 0.0) && (r == NegInfinity <==> x < 0.0))
  {
    if y != 0.0 then Finite(x / y)
    else if x > 0.0 then PosInfinity
    else if x < 0.0 then NegInfinity
    else NaN
  }

  /** `n * c` for a positive constant `c`. */
  function Scale(n: Num, c: real): (r: Num)
    requires c > 0.0
    ensures r.Finite? <==> n.Finite?
    ensures n.Finite? ==> r.value == n.value * c
    ensures !n.Finite? ==> r == n
  {
    match n
    case Finite(v) => Finite(v * c)
    case _ => n
  }

  /** `Math.round`: the nearest integer, halves rounded towards +infinity. */
  function Round(n: Num): (r: Num)
    ensures r.Finite? <==> n.Finite?
    ensures n.Finite? ==> r.value == r.value.Floor as real
    ensures n.Finite? ==> r.value - 0.5 <= n.value < r.value + 0.5
    ensures !n.Finite? ==> r == n
  {
    match n
    case Finite(v) => Finite(((v + 0.5).Floor) as real)
    case _ => n
  }

  /** `Math.min(n, c)`: NaN wins, +infinity loses. */
  function Min(n: Num, c: real): (r: Num)
    ensures r == NaN <==> n == NaN
    ensures r.Finite? <==> n.Finite? || n == PosInfinity
    ensures r.Finite? ==> r.value <= c
    ensures n.Finite? ==> r.value == if n.value < c then n.value else c
    ensures n == PosInfinity ==> r == Finite(c)
  {
    match n
    case Finite(v) => Finite(if v < c then v else c)
    case PosInfinity => Finite(c)
    case NegInfinity => NegInfinity
    case NaN => NaN
  }

  /** Upper-casing of one character; only the ASCII letters are modelled. */
  function UpperChar(c: char): (r: char)
    ensures 'a' <= c <= 'z' ==> r as int == c as int - 32
    ensures !('a' <= c <= 'z') ==> r == c
  {
    if 'a' <= c <= 'z' then (c as int - 32) as char else c
  }

  /** Lower-casing of one character; only the ASCII letters are modelled. */
  function LowerChar(c: char): (r: char)
    ensures 'A' <= c <= 'Z' ==> r as int == c as int + 32
    ensures !('A' <= c <= 'Z') ==> r == c
  {
    if 'A' <= c <= 'Z' then (c as int + 32) as char else c
  }

  /** `s.toLowerCase()` (ASCII letters only). */
  function ToLower(s: string): (r: string)
    ensures |r| == |s|
    ensures forall i :: 0 <= i < |s| ==> r[i] == LowerChar(s[i])
  {
    seq(|s|, i requires 0 <= i < |s| => LowerChar(s[i]))
  }

  /** `s.charAt(0).toUpperCase() + s.slice(1)`. */
  function Capitalize(s: string): (r: string)
    ensures |r| == |s|
    ensures |s| > 0 ==> r[0] == UpperChar(s[0]) && r[1..] == s[1..]
  {
    if s == [] then [] else [UpperChar(s[0])] + s[1..]
  }

  /** The index at which `s.slice(0, end)` stops on a sequence of length `len`:
      a negative `end` counts from the back. */
  function SliceEnd(len: nat, end: int): (r: nat)
    ensures r <= len
    ensures end >= 0 ==> r == if end < len then end else len
    ensures end < 0 ==> r == if len + end > 0 then len + end else 0
  {
    if end >= 0 then (if end < len then end else len)
    else if len + end > 0 then len + end else 0
  }

  /** `s.slice(0, end)` on a string or an array. */
  function Prefix<T>(s: seq<T>, end: int): (r: seq<T>)
    ensures |r| == SliceEnd(|s|, end)
    ensures r == s[..|r|]
  {
    s[..SliceEnd(|s|, end)]
  }

  lemma {:induction false} CapitalizeIdempotent(s: string)
    ensures Capitalize(Capitalize(s)) == Capitalize(s)
  {
    if s != [] {
      var c := Capitalize(s);
      assert c[0] == UpperChar(s[0]);
      assert UpperChar(UpperChar(s[0])) == UpperChar(s[0]);
      assert Capitalize(c) == [UpperChar(c[0])] + c[1..];
    }
  }

  lemma ToLowerIdempotent(s: string)
    ensures ToLower(ToLower(s)) == ToLower(s)
  {
    var l := ToLower(s);
    forall i | 0 <= i < |s| ensures ToLower(l)[i] == l[i] {
      assert LowerChar(LowerChar(s[i])) == LowerChar(s[i]);
    }
  }

  /** A word written with a capital first letter and lower-case letters
      after it. */
  predicate IsCapitalizedWord(s: string) {
    && s != []
    && 'A' <= s[0] <= 'Z'
    && forall i :: 1 <= i < |s| ==> 'a' <= s[i] <= 'z'
  }

  /** Lower-casing such a word and then capitalising it gives it back. */
  lemma CapitalizeLower(s: string)
    requires IsCapitalizedWord(s)
    ensures Capitalize(ToLower(s)) == s
  {
    var l := ToLower(s);
    assert UpperChar(l[0]) == s[0];
    assert l[1..] == s[1..];
  }
}
