/** The few `zod` checks the validators use, over the values a JSON body or a
    form can hold. Each check reports the problems it finds as issues; a
    schema accepts an object exactly when no field reports one. */
module Zod {
  import opened Calendar

  /** A field of a parsed body or of a form. Numbers are amounts in cents;
      `NotANumber` is what coercing a non-numeric input gives. */
  datatype Value =
    | Str(s: string)
    | Number(n: int)
    | NotANumber
    | DateValue(d: DateTime)
    | InvalidDate
    | Missing

  datatype IssueKind = Required | InvalidType | TooSmall(minimum: nat) | NotPositive | Negative | Refinement

  datatype Issue = Issue(path: string, kind: IssueKind)

  /** `z.string()`, with `.min(minimum)` when `minimum > 0`. */
  function StringIssues(path: string, v: Value, minimum: nat): (r: seq<Issue>)
    ensures r == [] <==> v.Str? && |v.s| >= minimum
    ensures |r| <= 1
    ensures forall i :: 0 <= i < |r| ==> r[i].path == path
  {
    match v
    case Str(s) => if |s| < minimum then [Issue(path, TooSmall(minimum))] else []
    case Missing => [Issue(path, Required)]
    case _ => [Issue(path, InvalidType)]
  }

  /** `z.string().refine(ok)`: the refinement runs only on a string. */
  function RefinedStringIssues(path: string, v: Value, ok: string -> bool): (r: seq<Issue>)
    ensures r == [] <==> v.Str? && ok(v.s)
    ensures |r| <= 1
    ensures forall i :: 0 <= i < |r| ==> r[i].path == path
  {
    match v
    case Str(s) => if ok(s) then [] else [Issue(path, Refinement)]
    case Missing => [Issue(path, Required)]
    case _ => [Issue(path, InvalidType)]
  }

  /** `z.number().positive()`. */
  function PositiveIssues(path: string, v: Value): (r: seq<Issue>)
    ensures r == [] <==> v.Number? && v.n > 0
    ensures |r| <= 1
    ensures forall i :: 0 <= i < |r| ==> r[i].path == path
  {
    match v
    case Number(n) => if n > 0 then [] else [Issue(path, NotPositive)]
    case Missing => [Issue(path, Required)]
    case _ => [Issue(path, InvalidType)]
  }

  /** `z.number().nonnegative()`. */
  function NonNegativeIssues(path: string, v: Value): (r: seq<Issue>)
    ensures r == [] <==> v.Number? && v.n >= 0
    ensures |r| <= 1
    ensures forall i :: 0 <= i < |r| ==> r[i].path == path
  {
    match v
    case Number(n) => if n >= 0 then [] else [Issue(path, Negative)]
    case Missing => [Issue(path, Required)]
    case _ => [Issue(path, InvalidType)]
  }

  /** `z.date()`: a valid `Date` object. */
  function DateIssues(path: string, v: Value): (r: seq<Issue>)
    ensures r == [] <==> v.DateValue?
    ensures |r| <= 1
    ensures forall i :: 0 <= i < |r| ==> r[i].path == path
  {
    match v
    case DateValue(_) => []
    case Missing => [Issue(path, Required)]
    case _ => [Issue(path, InvalidType)]
  }

  /** Some issue names the field `path`. */
  predicate Reports(r: seq<Issue>, path: string) {
    exists i :: 0 <= i < |r| && r[i].path == path
  }

  /** The issues of two lists of checks name a field exactly when one of the
      lists does. */
  lemma ReportsConcat(a: seq<Issue>, b: seq<Issue>, path: string)
    ensures Reports(a + b, path) <==> Reports(a, path) || Reports(b, path)
  {
    if Reports(a + b, path) {
      var i :| 0 <= i < |a + b| && (a + b)[i].path == path;
      if i >= |a| {
        assert b[i - |a|] == (a + b)[i];
      }
    }
    if Reports(a, path) {
      var i :| 0 <= i < |a| && a[i].path == path;
      assert (a + b)[i] == a[i];
    }
    if Reports(b, path) {
      var i :| 0 <= i < |b| && b[i].path == path;
      assert (a + b)[|a| + i] == b[i];
    }
  }

  /** A single check names its own field when it fails, and no other. */
  lemma ReportsOwn(r: seq<Issue>, path: string, other: string)
    requires |r| <= 1
    requires forall i :: 0 <= i < |r| ==> r[i].path == path
    ensures Reports(r, other) <==> r != [] && other == path
  {
    if r != [] {
      assert r[0].path == path;
    }
  }
}
