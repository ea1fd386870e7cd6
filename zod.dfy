/**
 * The part of zod the request schemas use, as an interpreter: strings with length and
 * e-mail checks, numbers (optionally coerced with `Number(...)`) with integer and minimum
 * checks, optional properties and objects. Every check runs and reports its own issue.
 */
module Zod {
  import opened Wrappers
  import opened Text
  import opened Json
  import Http

  datatype Check =
    /** `.min(n)` on a string: at least n characters. */
    | MinLength(n: nat)
    /** `.length(n)` on a string: exactly n characters. */
    | ExactLength(n: nat)
    /** `.email()` on a string. */
    | EmailFormat
    /** `.int()` on a number: a safe integer. */
    | SafeInteger
    /** `.min(x)` on a number: at least x. */
    | AtLeast(bound: real)

  datatype Schema =
    | ZString(checks: seq<Check>)
    /** `z.number()`, or `z.coerce.number()` when `coerce` is set. */
    | ZNumber(coerce: bool, checks: seq<Check>)
    | ZOptional(inner: Schema)
    | ZObject(fields: seq<Field>)

  datatype Field = Field(key: string, schema: Schema)

  datatype IssueCode = InvalidType | TooSmall | TooBig | InvalidFormat

  /** One reported problem and the property path it is at. */
  datatype Issue = Issue(path: seq<string>, code: IssueCode)

  /** 2^53 - 1, `Number.MAX_SAFE_INTEGER`. */
  const MaxSafeInteger: real := 9007199254740991.0

  function Concat<T>(parts: seq<seq<T>>): (r: seq<T>)
    ensures r == [] <==> forall i :: 0 <= i < |parts| ==> parts[i] == []
    ensures forall i, x :: 0 <= i < |parts| && x in parts[i] ==> x in r
  {
    if parts == [] then [] else parts[0] + Concat(parts[1..])
  }

  /** `Number(v)`; None is NaN. A one-element array converts as its element's text. */
  function ToNumber(v: Value): Option<real>
  {
    match v
    case Null => Some(0.0)
    case Bool(b) => Some(if b then 1.0 else 0.0)
    case Num(n) => Some(n)
    case Str(s) => NumberOf(s)
    case Arr(items) =>
      if |items| == 0 then Some(0.0)
      // "true" and "false" are not numbers.
      else if |items| == 1 then (if items[0].Bool? then None else ToNumber(items[0]))
      else None
    case Obj(_) => None
  }

  /** The issue a string check reports, if it fails. */
  function StringCheck(c: Check, s: string, isEmail: string -> bool): Option<IssueCode>
  {
    match c
    case MinLength(n) => if |s| < n then Some(TooSmall) else None
    case ExactLength(n) => if |s| < n then Some(TooSmall) else if |s| > n then Some(TooBig) else None
    case EmailFormat => if isEmail(s) then None else Some(InvalidFormat)
    case SafeInteger => None
    case AtLeast(_) => None
  }

  /** The issue a number check reports, if it fails. */
  function NumberCheck(c: Check, x: real): Option<IssueCode>
  {
    match c
    case SafeInteger =>
      if !Http.Integral(x) then Some(InvalidType)
      else if x > MaxSafeInteger then Some(TooBig)
      else if x < -MaxSafeInteger then Some(TooSmall)
      else None
    case AtLeast(bound) => if x < bound then Some(TooSmall) else None
    case MinLength(_) => None
    case ExactLength(_) => None
    case EmailFormat => None
  }

  function AsIssues(code: Option<IssueCode>, path: seq<string>): seq<Issue>
  {
    if code.Some? then [Issue(path, code.value)] else []
  }

  /** The number a number schema tests: the value itself, or `Number(value)` with coercion; `undefined` is NaN. */
  function NumberInput(coerce: bool, v: Option<Value>): Option<real>
  {
    if v.None? then None
    else if coerce then ToNumber(v.value)
    else if v.value.Num? then Some(v.value.n)
    else None
  }

  /** The issues of parsing `v` (None is `undefined`) at `path`; the parse succeeds when there are none. */
  function Issues(schema: Schema, v: Option<Value>, path: seq<string>, isEmail: string -> bool): seq<Issue>
    decreases schema
  {
    match schema
    case ZString(checks) =>
      if v.Some? && v.value.Str? then
        Concat(seq(|checks|, i requires 0 <= i < |checks| => AsIssues(StringCheck(checks[i], v.value.s, isEmail), path)))
      else [Issue(path, InvalidType)]
    case ZNumber(coerce, checks) =>
      var x := NumberInput(coerce, v);
      if x.None? then [Issue(path, InvalidType)]
      else Concat(seq(|checks|, i requires 0 <= i < |checks| => AsIssues(NumberCheck(checks[i], x.value), path)))
    case ZOptional(inner) =>
      if v.None? then [] else Issues(inner, v, path, isEmail)
    case ZObject(fields) =>
      if v.Some? && v.value.Obj? then
        Concat(seq(|fields|, i requires 0 <= i < |fields| =>
          Issues(fields[i].schema, Get(v.value, fields[i].key), path + [fields[i].key], isEmail)))
      else [Issue(path, InvalidType)]
  }

  predicate Accepts(schema: Schema, v: Option<Value>, isEmail: string -> bool)
  {
    Issues(schema, v, [], isEmail) == []
  }

  // ---------------------------------------------------------------------------
  // What each kind of schema accepts, at any path

  lemma StringAccepts(checks: seq<Check>, v: Option<Value>, path: seq<string>, isEmail: string -> bool)
    ensures Issues(ZString(checks), v, path, isEmail) == [] <==>
      v.Some? && v.value.Str? && forall i :: 0 <= i < |checks| ==> StringCheck(checks[i], v.value.s, isEmail).None?
  {
    if v.Some? && v.value.Str? {
      var parts := seq(|checks|, i requires 0 <= i < |checks| => AsIssues(StringCheck(checks[i], v.value.s, isEmail), path));
      assert forall i :: 0 <= i < |checks| ==> (parts[i] == [] <==> StringCheck(checks[i], v.value.s, isEmail).None?);
    }
  }

  lemma NumberAccepts(coerce: bool, checks: seq<Check>, v: Option<Value>, path: seq<string>, isEmail: string -> bool)
    ensures Issues(ZNumber(coerce, checks), v, path, isEmail) == [] <==>
      NumberInput(coerce, v).Some? && forall i :: 0 <= i < |checks| ==> NumberCheck(checks[i], NumberInput(coerce, v).value).None?
  {
    var x := NumberInput(coerce, v);
    if x.Some? {
      var parts := seq(|checks|, i requires 0 <= i < |checks| => AsIssues(NumberCheck(checks[i], x.value), path));
      assert forall i :: 0 <= i < |checks| ==> (parts[i] == [] <==> NumberCheck(checks[i], x.value).None?);
    }
  }

  lemma ObjectAccepts(fields: seq<Field>, v: Option<Value>, path: seq<string>, isEmail: string -> bool)
    ensures Issues(ZObject(fields), v, path, isEmail) == [] <==>
      v.Some? && v.value.Obj? &&
      forall i :: 0 <= i < |fields| ==> Issues(fields[i].schema, Get(v.value, fields[i].key), path + [fields[i].key], isEmail) == []
  {
    if v.Some? && v.value.Obj? {
      var parts := seq(|fields|, i requires 0 <= i < |fields| =>
        Issues(fields[i].schema, Get(v.value, fields[i].key), path + [fields[i].key], isEmail));
      assert Issues(ZObject(fields), v, path, isEmail) == Concat(parts);
      assert forall i :: 0 <= i < |fields| ==>
        parts[i] == Issues(fields[i].schema, Get(v.value, fields[i].key), path + [fields[i].key], isEmail);
    }
  }

  lemma ObjectOfOne(f: Field, v: Option<Value>, path: seq<string>, isEmail: string -> bool)
    ensures Issues(ZObject([f]), v, path, isEmail) == [] <==>
      v.Some? && v.value.Obj? && Issues(f.schema, Get(v.value, f.key), path + [f.key], isEmail) == []
  {
    ObjectAccepts([f], v, path, isEmail);
  }

  lemma ObjectOfTwo(f: Field, g: Field, v: Option<Value>, path: seq<string>, isEmail: string -> bool)
    ensures Issues(ZObject([f, g]), v, path, isEmail) == [] <==>
      && v.Some? && v.value.Obj?
      && Issues(f.schema, Get(v.value, f.key), path + [f.key], isEmail) == []
      && Issues(g.schema, Get(v.value, g.key), path + [g.key], isEmail) == []
  {
    ObjectAccepts([f, g], v, path, isEmail);
    assert [f, g][0] == f && [f, g][1] == g;
  }

  lemma ObjectOfThree(f: Field, g: Field, h: Field, v: Option<Value>, path: seq<string>, isEmail: string -> bool)
    ensures Issues(ZObject([f, g, h]), v, path, isEmail) == [] <==>
      && v.Some? && v.value.Obj?
      && Issues(f.schema, Get(v.value, f.key), path + [f.key], isEmail) == []
      && Issues(g.schema, Get(v.value, g.key), path + [g.key], isEmail) == []
      && Issues(h.schema, Get(v.value, h.key), path + [h.key], isEmail) == []
  {
    ObjectAccepts([f, g, h], v, path, isEmail);
    assert [f, g, h][0] == f && [f, g, h][1] == g && [f, g, h][2] == h;
  }

  /** An object schema accepts exactly when each half of its properties does. */
  lemma ObjectSplit(f: seq<Field>, g: seq<Field>, v: Option<Value>, path: seq<string>, isEmail: string -> bool)
    ensures Issues(ZObject(f + g), v, path, isEmail) == [] <==>
      Issues(ZObject(f), v, path, isEmail) == [] && Issues(ZObject(g), v, path, isEmail) == []
  {
    ObjectAccepts(f + g, v, path, isEmail);
    ObjectAccepts(f, v, path, isEmail);
    ObjectAccepts(g, v, path, isEmail);
    assert forall i :: 0 <= i < |f| ==> (f + g)[i] == f[i];
    assert forall i :: 0 <= i < |g| ==> (f + g)[|f| + i] == g[i];
  }

  /** A property that fails its schema fails the whole object, and its issues say where. */
  lemma FieldIssue(fields: seq<Field>, v: Value, path: seq<string>, isEmail: string -> bool, i: nat, issue: Issue)
    requires v.Obj? && i < |fields|
    requires issue in Issues(fields[i].schema, Get(v, fields[i].key), path + [fields[i].key], isEmail)
    ensures issue in Issues(ZObject(fields), Some(v), path, isEmail)
  {
    var parts := seq(|fields|, j requires 0 <= j < |fields| =>
      Issues(fields[j].schema, Get(v, fields[j].key), path + [fields[j].key], isEmail));
    assert issue in parts[i];
  }

  // ---------------------------------------------------------------------------
  // Predicates for the field constraints

  predicate IsString(v: Option<Value>) { v.Some? && v.value.Str? }

  function TextOf(v: Option<Value>): string requires IsString(v) { v.value.s }

  predicate IsSafeInteger(x: real) { Http.Integral(x) && -MaxSafeInteger <= x <= MaxSafeInteger }

  /** A string property with at least `n` characters. */
  predicate LongString(v: Option<Value>, n: nat) { IsString(v) && |TextOf(v)| >= n }

  /** An e-mail property as the register and login schemas demand it. */
  predicate EmailString(v: Option<Value>, isEmail: string -> bool) { LongString(v, 1) && isEmail(TextOf(v)) }

  /** A `z.number()`-typed property: a number, never a numeric string. */
  predicate IsNumber(v: Option<Value>) { v.Some? && v.value.Num? }

  /** A coerced property: `Number(v)` is a number at all. */
  predicate Coerces(v: Option<Value>) { v.Some? && ToNumber(v.value).Some? }
}
