/**
 The fuzzy comparison of packages/nodes-base/utils/utilities.ts. `None` is an undefined value.
 */
module FuzzyCompare {
  import opened Wrappers
  import opened Json

  /** The conversions of the runtime: number to text, text to JSON, and lower-casing. */
  datatype Env = Env(text: real -> string, parse: string -> Option<Json>, lower: string -> string)

  type Value = Option<Json>

  datatype Type = TUndefined | TObject | TBoolean | TNumber | TString

  function TypeOf(v: Value): Type {
    match v
    case None => TUndefined
    case Some(Bool(_)) => TBoolean
    case Some(Num(_)) => TNumber
    case Some(Str(_)) => TString
    case Some(_) => TObject
  }

  predicate IsNull(v: Value) {
    v == Some(Null)
  }

  predicate IsFalsy(v: Value) {
    IsNull(v) || v == Some(Str("")) || v == Some(Arr([]))
  }

  predicate IsZero(v: Value) {
    v == Some(Num(0.0)) || v == Some(Str("0"))
  }

  /** Branch by branch, as the source returns. */
  predicate Compare(env: Env, fuzzy: bool, version: int, a: Value, b: Value) {
    if !fuzzy then a == b
    else if !IsNull(a) && !IsNull(b) && TypeOf(a) == TypeOf(b) then a == b
    else if version >= 2 && IsNull(a) && (IsNull(b) || IsZero(b)) then true
    else if version >= 2 && IsNull(b) && (IsNull(a) || IsZero(a)) then true
    else if IsFalsy(a) && IsFalsy(b) then true
    else if IsFalsy(a) && b == None then true
    else if a == None && IsFalsy(b) then true
    else if TypeOf(a) == TNumber && TypeOf(b) == TString then env.text(a.value.n) == b.value.s
    else if TypeOf(a) == TString && TypeOf(b) == TNumber then a.value.s == env.text(b.value.n)
    else if !IsNull(a) && TypeOf(a) == TObject && TypeOf(b) == TString then env.parse(b.value.s) == a
    else if !IsNull(b) && TypeOf(a) == TString && TypeOf(b) == TObject then env.parse(a.value.s) == b
    else if TypeOf(a) == TBoolean && TypeOf(b) == TString && SpellsBool(env, a.value.b, b.value.s) then true
    else if TypeOf(b) == TBoolean && TypeOf(a) == TString && SpellsBool(env, b.value.b, a.value.s) then true
    else if TypeOf(a) == TBoolean && TypeOf(b) == TNumber && b.value.n == BoolNumber(a.value.b) then true
    else if TypeOf(b) == TBoolean && TypeOf(a) == TNumber && a.value.n == BoolNumber(b.value.b) then true
    else if TypeOf(a) == TBoolean && TypeOf(b) == TString && b.value.s == BoolDigit(a.value.b) then true
    else if TypeOf(b) == TBoolean && TypeOf(a) == TString && a.value.s == BoolDigit(b.value.b) then true
    else a == b
  }

  predicate SpellsBool(env: Env, b: bool, s: string) {
    env.lower(s) == if b then "true" else "false"
  }

  function BoolNumber(b: bool): real {
    if b then 1.0 else 0.0
  }

  function BoolDigit(b: bool): string {
    if b then "1" else "0"
  }

  // ----- What the branches come to -----

  /** Undefined, null, the empty string and the empty array all stand for nothing. */
  predicate Blank(v: Value) {
    v in {None, Some(Null), Some(Str("")), Some(Arr([]))}
  }

  /** `y` is `x` written in another type. */
  predicate Writes(env: Env, x: Json, y: Json) {
    match (x, y)
    case (Num(n), Str(s)) => env.text(n) == s
    case (Bool(true), Str(s)) => env.lower(s) == "true" || s == "1"
    case (Bool(false), Str(s)) => env.lower(s) == "false" || s == "0"
    case (Bool(true), Num(n)) => n == 1.0
    case (Bool(false), Num(n)) => n == 0.0
    case (Arr(_), Str(s)) => env.parse(s) == Some(x)
    case (Obj(_), Str(s)) => env.parse(s) == Some(x)
    case _ => false
  }

  predicate ZeroAndNull(a: Value, b: Value) {
    a == Some(Null) && b in {Some(Num(0.0)), Some(Str("0"))}
  }

  /** Two values match when equal, both blank, or when one is the other written in another type. */
  predicate Matches(env: Env, version: int, a: Value, b: Value) {
    || a == b
    || (Blank(a) && Blank(b))
    || (a.Some? && b.Some? && (Writes(env, a.value, b.value) || Writes(env, b.value, a.value)))
    || (version >= 2 && (ZeroAndNull(a, b) || ZeroAndNull(b, a)))
  }

  /** The chain of early returns decides exactly this relation. */
  lemma CompareDecidesMatches(env: Env, version: int, a: Value, b: Value)
    ensures Compare(env, true, version, a, b) <==> Matches(env, version, a, b)
  {
  }

  /** Reflexive, symmetric, coarser than strict equality; version 2 adds null against zero and nothing else. */
  lemma CompareLaws(env: Env, fuzzy: bool, version: int, a: Value, b: Value)
    ensures Compare(env, fuzzy, version, a, a)
    ensures Compare(env, fuzzy, version, a, b) <==> Compare(env, fuzzy, version, b, a)
    ensures Compare(env, false, version, a, b) ==> Compare(env, fuzzy, version, a, b)
    ensures Compare(env, true, 1, a, b) ==> Compare(env, true, 2, a, b)
    ensures Compare(env, true, 2, a, b) && !Compare(env, true, 1, a, b) ==> ZeroAndNull(a, b) || ZeroAndNull(b, a)
  {
  }
}
