/** JSON values, and the keys that JavaScript enumerates on them. */
module Json {
  datatype Json =
    | Null
    | Bool(b: bool)
    | Num(n: real)
    | Str(s: string)
    | Arr(items: seq<Json>)
    | Obj(fields: map<string, Json>)

  predicate IsContainer(j: Json) {
    j.Arr? || j.Obj?
  }

  function Digit(d: nat): char
    requires d < 10
  {
    "0123456789"[d]
  }

  /** An array index as a property key. */
  function Decimal(n: nat): (s: string)
    ensures s != ""
  {
    if n < 10 then [Digit(n)] else Decimal(n / 10) + [Digit(n % 10)]
  }

  lemma {:induction false} DecimalInjective(m: nat, n: nat)
    requires Decimal(m) == Decimal(n)
    ensures m == n
    decreases m
  {
    var a, b := Decimal(m), Decimal(n);
    assert a[|a| - 1] == Digit(m % 10) && b[|b| - 1] == Digit(n % 10);
    assert m % 10 == n % 10;
    if m >= 10 && n >= 10 {
      assert a[..|a| - 1] == Decimal(m / 10) && b[..|b| - 1] == Decimal(n / 10);
      DecimalInjective(m / 10, n / 10);
    } else {
      assert |Decimal(m / 10)| > 0 && |Decimal(n / 10)| > 0;
    }
  }

  /** The number that a string of digits spells. */
  function Spelled(s: string): int {
    if s == "" then 0 else 10 * Spelled(s[..|s| - 1]) + (s[|s| - 1] as int - '0' as int)
  }

  lemma {:induction false} DecimalSpells(n: nat)
    ensures Spelled(Decimal(n)) == n
    ensures forall c :: c in Decimal(n) ==> '0' <= c <= '9'
    ensures Decimal(n)[0] == '0' ==> n == 0
  {
    if n >= 10 {
      DecimalSpells(n / 10);
      assert Decimal(n)[..|Decimal(n)| - 1] == Decimal(n / 10);
    }
  }

  lemma {:induction false} DecimalHasNoDot(n: nat)
    ensures '.' !in Decimal(n)
  {
    if n >= 10 {
      DecimalHasNoDot(n / 10);
    }
  }

  function ArrayFields(items: seq<Json>, n: nat): (r: map<string, Json>)
    requires n <= |items|
    ensures forall k :: k in r ==> r[k] < Arr(items)
  {
    if n == 0 then map[] else ArrayFields(items, n - 1)[Decimal(n - 1) := items[n - 1]]
  }

  /** Property keys and values, as `Object.keys` lists them: an array has its indices. */
  function Children(j: Json): (r: map<string, Json>)
    ensures forall k :: k in r ==> r[k] < j
  {
    match j
    case Arr(items) => ArrayFields(items, |items|)
    case Obj(fields) => fields
    case _ => map[]
  }

  /** An array read as an object has each item under its own index. */
  lemma {:induction false} ArrayFieldsAreItems(items: seq<Json>, n: nat, i: nat)
    requires i < n <= |items|
    ensures Decimal(i) in ArrayFields(items, n) && ArrayFields(items, n)[Decimal(i)] == items[i]
    decreases n
  {
    if i < n - 1 {
      ArrayFieldsAreItems(items, n - 1, i);
      if Decimal(i) == Decimal(n - 1) {
        DecimalInjective(i, n - 1);
      }
    }
  }
}
