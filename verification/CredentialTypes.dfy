/**
 Credential types and their inheritance: `getParentTypes` of
 packages/cli/src/credential-types.ts, whose loop appends to the list it walks.
 */
module CredentialTypes {
  import opened Wrappers

  type TypeName = string

  /** What the registry knows about a type. The list of parents may be missing. */
  datatype CredentialType = CredentialType(parents: Option<seq<TypeName>>)

  type Registry = map<TypeName, CredentialType>

  function Parents(known: Registry, t: TypeName): seq<TypeName> {
    if t in known && known[t].parents.Some? then known[t].parents.value else []
  }

  // ----- Ancestors, by paths through the registry -----

  ghost predicate Path(known: Registry, p: seq<TypeName>) {
    |p| > 0 && forall i :: 0 <= i < |p| - 1 ==> p[i + 1] in Parents(known, p[i])
  }

  ghost predicate PathBetween(known: Registry, p: seq<TypeName>, t: TypeName, x: TypeName) {
    Path(known, p) && |p| >= 2 && p[0] == t && p[|p| - 1] == x
  }

  ghost predicate IsAncestor(known: Registry, t: TypeName, x: TypeName) {
    exists p :: PathBetween(known, p, t, x)
  }

  ghost predicate Acyclic(known: Registry) {
    forall t :: !IsAncestor(known, t, t)
  }

  ghost predicate SingleParent(known: Registry) {
    forall t :: |Parents(known, t)| <= 1
  }

  ghost function Mentioned(known: Registry): set<TypeName> {
    set t, p | t in known && p in Parents(known, t) :: p
  }

  ghost function Ancestors(known: Registry, t: TypeName): set<TypeName> {
    set x | x in Mentioned(known) && IsAncestor(known, t, x)
  }

  /** One step of inheritance: a strict ancestor is a parent, or an ancestor of a parent. */
  lemma AncestorStep(known: Registry, t: TypeName, x: TypeName)
    ensures IsAncestor(known, t, x) <==> exists p :: p in Parents(known, t) && (p == x || IsAncestor(known, p, x))
  {
    if IsAncestor(known, t, x) {
      var p :| PathBetween(known, p, t, x);
      assert p[1] in Parents(known, p[0]);
      if |p| > 2 {
        assert PathBetween(known, p[1..], p[1], x);
      }
    }
    if exists p :: p in Parents(known, t) && (p == x || IsAncestor(known, p, x)) {
      var p :| p in Parents(known, t) && (p == x || IsAncestor(known, p, x));
      if p == x {
        assert PathBetween(known, [t, x], t, x);
      } else {
        var q :| PathBetween(known, q, p, x);
        assert PathBetween(known, [t] + q, t, x);
      }
    }
  }

  lemma AncestorTransitive(known: Registry, a: TypeName, b: TypeName, c: TypeName)
    requires IsAncestor(known, a, b) && IsAncestor(known, b, c)
    ensures IsAncestor(known, a, c)
  {
    var p :| PathBetween(known, p, a, b);
    var q :| PathBetween(known, q, b, c);
    var r := p + q[1..];
    forall i | 0 <= i < |r| - 1 ensures r[i + 1] in Parents(known, r[i]) {
      if i >= |p| - 1 {
        assert r[i] == q[i - (|p| - 1)] && r[i + 1] == q[i - (|p| - 1) + 1];
      }
    }
    assert PathBetween(known, r, a, c);
  }

  lemma AncestorIsMentioned(known: Registry, t: TypeName, x: TypeName)
    requires IsAncestor(known, t, x)
    ensures x in Mentioned(known)
  {
    var p :| PathBetween(known, p, t, x);
    assert p[|p| - 2 + 1] in Parents(known, p[|p| - 2]);
    assert p[|p| - 2] in known;
  }

  /** In an acyclic registry a parent has strictly fewer ancestors: what makes the recursion end. */
  lemma ParentHasFewerAncestors(known: Registry, t: TypeName, p: TypeName)
    requires Acyclic(known) && p in Parents(known, t)
    ensures Ancestors(known, p) < Ancestors(known, t)
    ensures Height(known, p) < Height(known, t)
  {
    AncestorStep(known, t, p);
    AncestorIsMentioned(known, t, p);
    assert p in Ancestors(known, t) && p !in Ancestors(known, p);
    forall x | x in Ancestors(known, p) ensures x in Ancestors(known, t) {
      AncestorStep(known, t, x);
    }
    SubsetSize(Ancestors(known, p), Ancestors(known, t));
  }

  lemma SubsetSize<T>(a: set<T>, b: set<T>)
    requires a < b
    ensures |a| < |b|
  {
    assert b == a + (b - a);
    assert b - a != {};
  }

  ghost function Height(known: Registry, t: TypeName): nat {
    |Ancestors(known, t)|
  }

  // The walk only needs some number that falls from a type to its parents.
  type Ranking = TypeName -> nat

  ghost predicate Ranked(known: Registry, rank: Ranking) {
    forall t, p :: p in Parents(known, t) ==> rank(p) < rank(t)
  }

  ghost function Heights(known: Registry): Ranking {
    t => Height(known, t)
  }

  lemma HeightsRank(known: Registry)
    requires Acyclic(known)
    ensures Ranked(known, Heights(known))
  {
    forall t, p | p in Parents(known, t) ensures Height(known, p) < Height(known, t) {
      ParentHasFewerAncestors(known, t, p);
    }
  }

  /** A ranking leaves no cycle: the two ways to say that inheritance is well founded agree. */
  lemma {:induction false} RankFalls(known: Registry, rank: Ranking, p: seq<TypeName>)
    requires Ranked(known, rank) && Path(known, p) && |p| >= 2
    ensures rank(p[|p| - 1]) < rank(p[0])
    decreases |p|
  {
    assert p[0 + 1] in Parents(known, p[0]);
    if |p| > 2 {
      RankFalls(known, rank, p[1..]);
    }
  }

  lemma RankedIsAcyclic(known: Registry, rank: Ranking)
    requires Ranked(known, rank)
    ensures Acyclic(known)
  {
    forall t ensures !IsAncestor(known, t, t) {
      if IsAncestor(known, t, t) {
        var p :| PathBetween(known, p, t, t);
        RankFalls(known, rank, p);
      }
    }
  }

  // ----- The list that `getParentTypes` returns, level by level -----

  /** The list for one type: its parents followed by everything their walk appends. */
  ghost function ParentList(known: Registry, rank: Ranking, t: TypeName): (r: seq<TypeName>)
    requires Ranked(known, rank)
    ensures forall x :: x in r ==> rank(x) < rank(t)
    decreases rank(t), 2, 0
  {
    Expand(known, rank, Parents(known, t), rank(t))
  }

  /** What walking the queue `q` yields when the lists of its members are appended behind it. */
  ghost function Expand(known: Registry, rank: Ranking, q: seq<TypeName>, bound: nat): (r: seq<TypeName>)
    requires Ranked(known, rank)
    requires forall x :: x in q ==> rank(x) < bound
    ensures forall x :: x in r ==> rank(x) < bound
    decreases bound, 1, 0
  {
    if q == [] then [] else
      assert q[0] in q;
      q + Expand(known, rank, Appended(known, rank, q, bound), bound - 1)
  }

  ghost function Appended(known: Registry, rank: Ranking, q: seq<TypeName>, bound: nat): (r: seq<TypeName>)
    requires Ranked(known, rank)
    requires forall x :: x in q ==> rank(x) < bound
    ensures forall x :: x in r ==> rank(x) < bound - 1
    decreases bound, 0, |q|
  {
    if q == [] then [] else ParentList(known, rank, q[0]) + Appended(known, rank, q[1..], bound)
  }

  // ----- Laws of the list -----

  lemma Unfold(known: Registry, rank: Ranking, q: seq<TypeName>, b: nat)
    requires Ranked(known, rank) && b > 0
    requires forall x :: x in q ==> rank(x) < b
    ensures Expand(known, rank, q, b) == q + Expand(known, rank, Appended(known, rank, q, b), b - 1)
  {
  }

  // The same walk for any function from a type to its list, as far as `n` levels.

  type Lists = TypeName -> seq<TypeName>

  ghost function Flat(f: Lists, q: seq<TypeName>): seq<TypeName> {
    if q == [] then [] else f(q[0]) + Flat(f, q[1..])
  }

  ghost function Levels(f: Lists, q: seq<TypeName>, n: nat): seq<TypeName>
    decreases n
  {
    if n == 0 then [] else q + Levels(f, Flat(f, q), n - 1)
  }

  /** After `n` levels nothing is left. */
  ghost predicate Dies(f: Lists, q: seq<TypeName>, n: nat)
    decreases n
  {
    if n == 0 then q == [] else Dies(f, Flat(f, q), n - 1)
  }

  lemma {:induction false} FlatConcat(f: Lists, p: seq<TypeName>, q: seq<TypeName>)
    ensures Flat(f, p + q) == Flat(f, p) + Flat(f, q)
  {
    if p == [] {
      assert p + q == q;
    } else {
      assert (p + q)[0] == p[0] && (p + q)[1..] == p[1..] + q;
      FlatConcat(f, p[1..], q);
      Reassociate(f(p[0]), Flat(f, p[1..]), Flat(f, q));
    }
  }

  lemma {:induction false} WalkLevels(f: Lists, p: seq<TypeName>, q: seq<TypeName>, n: nat)
    requires Dies(f, p, n)
    ensures Levels(f, p + q, n) == p + Levels(f, q + Flat(f, p), n)
    decreases n
  {
    if n > 0 {
      var a, c := Flat(f, p), Flat(f, q);
      FlatConcat(f, p, q);
      FlatConcat(f, q, a);
      WalkLevels(f, a, c, n - 1);
      Regroup(p, q, a, Levels(f, c + Flat(f, a), n - 1));
    }
  }

  ghost function ListsOf(known: Registry, rank: Ranking): Lists
    requires Ranked(known, rank)
  {
    t => ParentList(known, rank, t)
  }

  lemma {:induction false} AppendedIsFlat(known: Registry, rank: Ranking, q: seq<TypeName>, b: nat)
    requires Ranked(known, rank)
    requires forall x :: x in q ==> rank(x) < b
    ensures Appended(known, rank, q, b) == Flat(ListsOf(known, rank), q)
  {
    if q != [] {
      AppendedIsFlat(known, rank, q[1..], b);
    }
  }

  lemma {:induction false} ExpandIsLevels(known: Registry, rank: Ranking, q: seq<TypeName>, b: nat)
    requires Ranked(known, rank)
    requires forall x :: x in q ==> rank(x) < b
    ensures Expand(known, rank, q, b) == Levels(ListsOf(known, rank), q, b) && Dies(ListsOf(known, rank), q, b)
    decreases b
  {
    if q != [] {
      assert q[0] in q;
    }
    if b > 0 {
      AppendedIsFlat(known, rank, q, b);
      Unfold(known, rank, q, b);
      ExpandIsLevels(known, rank, Appended(known, rank, q, b), b - 1);
    }
  }

  /** Walking `p + q` first passes over `p`, and then walks `q` with the lists of `p` behind it. */
  lemma WalkQueue(known: Registry, rank: Ranking, p: seq<TypeName>, q: seq<TypeName>, b: nat)
    requires Ranked(known, rank)
    requires forall x :: x in p ==> rank(x) < b
    requires forall x :: x in q ==> rank(x) < b
    ensures Expand(known, rank, p + q, b) == p + Expand(known, rank, q + Appended(known, rank, p, b), b)
  {
    AppendedIsFlat(known, rank, p, b);
    ExpandIsLevels(known, rank, p, b);
    ExpandIsLevels(known, rank, p + q, b);
    ExpandIsLevels(known, rank, q + Appended(known, rank, p, b), b);
    WalkLevels(ListsOf(known, rank), p, q, b);
  }

  lemma Regroup<T>(p: seq<T>, q: seq<T>, a: seq<T>, rest: seq<T>)
    ensures p + q + (a + rest) == p + (q + a + rest)
  {
  }

  /** One turn of the loop: pass over the head and append its list. */
  lemma WalkStep(known: Registry, rank: Ranking, q: seq<TypeName>, b: nat)
    requires Ranked(known, rank) && q != []
    requires forall x :: x in q ==> rank(x) < b
    ensures forall x :: x in q[1..] + ParentList(known, rank, q[0]) ==> rank(x) < b
    ensures Expand(known, rank, q, b) == [q[0]] + Expand(known, rank, q[1..] + ParentList(known, rank, q[0]), b)
  {
    assert q[0] in q;
    assert q == [q[0]] + q[1..];
    WalkQueue(known, rank, [q[0]], q[1..], b);
    assert Appended(known, rank, [q[0]], b) == ParentList(known, rank, q[0]) + Appended(known, rank, [], b);
    assert Appended(known, rank, [q[0]], b) == ParentList(known, rank, q[0]);
  }

  /** The same step seen from the loop: `copy` is the whole list and `i` the position in it. */
  lemma LoopTurn(known: Registry, rank: Ranking, copy: seq<TypeName>, i: nat, b: nat, more: seq<TypeName>)
    requires Ranked(known, rank) && i < |copy|
    requires forall x :: x in copy ==> rank(x) < b
    requires more == ParentList(known, rank, copy[i])
    requires forall x :: x in copy + more ==> rank(x) < b
    ensures copy[..i] + Expand(known, rank, copy[i..], b)
         == (copy + more)[..i + 1] + Expand(known, rank, (copy + more)[i + 1..], b)
    ensures |Expand(known, rank, copy[i..], b)| == 1 + |Expand(known, rank, (copy + more)[i + 1..], b)|
  {
    var q := copy[i..];
    WalkStep(known, rank, q, b);
    TurnSlices(copy, i, more);
    assert q[0] == copy[i];
    var rest := Expand(known, rank, (copy + more)[i + 1..], b);
    assert Expand(known, rank, q, b) == [copy[i]] + rest;
    Reassociate(copy[..i], [copy[i]], rest);
  }

  lemma Reassociate<T>(a: seq<T>, b: seq<T>, c: seq<T>)
    ensures a + (b + c) == a + b + c
  {
  }

  lemma TurnSlices<T>(copy: seq<T>, i: nat, more: seq<T>)
    requires i < |copy|
    ensures copy[i..][1..] + more == (copy + more)[i + 1..]
    ensures (copy + more)[..i + 1] == copy[..i] + [copy[i]]
  {
  }

  /** As a set, the list is exactly the strict ancestors. */
  lemma {:induction false} ParentListIsAncestors(known: Registry, rank: Ranking, t: TypeName)
    requires Ranked(known, rank)
    ensures forall x :: x in ParentList(known, rank, t) <==> IsAncestor(known, t, x)
    decreases rank(t), 2, 0
  {
    ExpandIsClosure(known, rank, Parents(known, t), rank(t));
    forall x ensures x in ParentList(known, rank, t) <==> IsAncestor(known, t, x) {
      AncestorStep(known, t, x);
    }
  }

  lemma {:induction false} ExpandIsClosure(known: Registry, rank: Ranking, q: seq<TypeName>, b: nat)
    requires Ranked(known, rank)
    requires forall x :: x in q ==> rank(x) < b
    ensures forall x :: x in Expand(known, rank, q, b) <==> exists y :: y in q && (y == x || IsAncestor(known, y, x))
    decreases b, 1, 0
  {
    if q != [] {
      assert q[0] in q;
      var a := Appended(known, rank, q, b);
      AppendedIsAncestors(known, rank, q, b);
      ExpandIsClosure(known, rank, a, b - 1);
      forall x ensures x in Expand(known, rank, q, b) <==> exists y :: y in q && (y == x || IsAncestor(known, y, x)) {
        if x in Expand(known, rank, a, b - 1) {
          var z :| z in a && (z == x || IsAncestor(known, z, x));
          var y :| y in q && IsAncestor(known, y, z);
          if z != x {
            AncestorTransitive(known, y, z, x);
          }
        }
        if y :| y in q && (y == x || IsAncestor(known, y, x)) {
          if y != x {
            assert x in a;
          }
        }
      }
    }
  }

  lemma {:induction false} AppendedIsAncestors(known: Registry, rank: Ranking, q: seq<TypeName>, b: nat)
    requires Ranked(known, rank)
    requires forall x :: x in q ==> rank(x) < b
    ensures forall x :: x in Appended(known, rank, q, b) <==> exists y :: y in q && IsAncestor(known, y, x)
    decreases b, 0, |q|
  {
    if q != [] {
      ParentListIsAncestors(known, rank, q[0]);
      AppendedIsAncestors(known, rank, q[1..], b);
      assert forall y :: y in q <==> y == q[0] || y in q[1..];
    }
  }

  // ----- Every listed type was led to by a child of it listed earlier -----

  ghost predicate LedTo(known: Registry, list: seq<TypeName>, i: nat)
    requires i < |list|
  {
    exists j :: 0 <= j < i && list[i] in Parents(known, list[j])
  }

  ghost predicate Guided(known: Registry, list: seq<TypeName>) {
    forall i :: 0 < i < |list| ==> LedTo(known, list, i)
  }

  lemma AppendGuided(known: Registry, list: seq<TypeName>, x: TypeName, more: seq<TypeName>)
    requires Guided(known, list) && x in list && Guided(known, [x] + more)
    ensures Guided(known, list + more)
  {
    var w := [x] + more;
    var at :| 0 <= at < |list| && list[at] == x;
    forall i | 0 < i < |list + more| ensures LedTo(known, list + more, i) {
      if i < |list| {
        assert LedTo(known, list, i);
        var j :| 0 <= j < i && list[i] in Parents(known, list[j]);
        assert (list + more)[j] == list[j];
      } else {
        var k := i - |list| + 1;
        assert LedTo(known, w, k);
        var j :| 0 <= j < k && w[k] in Parents(known, w[j]);
        var j' := if j == 0 then at else |list| + j - 1;
        assert (list + more)[j'] == w[j] && (list + more)[i] == w[k];
      }
    }
  }

  lemma {:induction false} ParentListGuided(known: Registry, rank: Ranking, t: TypeName)
    requires Ranked(known, rank)
    ensures Guided(known, [t] + ParentList(known, rank, t))
    decreases rank(t), 2, 0
  {
    var q, b := Parents(known, t), rank(t);
    var list := [t] + q;
    forall i | 0 < i < |list| ensures LedTo(known, list, i) {
      assert list[i] in Parents(known, list[0]);
    }
    if q != [] {
      assert q[0] in Parents(known, t) && rank(q[0]) < b;
      ExpandGuided(known, rank, list, q, b);
      assert list + Expand(known, rank, Appended(known, rank, q, b), b - 1) == [t] + ParentList(known, rank, t);
    } else {
      assert list == [t] + ParentList(known, rank, t);
    }
  }

  lemma {:induction false} ExpandGuided(known: Registry, rank: Ranking, list: seq<TypeName>, q: seq<TypeName>, b: nat)
    requires Ranked(known, rank) && b > 0
    requires forall x :: x in q ==> rank(x) < b && x in list
    requires Guided(known, list)
    ensures Guided(known, list + Expand(known, rank, Appended(known, rank, q, b), b - 1))
    decreases b, 1, 0
  {
    var a := Appended(known, rank, q, b);
    AppendedGuided(known, rank, list, q, b);
    if a != [] {
      assert a[0] in a;
      ExpandGuided(known, rank, list + a, a, b - 1);
      var rest := Expand(known, rank, Appended(known, rank, a, b - 1), b - 2);
      Reassociate(list, a, rest);
    } else {
      assert list + Expand(known, rank, a, b - 1) == list;
    }
  }

  lemma {:induction false} AppendedGuided(known: Registry, rank: Ranking, list: seq<TypeName>, q: seq<TypeName>, b: nat)
    requires Ranked(known, rank)
    requires forall x :: x in q ==> rank(x) < b && x in list
    requires Guided(known, list)
    ensures Guided(known, list + Appended(known, rank, q, b))
    decreases b, 0, |q|
  {
    if q == [] {
      assert list + Appended(known, rank, q, b) == list;
    } else {
      var head := ParentList(known, rank, q[0]);
      ParentListGuided(known, rank, q[0]);
      AppendGuided(known, list, q[0], head);
      AppendedGuided(known, rank, list + head, q[1..], b);
      Reassociate(list, head, Appended(known, rank, q[1..], b));
    }
  }

  // ----- With one parent per type the list is the chain, nearest first, up to repetition -----

  function Distinct<T(==)>(s: seq<T>): seq<T> {
    if s == [] then [] else
      var front, last := s[..|s| - 1], s[|s| - 1];
      Distinct(front) + if last in front then [] else [last]
  }

  ghost function Chain(known: Registry, rank: Ranking, t: TypeName): seq<TypeName>
    requires Ranked(known, rank) && SingleParent(known)
    decreases rank(t)
  {
    if Parents(known, t) == [] then [] else
      var p := Parents(known, t)[0];
      [p] + Chain(known, rank, p)
  }

  lemma {:induction false} DistinctRepeats<T>(s: seq<T>, more: seq<T>)
    requires forall x :: x in more ==> x in s
    ensures Distinct(s + more) == Distinct(s)
    decreases |more|
  {
    if more == [] {
      assert s + more == s;
    } else {
      var front := more[..|more| - 1];
      assert (s + more)[..|s + more| - 1] == s + front;
      DistinctRepeats(s, front);
      assert (s + more)[|s + more| - 1] == more[|more| - 1];
    }
  }

  lemma {:induction false} DistinctNewHead<T>(x: T, s: seq<T>)
    requires x !in s
    ensures Distinct([x] + s) == [x] + Distinct(s)
    decreases |s|
  {
    if s == [] {
      assert [x] + s == [x] && [x][..0] == [];
      assert Distinct([x]) == Distinct([]) + [x];
    } else {
      var front := s[..|s| - 1];
      DistinctNewHead(x, front);
      assert ([x] + s)[..|[x] + s| - 1] == [x] + front;
    }
  }

  /** With the single parent `p`, the list is `p`, the list of `p`, and then only repetitions. */
  lemma ParentListShape(known: Registry, rank: Ranking, t: TypeName, p: TypeName) returns (rest: seq<TypeName>)
    requires Ranked(known, rank) && Parents(known, t) == [p]
    ensures ParentList(known, rank, t) == [p] + (ParentList(known, rank, p) + rest)
    ensures forall x :: x in rest ==> x in ParentList(known, rank, p)
  {
    OneParent(known, rank, t, p);
    rest := ListThenRest(known, rank, p, rank(t) - 1);
  }

  /** Walking the list of `p` passes over it and then yields only repetitions. */
  lemma ListThenRest(known: Registry, rank: Ranking, p: TypeName, b: nat) returns (rest: seq<TypeName>)
    requires Ranked(known, rank) && rank(p) <= b
    ensures Expand(known, rank, ParentList(known, rank, p), b) == ParentList(known, rank, p) + rest
    ensures forall x :: x in rest ==> x in ParentList(known, rank, p)
  {
    var list := ParentList(known, rank, p);
    if list == [] {
      rest := [];
    } else {
      assert list[0] in list;
      Unfold(known, rank, list, b);
      rest := Expand(known, rank, Appended(known, rank, list, b), b - 1);
      RestRepeats(known, rank, p, b);
      InRest(list, rest);
    }
  }

  lemma InRest<T>(list: seq<T>, rest: seq<T>)
    requires forall x :: x in list + rest ==> x in list
    ensures forall x :: x in rest ==> x in list
  {
    forall x | x in rest ensures x in list {
      assert x in list + rest;
    }
  }

  lemma OneParent(known: Registry, rank: Ranking, t: TypeName, p: TypeName)
    requires Ranked(known, rank) && Parents(known, t) == [p]
    ensures rank(p) < rank(t)
    ensures ParentList(known, rank, t) == [p] + Expand(known, rank, ParentList(known, rank, p), rank(t) - 1)
  {
    assert p in Parents(known, t);
    AppendedOne(known, rank, p, rank(t));
    Unfold(known, rank, [p], rank(t));
  }

  lemma AppendedOne(known: Registry, rank: Ranking, p: TypeName, b: nat)
    requires Ranked(known, rank) && rank(p) < b
    ensures Appended(known, rank, [p], b) == ParentList(known, rank, p)
  {
    assert Appended(known, rank, [], b) == [];
    assert [p][1..] == [];
  }

  lemma RestRepeats(known: Registry, rank: Ranking, p: TypeName, b: nat)
    requires Ranked(known, rank) && rank(p) <= b
    ensures forall x :: x in Expand(known, rank, ParentList(known, rank, p), b) ==> x in ParentList(known, rank, p)
  {
    var list := ParentList(known, rank, p);
    ParentListIsAncestors(known, rank, p);
    ExpandIsClosure(known, rank, list, b);
    forall x | x in Expand(known, rank, list, b) ensures x in list {
      var y :| y in list && (y == x || IsAncestor(known, y, x));
      if y != x {
        AncestorTransitive(known, p, y, x);
      }
    }
  }

  lemma {:induction false} ParentListFollowsChain(known: Registry, rank: Ranking, t: TypeName)
    requires Ranked(known, rank) && SingleParent(known)
    ensures Distinct(ParentList(known, rank, t)) == Chain(known, rank, t)
    decreases rank(t)
  {
    assert |Parents(known, t)| <= 1;
    if Parents(known, t) == [] {
      assert ParentList(known, rank, t) == [];
    } else {
      var p := Parents(known, t)[0];
      assert p in Parents(known, t) && Parents(known, t) == [p];
      var rest := ParentListShape(known, rank, t, p);
      ParentListFollowsChain(known, rank, p);
      DistinctRepeats(ParentList(known, rank, p), rest);
      DistinctNewHead(p, ParentList(known, rank, p) + rest);
    }
  }

  /**
   The loop of `getParentTypes`: it appends to the list it iterates over. What is still to be
   walked shrinks by one type per turn once the appended lists are unfolded in full.
   */
  method Walk(known: Registry, ghost rank: Ranking, t: TypeName) returns (r: seq<TypeName>)
    requires Ranked(known, rank)
    ensures r == ParentList(known, rank, t)
    decreases rank(t)
  {
    var parents := Parents(known, t);
    if |parents| == 0 {
      return [];
    }
    ghost var b := rank(t);
    var copy := parents;
    var i := 0;
    while i < |copy|
      invariant 0 <= i <= |copy|
      invariant forall x :: x in copy ==> rank(x) < b
      invariant ParentList(known, rank, t) == copy[..i] + Expand(known, rank, copy[i..], b)
      decreases |Expand(known, rank, copy[i..], b)|
    {
      var more := Walk(known, rank, copy[i]);
      assert forall x :: x in copy + more ==> rank(x) < b;
      LoopTurn(known, rank, copy, i, b, more);
      copy := copy + more;
      i := i + 1;
    }
    assert copy[..i] == copy && copy[i..] == [];
    return copy;
  }

  lemma ParentTypesLaws(known: Registry, rank: Ranking, t: TypeName)
    requires Ranked(known, rank)
    ensures forall x :: x in ParentList(known, rank, t) <==> IsAncestor(known, t, x)
    ensures Guided(known, [t] + ParentList(known, rank, t))
    ensures SingleParent(known) ==> Distinct(ParentList(known, rank, t)) == Chain(known, rank, t)
  {
    ParentListIsAncestors(known, rank, t);
    ParentListGuided(known, rank, t);
    if SingleParent(known) {
      ParentListFollowsChain(known, rank, t);
    }
  }

  method GetParentTypes(known: Registry, t: TypeName) returns (r: seq<TypeName>)
    requires Acyclic(known)
    ensures forall x :: x in r <==> IsAncestor(known, t, x)
    ensures Guided(known, [t] + r)
    ensures SingleParent(known) ==> Ranked(known, Heights(known)) && Distinct(r) == Chain(known, Heights(known), t)
  {
    HeightsRank(known);
    ghost var rank := Heights(known);
    r := Walk(known, rank, t);
    ParentTypesLaws(known, rank, t);
  }
}
