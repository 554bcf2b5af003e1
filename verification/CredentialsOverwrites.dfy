/**
 Credential overwrites: the in-place, memoised merge of packages/cli/src/credentials-overwrites.ts
 and the second, different merge through which the stored data is read.
 */
module CredentialsOverwrites {
  import opened Wrappers
  import opened CredentialTypes

  /** A property value. `Undefined` is an explicit undefined; a missing key is no key at all. */
  datatype Value = Undefined | Null | Text(text: string) | Opaque(repr: string)

  type Data = map<string, Value>

  type Overwrites = map<TypeName, Data>

  // ----- What a lookup should give -----

  predicate Defines(data: Overwrites, t: TypeName, k: string) {
    t in data && k in data[t]
  }

  /** `path` climbs from `t` to the first type on it that defines `k`, with value `v`. */
  ghost predicate InheritsVia(known: Registry, raw: Overwrites, path: seq<TypeName>, t: TypeName, k: string, v: Value) {
    && Path(known, path)
    && path[0] == t
    && Defines(raw, path[|path| - 1], k)
    && raw[path[|path| - 1]][k] == v
    && forall i :: 0 <= i < |path| - 1 ==> !Defines(raw, path[i], k)
  }

  /** `v` comes from an ancestor-or-self that defines `k`, with no definition in between. */
  ghost predicate Inherits(known: Registry, raw: Overwrites, t: TypeName, k: string, v: Value) {
    exists path :: InheritsVia(known, raw, path, t, k, v)
  }

  ghost predicate Available(known: Registry, raw: Overwrites, t: TypeName, k: string) {
    Defines(raw, t, k) || exists a :: IsAncestor(known, t, a) && Defines(raw, a, k)
  }

  /** Plain nearest-ancestor resolution, for one parent per type. */
  ghost function Plain(known: Registry, rank: Ranking, raw: Overwrites, t: TypeName): Data
    requires Ranked(known, rank) && SingleParent(known)
    decreases rank(t)
  {
    var own: Data := if t in raw then raw[t] else map[];
    if Parents(known, t) == [] then own else
      assert Parents(known, t)[0] in Parents(known, t);
      Plain(known, rank, raw, Parents(known, t)[0]) + own
  }

  lemma InheritsOwn(known: Registry, raw: Overwrites, t: TypeName, k: string)
    requires Defines(raw, t, k)
    ensures Inherits(known, raw, t, k, raw[t][k])
    ensures forall v :: Inherits(known, raw, t, k, v) ==> v == raw[t][k]
  {
    assert InheritsVia(known, raw, [t], t, k, raw[t][k]);
    forall v | Inherits(known, raw, t, k, v) ensures v == raw[t][k] {
      var path :| InheritsVia(known, raw, path, t, k, v);
      assert |path| == 1;
    }
  }

  lemma InheritsFromParent(known: Registry, raw: Overwrites, t: TypeName, p: TypeName, k: string, v: Value)
    requires !Defines(raw, t, k) && p in Parents(known, t) && Inherits(known, raw, p, k, v)
    ensures Inherits(known, raw, t, k, v)
  {
    var path :| InheritsVia(known, raw, path, p, k, v);
    assert InheritsVia(known, raw, [t] + path, t, k, v);
  }

  lemma InheritsThroughParent(known: Registry, raw: Overwrites, t: TypeName, k: string, v: Value) returns (p: TypeName)
    requires !Defines(raw, t, k) && Inherits(known, raw, t, k, v)
    ensures p in Parents(known, t) && Inherits(known, raw, p, k, v)
  {
    var path :| InheritsVia(known, raw, path, t, k, v);
    p := path[0 + 1];
    assert InheritsVia(known, raw, path[1..], p, k, v);
  }

  /** With one parent per type, inheritance leaves no choice: it is plain resolution. */
  lemma {:induction false} InheritsIsPlain(known: Registry, rank: Ranking, raw: Overwrites, t: TypeName, k: string,
      v: Value)
    requires Ranked(known, rank) && SingleParent(known)
    ensures Inherits(known, raw, t, k, v) <==> k in Plain(known, rank, raw, t) && Plain(known, rank, raw, t)[k] == v
    decreases rank(t)
  {
    assert |Parents(known, t)| <= 1;
    if Defines(raw, t, k) {
      InheritsOwn(known, raw, t, k);
    } else {
      if Inherits(known, raw, t, k, v) {
        var p := InheritsThroughParent(known, raw, t, k, v);
        InheritsIsPlain(known, rank, raw, p, k, v);
      }
      if k in Plain(known, rank, raw, t) && Plain(known, rank, raw, t)[k] == v {
        var p := Parents(known, t)[0];
        assert p in Parents(known, t);
        InheritsIsPlain(known, rank, raw, p, k, v);
        InheritsFromParent(known, raw, t, p, k, v);
      }
    }
  }

  // ----- What the merge leaves behind -----

  /**
   What holds of the stored data in any visiting order: nothing raw is lost, and whatever was
   added is inherited. It does not say that everything inherited was added.
   */
  ghost predicate Merged(known: Registry, raw: Overwrites, stored: Overwrites) {
    && stored.Keys == raw.Keys
    && (forall t, k :: Defines(raw, t, k) ==> Defines(stored, t, k))
    && (forall t, k :: Defines(stored, t, k) ==> Inherits(known, raw, t, k, stored[t][k]))
  }

  lemma MergedRaw(known: Registry, raw: Overwrites)
    ensures Merged(known, raw, raw)
  {
    forall t, k | Defines(raw, t, k) ensures Inherits(known, raw, t, k, raw[t][k]) {
      InheritsOwn(known, raw, t, k);
    }
  }

  /** With one parent per type, whatever is available above `t` is available to its parent. */
  lemma AvailableAbove(known: Registry, raw: Overwrites, t: TypeName, p: TypeName, k: string)
    requires SingleParent(known) && p in Parents(known, t) && !Defines(raw, t, k) && Available(known, raw, t, k)
    ensures Available(known, raw, p, k)
  {
    var a :| IsAncestor(known, t, a) && Defines(raw, a, k);
    AncestorStep(known, t, a);
    assert |Parents(known, t)| <= 1;
  }

  /** Nothing at `t` or above it has been visited before, and all of it is known to the registry. */
  ghost predicate Fresh(known: Registry, visited: seq<TypeName>, t: TypeName) {
    && t in known && t !in visited
    && forall x :: IsAncestor(known, t, x) ==> x in known && x !in visited
  }

  lemma FreshParent(known: Registry, visited: seq<TypeName>, t: TypeName, p: TypeName)
    requires Fresh(known, visited, t) && p in Parents(known, t)
    ensures Fresh(known, visited, p)
  {
    AncestorStep(known, t, p);
    forall x | IsAncestor(known, p, x) ensures IsAncestor(known, t, x) {
      AncestorStep(known, t, x);
    }
  }

  ghost predicate Covers(known: Registry, raw: Overwrites, t: TypeName, d: Data) {
    forall k :: Available(known, raw, t, k) ==> k in d
  }

  /** The answer leaves out nothing that is available to `t`. */
  ghost predicate Complete(known: Registry, raw: Overwrites, t: TypeName, r: Option<Data>) {
    Covers(known, raw, t, if r.Some? then r.value else map[])
  }

  lemma RootCovers(known: Registry, raw: Overwrites, t: TypeName, own: Data)
    requires Parents(known, t) == [] && (t in raw ==> raw[t].Keys <= own.Keys)
    ensures Covers(known, raw, t, own)
  {
    forall k | Available(known, raw, t, k) ensures k in own {
      if !Defines(raw, t, k) {
        var a :| IsAncestor(known, t, a) && Defines(raw, a, k);
        AncestorStep(known, t, a);
      }
    }
  }

  /** The parent's complete data under own data is complete. */
  lemma ChildCovers(known: Registry, raw: Overwrites, t: TypeName, inherited: Data, own: Data)
    requires SingleParent(known) && (t in raw ==> raw[t].Keys <= own.Keys)
    requires Parents(known, t) != [] ==> Covers(known, raw, Parents(known, t)[0], inherited)
    ensures Covers(known, raw, t, inherited + own)
  {
    if Parents(known, t) == [] {
      RootCovers(known, raw, t, inherited + own);
    } else {
      var p := Parents(known, t)[0];
      forall k | Available(known, raw, t, k) ensures k in inherited + own {
        if !Defines(raw, t, k) {
          AvailableAbove(known, raw, t, p, k);
        }
      }
    }
  }

  /** What a parent hands down is inherited, unless the type defines it itself. */
  ghost predicate HandedDown(known: Registry, raw: Overwrites, t: TypeName, d: Data) {
    forall k :: k in d && !Defines(raw, t, k) ==> Inherits(known, raw, t, k, d[k])
  }

  lemma HandDown(known: Registry, raw: Overwrites, t: TypeName, p: TypeName, d: Data, inherited: Data)
    requires HandedDown(known, raw, t, d) && p in Parents(known, t)
    requires forall k :: k in inherited ==> Inherits(known, raw, p, k, inherited[k])
    ensures HandedDown(known, raw, t, d + inherited)
  {
    forall k | k in inherited && !Defines(raw, t, k) ensures Inherits(known, raw, t, k, inherited[k]) {
      InheritsFromParent(known, raw, t, p, k, inherited[k]);
    }
  }

  lemma OwnOnTop(known: Registry, raw: Overwrites, stored: Overwrites, t: TypeName, d: Data)
    requires Merged(known, raw, stored) && HandedDown(known, raw, t, d)
    ensures var r := d + if t in stored then stored[t] else map[];
      forall k :: k in r ==> Inherits(known, raw, t, k, r[k])
  {
  }

  lemma OwnStored(known: Registry, raw: Overwrites, stored: Overwrites, t: TypeName)
    requires Merged(known, raw, stored) && t in stored
    ensures raw[t].Keys <= stored[t].Keys
    ensures forall k :: k in stored[t] ==> Inherits(known, raw, t, k, stored[t][k])
  {
    assert forall k :: k in raw[t] ==> Defines(raw, t, k) && Defines(stored, t, k);
    assert forall k :: k in stored[t] ==> Defines(stored, t, k);
  }

  lemma MergedStore(known: Registry, raw: Overwrites, stored: Overwrites, t: TypeName, d: Data)
    requires Merged(known, raw, stored) && t in stored
    requires raw[t].Keys <= d.Keys
    requires forall k :: k in d ==> Inherits(known, raw, t, k, d[k])
    ensures Merged(known, raw, stored[t := d])
  {
    var next := stored[t := d];
    forall u, k | Defines(raw, u, k) ensures Defines(next, u, k) {
      assert Defines(stored, u, k);
    }
    forall u, k | Defines(next, u, k) ensures Inherits(known, raw, u, k, next[u][k]) {
      assert u != t ==> Defines(stored, u, k);
    }
  }

  // ----- Which stored entries are complete -----

  /** What is resolved is resolved with all its known ancestors. */
  ghost predicate Closed(known: Registry, visited: seq<TypeName>) {
    forall x, p :: x in visited && p in Parents(known, x) && p in known ==> p in visited
  }

  lemma {:induction false} ClosedUp(known: Registry, visited: seq<TypeName>, path: seq<TypeName>, t: TypeName,
      x: TypeName)
    requires Closed(known, visited) && t in visited && x in known && PathBetween(known, path, t, x)
    ensures x in visited
    decreases |path|
  {
    assert path[0 + 1] in Parents(known, t);
    if |path| > 2 {
      assert path[1 + 1] in Parents(known, path[1]);
      assert path[1] in visited;
      ClosedUp(known, visited, path[1..], path[1], x);
    }
  }

  /** With one parent per type: the answer for `t` will be complete, given what is resolved and stored. */
  ghost predicate Answers(known: Registry, rank: Ranking, raw: Overwrites, stored: Overwrites, visited: seq<TypeName>,
      t: TypeName)
    requires Ranked(known, rank) && SingleParent(known)
    decreases rank(t)
  {
    if t in visited then Covers(known, raw, t, if t in stored then stored[t] else map[])
    else t in known && (Parents(known, t) != [] ==>
      assert Parents(known, t)[0] in Parents(known, t);
      Answers(known, rank, raw, stored, visited, Parents(known, t)[0]))
  }

  lemma {:induction false} FreshAnswers(known: Registry, rank: Ranking, raw: Overwrites, stored: Overwrites,
      visited: seq<TypeName>, t: TypeName)
    requires Ranked(known, rank) && SingleParent(known) && Fresh(known, visited, t)
    ensures Answers(known, rank, raw, stored, visited, t)
    decreases rank(t)
  {
    if Parents(known, t) != [] {
      var p := Parents(known, t)[0];
      assert p in Parents(known, t);
      FreshParent(known, visited, t, p);
      FreshAnswers(known, rank, raw, stored, visited, p);
    }
  }

  /** Before turn `j` the type was visited, for its own sake or as an ancestor. */
  ghost predicate VisitedBefore(known: Registry, order: seq<TypeName>, j: nat, t: TypeName)
    requires j <= |order|
  {
    t in known && exists i :: 0 <= i < j && (order[i] == t || IsAncestor(known, order[i], t))
  }

  /** Going up from `t` at turn `j`, the first type already visited, if any, is one whose entry is complete. */
  ghost predicate CompleteAbove(known: Registry, rank: Ranking, order: seq<TypeName>, j: nat, t: TypeName)
    requires Ranked(known, rank) && SingleParent(known) && j <= |order|
    decreases j, rank(t)
  {
    Parents(known, t) != [] ==>
      var p := Parents(known, t)[0];
      assert p in Parents(known, t);
      && p in known
      && if VisitedBefore(known, order, j, p)
         then exists i :: 0 <= i < j && order[i] == p && InOrder(known, rank, order, i)
         else CompleteAbove(known, rank, order, j, p)
  }

  /** The visiting order lets the entry of the type at `j` become complete. */
  ghost predicate InOrder(known: Registry, rank: Ranking, order: seq<TypeName>, j: nat)
    requires Ranked(known, rank) && SingleParent(known) && j < |order|
    decreases j, rank(order[j]) + 1
  {
    && order[j] in known && !VisitedBefore(known, order, j, order[j])
    && CompleteAbove(known, rank, order, j, order[j])
  }

  /** A known type that shares no lineage with any visited before is in order; the first one visited is. */
  lemma {:induction false} UntouchedIsInOrder(known: Registry, rank: Ranking, order: seq<TypeName>, j: nat, t: TypeName)
    requires Ranked(known, rank) && SingleParent(known) && j <= |order| && t in known
      && !VisitedBefore(known, order, j, t)
    requires forall x :: IsAncestor(known, t, x) ==> x in known && !VisitedBefore(known, order, j, x)
    ensures CompleteAbove(known, rank, order, j, t)
    ensures j < |order| && t == order[j] ==> InOrder(known, rank, order, j)
    decreases rank(t)
  {
    if Parents(known, t) != [] {
      var p := Parents(known, t)[0];
      assert p in Parents(known, t);
      AncestorStep(known, t, p);
      forall x | IsAncestor(known, p, x) ensures IsAncestor(known, t, x) {
        AncestorStep(known, t, x);
      }
      UntouchedIsInOrder(known, rank, order, j, p);
    }
  }

  /** Every type is known and comes after its parents. */
  ghost predicate ParentsFirst(known: Registry, order: seq<TypeName>) {
    && (forall j :: 0 <= j < |order| ==> order[j] in known)
    && (forall i, j :: 0 <= i < j < |order| ==> order[i] != order[j])
    && (forall j, p :: 0 <= j < |order| && p in Parents(known, order[j]) ==> p in order[..j])
  }

  lemma {:induction false} AncestorsFirst(known: Registry, order: seq<TypeName>, j: nat, path: seq<TypeName>,
      x: TypeName)
    requires ParentsFirst(known, order) && j < |order| && PathBetween(known, path, order[j], x)
    ensures x in order[..j]
    decreases |path|
  {
    var p := path[0 + 1];
    assert p in Parents(known, order[j]);
    var i :| 0 <= i < j && order[i] == p;
    if |path| > 2 {
      AncestorsFirst(known, order, i, path[1..], x);
      assert order[..i] <= order[..j];
    }
  }

  /** When all ancestors are in the data and come first, every type is in order. */
  lemma {:induction false} ParentsFirstIsInOrder(known: Registry, rank: Ranking, order: seq<TypeName>, j: nat)
    requires Ranked(known, rank) && SingleParent(known) && ParentsFirst(known, order) && j < |order|
    ensures InOrder(known, rank, order, j)
    decreases j
  {
    var t := order[j];
    if VisitedBefore(known, order, j, t) {
      var i :| 0 <= i < j && (order[i] == t || IsAncestor(known, order[i], t));
      var path :| PathBetween(known, path, order[i], t);
      AncestorsFirst(known, order, i, path, t);
      assert false;
    }
    if Parents(known, t) != [] {
      var p := Parents(known, t)[0];
      assert p in Parents(known, t);
      var i :| 0 <= i < j && order[i] == p;
      ParentsFirstIsInOrder(known, rank, order, i);
    }
  }

  /** What is resolved before turn `j`. */
  ghost predicate ResolvedBy(known: Registry, visited: seq<TypeName>, order: seq<TypeName>, j: nat)
    requires j <= |order|
  {
    forall x :: x in visited <==> VisitedBefore(known, order, j, x)
  }

  /** The entries of the types that were in order are complete so far. */
  ghost predicate CompleteSoFar(known: Registry, rank: Ranking, raw: Overwrites, stored: Overwrites,
      order: seq<TypeName>, j: nat)
    requires Ranked(known, rank) && SingleParent(known) && j <= |order|
  {
    forall i :: 0 <= i < j && InOrder(known, rank, order, i) ==>
      order[i] in stored && Covers(known, raw, order[i], stored[order[i]])
  }

  lemma {:induction false} AboveAnswers(known: Registry, rank: Ranking, raw: Overwrites, stored: Overwrites,
      visited: seq<TypeName>,
      order: seq<TypeName>, j: nat, t: TypeName)
    requires Ranked(known, rank) && SingleParent(known) && j <= |order|
    requires ResolvedBy(known, visited, order, j) && CompleteSoFar(known, rank, raw, stored, order, j)
    requires t in known && t !in visited && CompleteAbove(known, rank, order, j, t)
    ensures Answers(known, rank, raw, stored, visited, t)
    decreases rank(t)
  {
    if Parents(known, t) != [] {
      var p := Parents(known, t)[0];
      assert p in Parents(known, t);
      if VisitedBefore(known, order, j, p) {
        var i :| 0 <= i < j && order[i] == p && InOrder(known, rank, order, i);
      } else {
        AboveAnswers(known, rank, raw, stored, visited, order, j, p);
      }
    }
  }

  /** Whether a type is in order is settled when its turn comes. */
  lemma {:induction false} InOrderPrefix(known: Registry, rank: Ranking, order: seq<TypeName>, more: seq<TypeName>,
      j: nat)
    requires Ranked(known, rank) && SingleParent(known) && j < |order|
    ensures InOrder(known, rank, order + more, j) <==> InOrder(known, rank, order, j)
    decreases j, 1, 0
  {
    assert forall i :: 0 <= i < |order| ==> (order + more)[i] == order[i];
    AbovePrefix(known, rank, order, more, j, order[j]);
  }

  lemma {:induction false} AbovePrefix(known: Registry, rank: Ranking, order: seq<TypeName>, more: seq<TypeName>,
      j: nat, t: TypeName)
    requires Ranked(known, rank) && SingleParent(known) && j <= |order|
    ensures forall x :: VisitedBefore(known, order + more, j, x) <==> VisitedBefore(known, order, j, x)
    ensures CompleteAbove(known, rank, order + more, j, t) <==> CompleteAbove(known, rank, order, j, t)
    decreases j, 0, rank(t)
  {
    var all := order + more;
    assert forall i :: 0 <= i < |order| ==> all[i] == order[i];
    if Parents(known, t) != [] {
      var p := Parents(known, t)[0];
      assert p in Parents(known, t);
      AbovePrefix(known, rank, order, more, j, p);
      forall i | 0 <= i < j ensures InOrder(known, rank, all, i) <==> InOrder(known, rank, order, i) {
        InOrderPrefix(known, rank, order, more, i);
      }
    }
  }

  /** `d` has exactly the inheritable keys of `t`, each with an inherited value. */
  ghost predicate IsLookup(known: Registry, raw: Overwrites, t: TypeName, d: Data) {
    && (forall k :: k in d <==> Available(known, raw, t, k))
    && (forall k :: k in d ==> Inherits(known, raw, t, k, d[k]))
  }

  lemma PlainAt(known: Registry, rank: Ranking, raw: Overwrites, t: TypeName, k: string)
    requires Ranked(known, rank) && SingleParent(known)
    ensures k in Plain(known, rank, raw, t) ==> Available(known, raw, t, k)
  {
    var plain := Plain(known, rank, raw, t);
    if k in plain {
      InheritsIsPlain(known, rank, raw, t, k, plain[k]);
      InheritedIsAvailable(known, raw, t, k, plain[k]);
    }
  }

  /** With one parent per type there is only one such lookup. */
  lemma LookupIsUnique(known: Registry, rank: Ranking, raw: Overwrites, t: TypeName, d: Data)
    requires Ranked(known, rank) && SingleParent(known) && IsLookup(known, raw, t, d)
    ensures d == Plain(known, rank, raw, t)
  {
    var plain := Plain(known, rank, raw, t);
    forall k ensures k in d <==> k in plain
      ensures k in d ==> d[k] == plain[k]
    {
      PlainAt(known, rank, raw, t, k);
      if k in d {
        InheritsIsPlain(known, rank, raw, t, k, d[k]);
      }
    }
    assert d.Keys == plain.Keys;
  }

  /** A complete entry is plain resolution of the raw data. */
  lemma CoveredIsPlain(known: Registry, rank: Ranking, raw: Overwrites, stored: Overwrites, t: TypeName)
    requires Ranked(known, rank) && SingleParent(known) && Merged(known, raw, stored)
    requires t in stored && Covers(known, raw, t, stored[t])
    ensures stored[t] == Plain(known, rank, raw, t)
  {
    forall k | k in stored[t]
      ensures Inherits(known, raw, t, k, stored[t][k]) && Available(known, raw, t, k)
    {
      assert Defines(stored, t, k);
      InheritedIsAvailable(known, raw, t, k, stored[t][k]);
    }
    LookupIsUnique(known, rank, raw, t, stored[t]);
  }

  /** The reduce of `get`: types nearer the front of the list win. */
  function Fold(list: seq<TypeName>, stored: Overwrites): Data {
    if list == [] then map[] else
      Fold(list[1..], stored) + (if list[0] in stored then stored[list[0]] else map[])
  }

  lemma {:induction false} FoldTakesFirst(list: seq<TypeName>, stored: Overwrites, k: string) returns (i: nat)
    ensures k in Fold(list, stored) <==> i < |list|
    ensures forall j :: 0 <= j < |list| && j < i ==> !Defines(stored, list[j], k)
    ensures i < |list| ==> Defines(stored, list[i], k) && Fold(list, stored)[k] == stored[list[i]][k]
  {
    if list == [] {
      i := 0;
    } else if Defines(stored, list[0], k) {
      i := 0;
    } else {
      var i' := FoldTakesFirst(list[1..], stored, k);
      i := i' + 1;
      forall j | 0 <= j < |list| && j < i ensures !Defines(stored, list[j], k) {
        if j > 0 {
          assert list[j] == list[1..][j - 1];
        }
      }
    }
  }

  /** A value inherited by a listed type is inherited by the head when nobody before defines the key. */
  lemma {:induction false} InheritsAlongList(known: Registry, raw: Overwrites, list: seq<TypeName>, i: nat, k: string,
      v: Value)
    requires Guided(known, list) && i < |list|
    requires Inherits(known, raw, list[i], k, v)
    requires forall j :: 0 <= j < i ==> !Defines(raw, list[j], k)
    ensures Inherits(known, raw, list[0], k, v)
    decreases i
  {
    if i > 0 {
      assert LedTo(known, list, i);
      var j :| 0 <= j < i && list[i] in Parents(known, list[j]);
      InheritsFromParent(known, raw, list[j], list[i], k, v);
      InheritsAlongList(known, raw, list, j, k, v);
    }
  }

  ghost predicate ListsAncestors(known: Registry, t: TypeName, list: seq<TypeName>) {
    && |list| > 0
    && list[0] == t
    && Guided(known, list)
    && forall x :: x in list[1..] <==> IsAncestor(known, t, x)
  }

  /** A lookup gives exactly the inheritable keys, each with an inherited value. */
  lemma LookupInherits(known: Registry, raw: Overwrites, stored: Overwrites, t: TypeName, list: seq<TypeName>,
      k: string)
    requires Merged(known, raw, stored) && ListsAncestors(known, t, list)
    ensures k in Fold(list, stored) <==> Available(known, raw, t, k)
    ensures k in Fold(list, stored) ==> Inherits(known, raw, t, k, Fold(list, stored)[k])
  {
    var i := FoldTakesFirst(list, stored, k);
    if i < |list| {
      forall j | 0 <= j < i ensures !Defines(raw, list[j], k) {
        assert !Defines(stored, list[j], k);
      }
      InheritsAlongList(known, raw, list, i, k, stored[list[i]][k]);
      InheritedIsAvailable(known, raw, t, k, stored[list[i]][k]);
    }
    assert forall a :: a == t || IsAncestor(known, t, a) ==> a in list;
  }

  lemma InheritedIsAvailable(known: Registry, raw: Overwrites, t: TypeName, k: string, v: Value)
    requires Inherits(known, raw, t, k, v)
    ensures Available(known, raw, t, k)
  {
    var path :| InheritsVia(known, raw, path, t, k, v);
    if |path| > 1 {
      assert PathBetween(known, path, t, path[|path| - 1]);
    }
  }

  /** For one parent per type, a lookup in the partly merged data is plain resolution of the raw data. */
  lemma LookupIsPlain(known: Registry, rank: Ranking, raw: Overwrites, stored: Overwrites, t: TypeName,
      list: seq<TypeName>)
    requires Ranked(known, rank) && SingleParent(known)
    requires Merged(known, raw, stored) && ListsAncestors(known, t, list)
    ensures Fold(list, stored) == Plain(known, rank, raw, t)
  {
    LookupsInherit(known, raw, stored, t, list);
    LookupIsUnique(known, rank, raw, t, Fold(list, stored));
  }

  lemma LookupsInherit(known: Registry, raw: Overwrites, stored: Overwrites, t: TypeName, list: seq<TypeName>)
    requires Merged(known, raw, stored) && ListsAncestors(known, t, list)
    ensures IsLookup(known, raw, t, Fold(list, stored))
  {
    forall k ensures k in Fold(list, stored) <==> Available(known, raw, t, k)
      ensures k in Fold(list, stored) ==> Inherits(known, raw, t, k, Fold(list, stored)[k])
    {
      LookupInherits(known, raw, stored, t, list, k);
    }
  }

  /** Merging what a merge stored is again a merge of the raw data. */
  lemma MergedTwice(known: Registry, raw: Overwrites, once: Overwrites, twice: Overwrites)
    requires Merged(known, raw, once) && Merged(known, once, twice)
    ensures Merged(known, raw, twice)
  {
    forall t, k | Defines(twice, t, k) ensures Inherits(known, raw, t, k, twice[t][k]) {
      var v := twice[t][k];
      assert Inherits(known, once, t, k, v);
      var path :| InheritsVia(known, once, path, t, k, v);
      InheritsThroughMerge(known, raw, once, path, t, k, v);
    }
  }

  lemma ViaTail(known: Registry, data: Overwrites, path: seq<TypeName>, t: TypeName, k: string, v: Value)
    requires InheritsVia(known, data, path, t, k, v) && |path| > 1
    ensures !Defines(data, t, k) && path[1] in Parents(known, t)
    ensures InheritsVia(known, data, path[1..], path[1], k, v)
  {
    assert path[0 + 1] in Parents(known, path[0]);
    var tail := path[1..];
    assert forall i :: 0 <= i < |tail| ==> tail[i] == path[i + 1];
  }

  lemma {:induction false} InheritsThroughMerge(known: Registry, raw: Overwrites, once: Overwrites,
      path: seq<TypeName>, t: TypeName, k: string, v: Value)
    requires Merged(known, raw, once) && InheritsVia(known, once, path, t, k, v)
    ensures Inherits(known, raw, t, k, v)
    decreases |path|
  {
    if |path| > 1 {
      ViaTail(known, once, path, t, k, v);
      assert !Defines(raw, t, k);
      InheritsThroughMerge(known, raw, once, path[1..], path[1], k, v);
      InheritsFromParent(known, raw, t, path[1], k, v);
    }
  }

  /** Saving the rewritten data and loading it again, in whatever visiting orders, changes no lookup. */
  lemma ReloadKeepsLookups(known: Registry, rank: Ranking, raw: Overwrites, once: Overwrites, twice: Overwrites,
      t: TypeName, list: seq<TypeName>)
    requires Ranked(known, rank) && SingleParent(known)
    requires Merged(known, raw, once) && Merged(known, once, twice) && ListsAncestors(known, t, list)
    ensures Fold(list, twice) == Fold(list, once)
  {
    MergedTwice(known, raw, once, twice);
    LookupIsPlain(known, rank, raw, once, t, list);
    LookupIsPlain(known, rank, raw, twice, t, list);
  }

  // ----- Filling a credential from the overwrites -----

  predicate Blank(data: Data, k: string) {
    k !in data || data[k] == Undefined || data[k] == Null || data[k] == Text("")
  }

  function Filled(overwrites: Data, data: Data): (r: Data)
    ensures r.Keys == data.Keys + overwrites.Keys
    ensures forall k :: k in overwrites && Blank(data, k) ==> r[k] == overwrites[k]
    ensures forall k :: k in data && !(k in overwrites && Blank(data, k)) ==> r[k] == data[k]
  {
    map k | k in data.Keys + overwrites.Keys ::
      if k in overwrites && Blank(data, k) then overwrites[k] else data[k]
  }

  /** A key is filled when it is missing, undefined, null or the empty string; every other value stays. */
  lemma FilledMeans(overwrites: Data, data: Data, k: string)
    ensures k in Filled(overwrites, data) <==> k in data || k in overwrites
    ensures k in overwrites && k !in data ==> Filled(overwrites, data)[k] == overwrites[k]
    ensures k in data && k in overwrites && (data[k].Undefined? || data[k].Null? || data[k] == Text("")) ==>
      Filled(overwrites, data)[k] == overwrites[k]
    ensures k in data && (k !in overwrites || !(data[k].Undefined? || data[k].Null? || data[k] == Text(""))) ==>
      Filled(overwrites, data)[k] == data[k]
  {
  }

  lemma FilledIdempotent(overwrites: Data, data: Data)
    ensures Filled(overwrites, Filled(overwrites, data)) == Filled(overwrites, data)
  {
  }

  // ----- One turn of the loop over the types -----

  ghost predicate EachOnce(order: seq<TypeName>, all: set<TypeName>) {
    && (forall t :: t in order <==> t in all)
    && (forall i, j :: 0 <= i < j < |order| ==> order[i] != order[j])
  }

  /**
   The stored entry of every type that was in order is plain resolution of the raw data: of the first
   type visited, if it and its ancestors are known, and of all types when parents come first.
   */
  ghost predicate Plainly(known: Registry, rank: Ranking, raw: Overwrites, stored: Overwrites, order: seq<TypeName>)
    requires Ranked(known, rank) && SingleParent(known)
  {
    && (forall j :: 0 <= j < |order| && InOrder(known, rank, order, j) ==>
      EntryIsPlain(known, rank, raw, stored, order[j]))
    && (|order| > 0 && order[0] in known && (forall x :: IsAncestor(known, order[0], x) ==> x in known) ==>
          EntryIsPlain(known, rank, raw, stored, order[0]))
    && (ParentsFirst(known, order) ==> forall t :: t in order ==> EntryIsPlain(known, rank, raw, stored, t))
  }

  ghost predicate EntryIsPlain(known: Registry, rank: Ranking, raw: Overwrites, stored: Overwrites, t: TypeName)
    requires Ranked(known, rank) && SingleParent(known)
  {
    t in stored && stored[t] == Plain(known, rank, raw, t)
  }

  /** Between `before` and `after` at most `t` and known ancestors of it have been resolved. */
  ghost predicate Grown(known: Registry, before: seq<TypeName>, after: seq<TypeName>, t: TypeName) {
    forall x :: x in after ==> x in before || (x in known && (x == t || IsAncestor(known, t, x)))
  }

  lemma GrownUp(known: Registry, first: seq<TypeName>, before: seq<TypeName>, after: seq<TypeName>, t: TypeName,
      p: TypeName)
    requires p in Parents(known, t) && Grown(known, first, before, t) && Grown(known, before, after, p)
    ensures Grown(known, first, after, t)
  {
    forall x | x in after ensures x in first || (x in known && (x == t || IsAncestor(known, t, x))) {
      AncestorStep(known, t, x);
    }
  }

  lemma VisitedTurn(known: Registry, order: seq<TypeName>, t: TypeName, x: TypeName)
    ensures VisitedBefore(known, order + [t], |order| + 1, x) <==>
      VisitedBefore(known, order, |order|, x) || (x in known && (x == t || IsAncestor(known, t, x)))
  {
    var all := order + [t];
    assert all[|order|] == t && forall i :: 0 <= i < |order| ==> all[i] == order[i];
    if VisitedBefore(known, order, |order|, x) {
      var i :| 0 <= i < |order| && (order[i] == x || IsAncestor(known, order[i], x));
      assert all[i] == order[i];
    }
  }

  lemma ResolvedTurn(known: Registry, before: seq<TypeName>, after: seq<TypeName>, order: seq<TypeName>, t: TypeName)
    requires ResolvedBy(known, before, order, |order|) && before <= after && Grown(known, before, after, t)
    requires Closed(known, after) && (t in known ==> t in after)
    ensures ResolvedBy(known, after, order + [t], |order + [t]|)
  {
    forall x ensures x in after <==> VisitedBefore(known, order + [t], |order| + 1, x) {
      VisitedTurn(known, order, t, x);
      if x in known && IsAncestor(known, t, x) {
        var path :| PathBetween(known, path, t, x);
        assert path[0 + 1] in Parents(known, t);
        ClosedUp(known, after, path, t, x);
      }
    }
  }

  /** A type that is in order gets a complete answer at its turn. */
  lemma TurnAnswers(known: Registry, rank: Ranking, raw: Overwrites, stored: Overwrites, visited: seq<TypeName>,
      order: seq<TypeName>, t: TypeName)
    requires Ranked(known, rank) && SingleParent(known)
    requires ResolvedBy(known, visited, order, |order|) && CompleteSoFar(known, rank, raw, stored, order, |order|)
    ensures InOrder(known, rank, order + [t], |order|) ==> Answers(known, rank, raw, stored, visited, t)
  {
    if InOrder(known, rank, order + [t], |order|) {
      AbovePrefix(known, rank, order, [t], |order|, t);
      AboveAnswers(known, rank, raw, stored, visited, order, |order|, t);
    }
  }

  function StoreAnswer(stored: Overwrites, t: TypeName, r: Option<Data>): Overwrites {
    if r.Some? && |r.value| > 0 then stored[t := r.value] else stored
  }

  /** Storing the answer for a type not visited before keeps what is complete and completes what is in order. */
  lemma TurnCompletes(known: Registry, rank: Ranking, raw: Overwrites, stored: Overwrites, visited: seq<TypeName>,
      order: seq<TypeName>, t: TypeName, r: Option<Data>)
    requires Ranked(known, rank) && SingleParent(known) && t !in order && t in stored
    requires ResolvedBy(known, visited, order, |order|)
    requires CompleteSoFar(known, rank, raw, stored, order, |order|)
    requires Answers(known, rank, raw, stored, visited, t) ==> Complete(known, raw, t, r)
    ensures CompleteSoFar(known, rank, raw, StoreAnswer(stored, t, r), order + [t], |order + [t]|)
  {
    var all, next := order + [t], StoreAnswer(stored, t, r);
    TurnAnswers(known, rank, raw, stored, visited, order, t);
    forall i | 0 <= i < |all| && InOrder(known, rank, all, i)
      ensures all[i] in next && Covers(known, raw, all[i], next[all[i]])
    {
      if i < |order| {
        InOrderPrefix(known, rank, order, [t], i);
        assert all[i] == order[i] && order[i] in order;
      } else if r.Some? && |r.value| == 0 {
        assert r.value == map[];
      }
    }
  }

  lemma TurnStores(known: Registry, raw: Overwrites, stored: Overwrites, t: TypeName, r: Option<Data>)
    requires Merged(known, raw, stored) && t in stored
    requires r.Some? ==> raw[t].Keys <= r.value.Keys && forall k :: k in r.value ==>
      Inherits(known, raw, t, k, r.value[k])
    ensures Merged(known, raw, StoreAnswer(stored, t, r))
  {
    if r.Some? && |r.value| > 0 {
      MergedStore(known, raw, stored, t, r.value);
    }
  }

  lemma SoFarIsPlain(known: Registry, rank: Ranking, raw: Overwrites, stored: Overwrites, order: seq<TypeName>)
    requires Ranked(known, rank) && SingleParent(known) && Merged(known, raw, stored)
    requires CompleteSoFar(known, rank, raw, stored, order, |order|)
    ensures Plainly(known, rank, raw, stored, order)
  {
    forall j | 0 <= j < |order| && InOrder(known, rank, order, j)
      ensures EntryIsPlain(known, rank, raw, stored, order[j]) {
      CoveredIsPlain(known, rank, raw, stored, order[j]);
    }
    if |order| > 0 && order[0] in known && forall x :: IsAncestor(known, order[0], x) ==> x in known {
      UntouchedIsInOrder(known, rank, order, 0, order[0]);
    }
    if ParentsFirst(known, order) {
      forall t | t in order ensures EntryIsPlain(known, rank, raw, stored, t) {
        var j :| 0 <= j < |order| && order[j] == t;
        ParentsFirstIsInOrder(known, rank, order, j);
      }
    }
  }

  class CredentialsOverwrites {
    const known: Registry
    var overwriteData: Overwrites
    var resolvedTypes: seq<TypeName>
    var reloading: bool
    /** The data as it was passed in, before it was rewritten in place. */
    ghost var raw: Overwrites

    ghost predicate Valid()
      reads this
    {
      Acyclic(known) && Merged(known, raw, overwriteData)
    }

    constructor (known: Registry)
      requires Acyclic(known)
      ensures Valid() && this.known == known && raw == map[] && overwriteData == map[] && !reloading
    {
      this.known := known;
      overwriteData, resolvedTypes, raw, reloading := map[], [], map[], false;
    }

    function Stored(t: TypeName): Option<Data>
      reads this
    {
      if t in overwriteData then Some(overwriteData[t]) else None
    }

    /** The answer for `t` will be complete: nothing that was visited before stands in the way. */
    ghost predicate WillAnswer(t: TypeName)
      requires Acyclic(known) && SingleParent(known)
      reads this
    {
      HeightsRank(known);
      Answers(known, Heights(known), raw, overwriteData, resolvedTypes, t)
    }

    method GetOverwrites(t: TypeName) returns (r: Option<Data>)
      requires Valid()
      modifies this`resolvedTypes
      ensures Valid()
      ensures old(resolvedTypes) <= resolvedTypes && Grown(known, old(resolvedTypes), resolvedTypes, t)
      ensures old(Closed(known, resolvedTypes)) ==> Closed(known, resolvedTypes)
      ensures t in known ==> t in resolvedTypes
      ensures r.Some? && t in raw ==> raw[t].Keys <= r.value.Keys
      ensures r.Some? ==> forall k :: k in r.value ==> Inherits(known, raw, t, k, r.value[k])
      ensures r.None? ==> t !in known || t !in overwriteData
      ensures t in old(resolvedTypes) || t !in known ==> resolvedTypes == old(resolvedTypes)
      ensures t in old(resolvedTypes) ==> r == Stored(t)
      ensures t !in old(resolvedTypes) && t !in known ==> r == None
      ensures SingleParent(known) && old(WillAnswer(t)) ==> Complete(known, raw, t, r)
      ensures SingleParent(known) && Fresh(known, old(resolvedTypes), t) ==> Complete(known, raw, t, r)
      decreases Height(known, t), 1
    {
      if SingleParent(known) && Fresh(known, resolvedTypes, t) {
        HeightsRank(known);
        FreshAnswers(known, Heights(known), raw, overwriteData, resolvedTypes, t);
      }
      if t in overwriteData {
        OwnStored(known, raw, overwriteData, t);
      }
      if t in resolvedTypes {
        return Stored(t);
      }
      if t !in known {
        return None;
      }
      ghost var own: Data := if t in overwriteData then overwriteData[t] else map[];
      if known[t].parents.None? {
        RootCovers(known, raw, t, own);
        resolvedTypes := resolvedTypes + [t];
        return Stored(t);
      }
      var overwrites := MergeParents(t, known[t].parents.value);
      OwnOnTop(known, raw, overwriteData, t, overwrites);
      if SingleParent(known) && old(WillAnswer(t)) {
        ChildCovers(known, raw, t, overwrites, own);
      }
      if t in overwriteData {
        overwrites := overwrites + overwriteData[t];
      }
      resolvedTypes := resolvedTypes + [t];
      return Some(overwrites);
    }

    /** The loop of `getOverwrites` over the parents of `t`. */
    method MergeParents(t: TypeName, parents: seq<TypeName>) returns (overwrites: Data)
      requires Valid() && parents == Parents(known, t)
      modifies this`resolvedTypes
      ensures Valid()
      ensures old(resolvedTypes) <= resolvedTypes && Grown(known, old(resolvedTypes), resolvedTypes, t)
      ensures old(Closed(known, resolvedTypes)) ==> Closed(known, resolvedTypes)
      ensures forall p :: p in parents && p in known ==> p in resolvedTypes
      ensures HandedDown(known, raw, t, overwrites)
      ensures SingleParent(known) && parents != [] && old(WillAnswer(parents[0])) ==>
        Covers(known, raw, parents[0], overwrites)
      decreases Height(known, t), 0
    {
      overwrites := map[];
      var i := 0;
      while i < |parents|
        invariant 0 <= i <= |parents|
        invariant Valid() && old(resolvedTypes) <= resolvedTypes && Grown(known, old(resolvedTypes), resolvedTypes, t)
        invariant old(Closed(known, resolvedTypes)) ==> Closed(known, resolvedTypes)
        invariant forall j :: 0 <= j < i && parents[j] in known ==> parents[j] in resolvedTypes
        invariant HandedDown(known, raw, t, overwrites)
        invariant i == 0 ==> resolvedTypes == old(resolvedTypes)
        invariant i > 0 && SingleParent(known) && old(WillAnswer(parents[0])) ==>
          Covers(known, raw, parents[0], overwrites)
      {
        var p := parents[i];
        assert p in Parents(known, t);
        ParentHasFewerAncestors(known, t, p);
        ghost var before := resolvedTypes;
        var inherited := GetOverwrites(p);
        GrownUp(known, old(resolvedTypes), before, resolvedTypes, t, p);
        if inherited.Some? {
          HandDown(known, raw, t, p, overwrites, inherited.value);
          overwrites := overwrites + inherited.value;
        }
        i := i + 1;
      }
    }

    /**
     Every visiting order is covered: the next type is any one not yet visited. The order decides
     which stored entries become complete.
     */
    method SetPlainData(data: Overwrites) returns (ghost order: seq<TypeName>)
      requires Acyclic(known)
      modifies this`overwriteData, this`resolvedTypes, this`raw
      ensures Valid() && raw == data
      ensures EachOnce(order, data.Keys)
      ensures SingleParent(known) ==>
        Ranked(known, Heights(known)) && Plainly(known, Heights(known), data, overwriteData, order)
    {
      HeightsRank(known);
      resolvedTypes := [];
      overwriteData := data;
      raw := data;
      order := [];
      MergedRaw(known, raw);
      var todo := data.Keys;
      while todo != {}
        invariant Valid() && raw == data
        invariant todo <= data.Keys && EachOnce(order, data.Keys - todo)
        invariant Closed(known, resolvedTypes) && ResolvedBy(known, resolvedTypes, order, |order|)
        invariant SingleParent(known) ==>
          CompleteSoFar(known, Heights(known), raw, overwriteData, order, |order|)
      {
        var t :| t in todo;
        VisitType(t, order);
        order := order + [t];
        todo := todo - {t};
      }
      assert data.Keys - todo == data.Keys;
      if SingleParent(known) {
        SoFarIsPlain(known, Heights(known), raw, overwriteData, order);
      }
    }

    /** One turn of that loop. */
    method VisitType(t: TypeName, ghost order: seq<TypeName>)
      requires Valid() && t in overwriteData && t !in order
      requires Closed(known, resolvedTypes) && ResolvedBy(known, resolvedTypes, order, |order|)
      requires SingleParent(known) ==>
        Ranked(known, Heights(known)) && CompleteSoFar(known, Heights(known), raw, overwriteData, order, |order|)
      modifies this`overwriteData, this`resolvedTypes
      ensures Valid()
      ensures Closed(known, resolvedTypes) && ResolvedBy(known, resolvedTypes, order + [t], |order + [t]|)
      ensures SingleParent(known) ==>
        CompleteSoFar(known, Heights(known), raw, overwriteData, order + [t], |order + [t]|)
    {
      var overwrites := AnswerInTurn(t, order);
      if overwrites.Some? && |overwrites.value| > 0 {
        overwriteData := overwriteData[t := overwrites.value];
      }
    }

    /** The answer for the type whose turn it is, with what it means to store it. */
    method AnswerInTurn(t: TypeName, ghost order: seq<TypeName>) returns (overwrites: Option<Data>)
      requires Valid() && t in overwriteData && t !in order
      requires Closed(known, resolvedTypes) && ResolvedBy(known, resolvedTypes, order, |order|)
      requires SingleParent(known) ==>
        Ranked(known, Heights(known)) && CompleteSoFar(known, Heights(known), raw, overwriteData, order, |order|)
      modifies this`resolvedTypes
      ensures Closed(known, resolvedTypes) && ResolvedBy(known, resolvedTypes, order + [t], |order + [t]|)
      ensures Merged(known, raw, StoreAnswer(overwriteData, t, overwrites))
      ensures SingleParent(known) ==>
        CompleteSoFar(known, Heights(known), raw, StoreAnswer(overwriteData, t, overwrites), order + [t], |order + [t]|)
    {
      ghost var visited := resolvedTypes;
      overwrites := GetOverwrites(t);
      ResolvedTurn(known, visited, resolvedTypes, order, t);
      TurnStores(known, raw, overwriteData, t, overwrites);
      if SingleParent(known) {
        TurnCompletes(known, Heights(known), raw, overwriteData, visited, order, t, overwrites);
      }
    }

    /** The object handed over is rewritten in place and that same object is saved. */
    method SetData(data: Overwrites, storeInDb: bool, persistence: bool)
        returns (saved: Option<Overwrites>, ghost order: seq<TypeName>)
      requires Acyclic(known)
      modifies this`overwriteData, this`resolvedTypes, this`raw
      ensures Valid() && raw == data
      ensures saved == if storeInDb && persistence then Some(overwriteData) else None
      ensures EachOnce(order, data.Keys)
      ensures SingleParent(known) ==>
        && Ranked(known, Heights(known))
        && Plainly(known, Heights(known), data, overwriteData, order)
        && (saved.Some? ==> Plainly(known, Heights(known), data, saved.value, order))
    {
      order := SetPlainData(data);
      if storeInDb && persistence {
        return Some(overwriteData), order;
      }
      return None, order;
    }

    method LoadOverwriteDataFromDb(row: Option<Overwrites>)
      requires Valid()
      modifies this
      ensures Valid()
      ensures !old(reloading) && row.Some? ==> raw == row.value
      ensures old(reloading) || row.None? ==> raw == old(raw) && overwriteData == old(overwriteData)
      ensures reloading == old(reloading)
    {
      if reloading {
        return;
      }
      reloading := true;
      if row.Some? {
        var _, _ := SetData(row.value, false, false);
      }
      reloading := false;
    }

    method Get(name: TypeName) returns (r: Data)
      requires Valid()
      ensures IsLookup(known, raw, name, r)
      ensures SingleParent(known) ==> Ranked(known, Heights(known)) && r == Plain(known, Heights(known), raw, name)
    {
      var parentTypes := GetParentTypes(known, name);
      var list := [name] + parentTypes;
      r := Fold(list, overwriteData);
      assert ListsAncestors(known, name, list) by {
        assert list[1..] == parentTypes;
      }
      LookupsInherit(known, raw, overwriteData, name, list);
      if SingleParent(known) {
        LookupIsUnique(known, Heights(known), raw, name, r);
      }
    }

    method ApplyOverwrite(t: TypeName, data: Data) returns (r: Data)
      requires Valid()
      ensures exists overwrites :: IsLookup(known, raw, t, overwrites) && r == Filled(overwrites, data)
      ensures SingleParent(known) ==>
        Ranked(known, Heights(known)) && r == Filled(Plain(known, Heights(known), raw, t), data)
    {
      var overwrites := Get(t);
      r := FillBlanks(overwrites, data);
    }
  }

  /** The keys may be visited in any order. */
  method FillBlanks(overwrites: Data, data: Data) returns (r: Data)
    ensures r == Filled(overwrites, data)
  {
    r := data;
    var todo := overwrites.Keys;
    while todo != {}
      invariant todo <= overwrites.Keys
      invariant r.Keys == data.Keys + (overwrites.Keys - todo)
      invariant forall k :: k in r ==>
        (k in overwrites && k !in todo && Blank(data, k) ==> r[k] == overwrites[k])
      invariant forall k :: k in data && !(k in overwrites && k !in todo && Blank(data, k)) ==> r[k] == data[k]
    {
      var k :| k in todo;
      if Blank(r, k) {
        r := r[k := overwrites[k]];
      }
      todo := todo - {k};
    }
  }

  /** Save, then load in another process: every lookup answers as before. */
  method SaveAndReload(first: CredentialsOverwrites, second: CredentialsOverwrites, data: Overwrites, name: TypeName)
      returns (a: Data, b: Data)
    requires first != second && first.known == second.known && Acyclic(first.known) && SingleParent(first.known)
    requires second.Valid() && !second.reloading
    modifies first, second
    ensures a == b
  {
    var saved, _ := first.SetData(data, true, true);
    a := first.Get(name);
    ghost var once := first.overwriteData;
    second.LoadOverwriteDataFromDb(saved);
    b := second.Get(name);
    var list := GetParentTypes(first.known, name);
    ghost var all := [name] + list;
    assert all[1..] == list;
    HeightsRank(first.known);
    ReloadKeepsLookups(first.known, Heights(first.known), data, once, second.overwriteData, name, all);
    LookupIsPlain(first.known, Heights(first.known), data, once, name, all);
    LookupIsPlain(first.known, Heights(first.known), once, second.overwriteData, name, all);
  }
}
