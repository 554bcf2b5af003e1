/**
 Flattening nested data to dot-joined keys: `flattenObject` and `flattenKeys` of
 packages/nodes-base/utils/utilities.ts.
 */
module Flatten {
  import opened Json

  type Path = seq<string>

  // ----- Paths and their text -----

  function Join(p: Path): string {
    if p == [] then "" else if |p| == 1 then p[0] else p[0] + "." + Join(p[1..])
  }

  function FirstDot(s: string): (i: nat)
    ensures i <= |s| && '.' !in s[..i] && (i < |s| ==> s[i] == '.')
  {
    if s == "" || s[0] == '.' then 0 else
      var j := FirstDot(s[1..]);
      assert s[..1 + j] == [s[0]] + s[1..][..j];
      1 + j
  }

  function Split(s: string): (p: Path)
    ensures |p| > 0
  {
    var i := FirstDot(s);
    if i == |s| then [s] else [s[..i]] + Split(s[i + 1..])
  }

  ghost predicate DotFreePath(p: Path) {
    forall i :: 0 <= i < |p| ==> '.' !in p[i]
  }

  lemma {:induction false} FirstDotIs(a: string, b: string)
    requires '.' !in a
    ensures FirstDot(a) == |a| && FirstDot(a + "." + b) == |a|
    decreases |a|
  {
    if a == "" {
      assert (a + "." + b)[0] == '.';
    } else {
      assert a[0] in a && forall c :: c in a[1..] ==> c in a;
      FirstDotIs(a[1..], b);
      assert (a + "." + b)[1..] == a[1..] + "." + b;
    }
  }

  lemma SplitCons(a: string, b: string)
    requires '.' !in a
    ensures Split(a + "." + b) == [a] + Split(b)
  {
    FirstDotIs(a, b);
    var s := a + "." + b;
    assert s[..|a|] == a && s[|a| + 1..] == b;
  }

  /** Splitting undoes joining: distinct paths never collide. */
  lemma {:induction false} SplitJoin(p: Path)
    requires p != [] && DotFreePath(p)
    ensures Split(Join(p)) == p
    decreases |p|
  {
    assert '.' !in p[0];
    if |p| == 1 {
      FirstDotIs(p[0], "");
    } else {
      SplitJoin(p[1..]);
      SplitCons(p[0], Join(p[1..]));
      assert p == [p[0]] + p[1..];
    }
  }

  /** A text with a dot is what comes before the first one and what comes after it. */
  lemma SplitParts(s: string)
    requires FirstDot(s) < |s|
    ensures var i := FirstDot(s);
      Split(s) == [s[..i]] + Split(s[i + 1..]) && s == s[..i] + "." + s[i + 1..]
  {
    DotParts(s, FirstDot(s));
  }

  lemma DotParts(s: string, i: nat)
    requires i < |s| && s[i] == '.'
    ensures s == s[..i] + "." + s[i + 1..]
  {
    assert s == s[..i] + [s[i]] + s[i + 1..];
  }

  lemma JoinParts(head: string, p: Path, rest: string)
    requires p != [] && Join(p) == rest
    ensures Join([head] + p) == head + "." + rest
  {
    JoinCons(head, p);
  }

  lemma {:induction false} JoinSplit(s: string)
    ensures Join(Split(s)) == s
    decreases |s|
  {
    if FirstDot(s) < |s| {
      var head, rest := s[..FirstDot(s)], s[FirstDot(s) + 1..];
      SplitParts(s);
      JoinSplit(rest);
      JoinParts(head, Split(rest), rest);
    }
  }

  lemma JoinCons(k: string, p: Path)
    requires p != []
    ensures Join([k] + p) == k + "." + Join(p)
  {
    assert ([k] + p)[1..] == p;
  }

  // ----- Leaves -----

  /** `p` leads from `j` to a value that is neither object nor array. */
  predicate LeafPath(j: Json, p: Path) {
    if p == [] then !IsContainer(j)
    else p[0] in Children(j) && LeafPath(Children(j)[p[0]], p[1..])
  }

  function At(j: Json, p: Path): Json
    requires LeafPath(j, p)
  {
    if p == [] then j else At(Children(j)[p[0]], p[1..])
  }

  ghost predicate DotFree(j: Json)
    decreases j
  {
    forall k :: k in Children(j) ==> '.' !in k && DotFree(Children(j)[k])
  }

  lemma {:induction false} LeafPathsDotFree(j: Json, p: Path)
    requires DotFree(j) && LeafPath(j, p)
    ensures DotFreePath(p)
    decreases |p|
  {
    if p != [] {
      LeafPathsDotFree(Children(j)[p[0]], p[1..]);
      forall i | 0 <= i < |p| ensures '.' !in p[i] {
        if i > 0 {
          assert p[i] == p[1..][i - 1];
        }
      }
    }
  }

  // ----- The flat map -----

  type Flat = map<string, Json>

  /** `m` holds the leaves under the children in `done`, each under the text of its path, and nothing else. */
  ghost predicate Flattens(j: Json, done: set<string>, m: Flat) {
    && (forall p {:trigger Join(p)} :: LeafPath(j, p) && p != [] && p[0] in done ==>
      Join(p) in m && m[Join(p)] == At(j, p))
    && (forall s :: s in m ==> LeafPath(j, Split(s)) && Split(s)[0] in done)
  }

  ghost predicate IsFlat(j: Json, m: Flat) {
    Flattens(j, Children(j).Keys, m)
  }

  /** What a leaf can be. */
  predicate Plain(j: Json) {
    j.Null? || j.Bool? || j.Num? || j.Str?
  }

  lemma {:induction false} LeafIsPlain(j: Json, p: Path)
    requires LeafPath(j, p)
    ensures Plain(At(j, p))
    decreases |p|
  {
    if p != [] {
      LeafIsPlain(Children(j)[p[0]], p[1..]);
    }
  }

  lemma FlatIsPlain(j: Json, m: Flat)
    requires IsFlat(j, m)
    ensures forall s :: s in m ==> Plain(m[s])
  {
    forall s | s in m ensures Plain(m[s]) {
      JoinSplit(s);
      LeafIsPlain(j, Split(s));
    }
  }

  /** Only one map is the flat form. */
  lemma FlatUnique(j: Json, m: Flat, m': Flat)
    requires IsContainer(j) && DotFree(j) && IsFlat(j, m) && IsFlat(j, m')
    ensures m == m'
  {
    forall s ensures s in m <==> s in m'
      ensures s in m ==> m[s] == m'[s]
    {
      JoinSplit(s);
      assert s in m || s in m' ==> LeafPath(j, Split(s)) && Split(s)[0] in Children(j);
    }
  }

  /** Every leaf can be found again from the text of its path. */
  ghost predicate Splittable(j: Json) {
    forall p {:trigger Join(p)} :: LeafPath(j, p) && p != [] ==> Split(Join(p)) == p
  }

  ghost predicate PathsDotFree(j: Json) {
    forall p {:trigger DotFreePath(p)} :: LeafPath(j, p) ==> DotFreePath(p)
  }

  lemma DotFreeSplittable(j: Json)
    requires DotFree(j)
    ensures Splittable(j) && PathsDotFree(j)
  {
    forall p | LeafPath(j, p) ensures DotFreePath(p) {
      LeafPathsDotFree(j, p);
    }
    forall p | LeafPath(j, p) && p != [] ensures Split(Join(p)) == p {
      LeafText(j, p);
    }
  }

  lemma LeafText(j: Json, p: Path)
    requires DotFree(j) && LeafPath(j, p) && p != []
    ensures Split(Join(p)) == p
  {
    LeafPathsDotFree(j, p);
    SplitJoin(p);
  }

  lemma KeyText(k: string)
    requires '.' !in k
    ensures Join([k]) == k && Split(k) == [k]
  {
  }

  /** Below a child that is a leaf there is just the one path. */
  lemma LeafChild(j: Json, k: string, p: Path)
    requires k in Children(j) && !IsContainer(Children(j)[k])
    ensures LeafPath(j, [k]) && At(j, [k]) == Children(j)[k]
    ensures LeafPath(j, p) && p != [] && p[0] == k ==> p == [k]
  {
    var v := Children(j)[k];
    assert [k][1..] == [] && LeafPath(v, []) && At(v, []) == v;
    if LeafPath(j, p) && p != [] && p[0] == k {
      assert LeafPath(v, p[1..]);
      assert Children(v) == map[];
      assert p[1..] == [];
      assert p == [p[0]] + p[1..];
    }
  }

  lemma LeafCovered(j: Json, done: set<string>, m: Flat, k: string, p: Path)
    requires Splittable(j) && Flattens(j, done, m) && k in Children(j) && '.' !in k && !IsContainer(Children(j)[k])
    requires LeafPath(j, p) && p != [] && p[0] in done + {k}
    ensures Join(p) in m[k := Children(j)[k]] && m[k := Children(j)[k]][Join(p)] == At(j, p)
  {
  }

  lemma AddLeaf(j: Json, done: set<string>, m: Flat, k: string)
    requires Splittable(j) && Flattens(j, done, m) && k in Children(j) && '.' !in k && !IsContainer(Children(j)[k])
    ensures Flattens(j, done + {k}, m[k := Children(j)[k]])
  {
    var m' := m[k := Children(j)[k]];
    forall p | LeafPath(j, p) && p != [] && p[0] in done + {k} ensures Join(p) in m' && m'[Join(p)] == At(j, p) {
      LeafCovered(j, done, m, k, p);
    }
    forall s | s in m' ensures LeafPath(j, Split(s)) && Split(s)[0] in done + {k} {
      if s == k {
        KeyText(k);
        LeafChild(j, k, [k]);
      }
    }
  }

  /** The flat form of one child, with its key in front, while the part in `todo` is still missing. */
  ghost predicate Prefixed(k: string, flat: Flat, todo: set<string>, base: Flat, m: Flat) {
    && (forall s :: s in base ==> s in m && m[s] == base[s])
    && (forall t :: t in flat && t !in todo ==> k + "." + t in m && m[k + "." + t] == flat[t])
    && (forall s :: s in m && s !in base ==> exists t :: t in flat && t !in todo && s == k + "." + t)
  }

  /** The leaves below a child, with its key in front. */
  lemma LeafBelow(j: Json, k: string, q: Path)
    requires k in Children(j)
    ensures LeafPath(j, [k] + q) <==> LeafPath(Children(j)[k], q)
    ensures LeafPath(j, [k] + q) ==> At(j, [k] + q) == At(Children(j)[k], q)
  {
  }

  lemma ChildCovered(j: Json, done: set<string>, base: Flat, k: string, flat: Flat, m: Flat, p: Path)
    requires Flattens(j, done, base) && k in Children(j) && IsContainer(Children(j)[k])
    requires IsFlat(Children(j)[k], flat) && Prefixed(k, flat, {}, base, m)
    requires LeafPath(j, p) && p != [] && p[0] in done + {k}
    ensures Join(p) in m && m[Join(p)] == At(j, p)
  {
    if p[0] in done {
      assert Join(p) in base;
    } else {
      var q := p[1..];
      assert p == [k] + q;
      LeafBelow(j, k, q);
      assert q != [];
      JoinCons(k, q);
      assert Join(q) in flat;
    }
  }

  lemma ChildKey(j: Json, k: string, t: string)
    requires '.' !in k && k in Children(j) && LeafPath(Children(j)[k], Split(t))
    ensures Split(k + "." + t)[0] == k && LeafPath(j, Split(k + "." + t))
  {
    SplitCons(k, t);
    LeafBelow(j, k, Split(t));
  }

  lemma AddChild(j: Json, done: set<string>, base: Flat, k: string, flat: Flat, m: Flat)
    requires Flattens(j, done, base) && k in Children(j) && '.' !in k && IsContainer(Children(j)[k])
    requires IsFlat(Children(j)[k], flat) && Prefixed(k, flat, {}, base, m)
    ensures Flattens(j, done + {k}, m)
  {
    forall p | LeafPath(j, p) && p != [] && p[0] in done + {k} ensures Join(p) in m && m[Join(p)] == At(j, p) {
      ChildCovered(j, done, base, k, flat, m, p);
    }
    forall s | s in m ensures LeafPath(j, Split(s)) && Split(s)[0] in done + {k} {
      if s !in base {
        var t :| t in flat && s == k + "." + t;
        ChildKey(j, k, t);
      }
    }
  }

  /** A key with the prefix of an unvisited child is not in the map yet. */
  lemma NotYetThere(j: Json, done: set<string>, base: Flat, k: string, t: string)
    requires Flattens(j, done, base) && '.' !in k && k !in done
    ensures k + "." + t !in base
  {
    SplitCons(k, t);
  }

  /** The nested loops of `flattenObject`. Keys may come in any order. */
  method FlattenObject(data: Json) returns (r: Flat)
    requires IsContainer(data) && DotFree(data)
    ensures IsFlat(data, r)
    ensures forall s :: s in r ==> Plain(r[s])
    decreases data
  {
    DotFreeSplittable(data);
    r := map[];
    var todo := Children(data).Keys;
    while todo != {}
      invariant todo <= Children(data).Keys
      invariant Flattens(data, Children(data).Keys - todo, r)
    {
      var key1 :| key1 in todo;
      var value := Children(data)[key1];
      ghost var done, base := Children(data).Keys - todo, r;
      if IsContainer(value) {
        var flat := FlattenObject(value);
        var todo2 := flat.Keys;
        while todo2 != {}
          invariant todo2 <= flat.Keys
          invariant Prefixed(key1, flat, todo2, base, r)
        {
          var key2 :| key2 in todo2;
          NotYetThere(data, done, base, key1, key2);
          PrefixedStep(key1, flat, todo2, base, r, key2);
          r := r[key1 + "." + key2 := flat[key2]];
          todo2 := todo2 - {key2};
        }
        AddChild(data, done, base, key1, flat, r);
      } else {
        AddLeaf(data, done, base, key1);
        r := r[key1 := value];
      }
      assert done + {key1} == Children(data).Keys - (todo - {key1});
      todo := todo - {key1};
    }
    assert Children(data).Keys - todo == Children(data).Keys;
    FlatIsPlain(data, r);
  }

  lemma PrefixedStep(k: string, flat: Flat, todo: set<string>, base: Flat, m: Flat, t: string)
    requires Prefixed(k, flat, todo, base, m) && t in todo && t in flat && k + "." + t !in base
    ensures Prefixed(k, flat, todo - {t}, base, m[k + "." + t := flat[t]])
  {
    var s' := k + "." + t;
    forall u | u in flat && k + "." + u == s' ensures u == t {
      assert (k + "." + u)[|k| + 1..] == u && s'[|k| + 1..] == t;
    }
  }

  // ----- flattenKeys: the recursion that carries the path -----

  /** Lodash would iterate an object with a numeric `length` as if it were an array. */
  ghost predicate NoArrayLike(j: Json)
    decreases j
  {
    && (j.Obj? && "length" in j.fields ==> !j.fields["length"].Num?)
    && forall k :: k in Children(j) ==> NoArrayLike(Children(j)[k])
  }

  /** `m` holds the leaves of `j` on paths that start in `done`, under the text of `prefix` and the path. */
  ghost predicate KeysUnder(j: Json, prefix: Path, done: set<string>, m: Flat) {
    && (forall p {:trigger Join(prefix + p)} :: LeafPath(j, p) && (p == [] || p[0] in done) ==>
      Join(prefix + p) in m && m[Join(prefix + p)] == At(j, p))
    && (forall s :: s in m ==> exists p :: LeafPath(j, p) && (p == [] || p[0] in done) && s == Join(prefix + p))
  }

  lemma PathsUnder(prefix: Path, p: Path, q: Path)
    requires DotFreePath(prefix) && DotFreePath(p) && DotFreePath(q) && prefix + p != [] && prefix + q != []
    requires Join(prefix + p) == Join(prefix + q)
    ensures p == q
  {
    SplitJoin(prefix + p);
    SplitJoin(prefix + q);
    assert (prefix + p)[|prefix|..] == p && (prefix + q)[|prefix|..] == q;
  }

  lemma MergeOwn(j: Json, prefix: Path, k: string, sub: Flat, p: Path)
    requires k in Children(j) && KeysUnder(Children(j)[k], prefix + [k], Children(Children(j)[k]).Keys, sub)
    requires LeafPath(j, p) && p != [] && p[0] == k
    ensures Join(prefix + p) in sub && sub[Join(prefix + p)] == At(j, p)
  {
    var q := p[1..];
    assert p == [k] + q;
    LeafBelow(j, k, q);
    assert prefix + p == prefix + [k] + q;
    assert Join(prefix + [k] + q) in sub;
  }

  /** The path of another child has another text. */
  lemma MergeOther(j: Json, prefix: Path, k: string, sub: Flat, p: Path)
    requires PathsDotFree(j) && DotFreePath(prefix) && IsContainer(j)
    requires k in Children(j) && KeysUnder(Children(j)[k], prefix + [k], Children(Children(j)[k]).Keys, sub)
    requires LeafPath(j, p) && p != [] && p[0] != k
    ensures Join(prefix + p) !in sub
  {
    forall q | LeafPath(Children(j)[k], q) ensures Join(prefix + p) != Join(prefix + [k] + q) {
      assert prefix + [k] + q == prefix + ([k] + q);
      LeafBelow(j, k, q);
      assert DotFreePath(p) && DotFreePath([k] + q);
      if Join(prefix + p) == Join(prefix + ([k] + q)) {
        PathsUnder(prefix, p, [k] + q);
      }
    }
  }

  lemma MergeCovered(j: Json, prefix: Path, done: set<string>, cum: Flat, k: string, sub: Flat, p: Path)
    requires PathsDotFree(j) && DotFreePath(prefix) && IsContainer(j)
    requires k in Children(j) && k !in done && KeysUnder(j, prefix, done, cum)
    requires KeysUnder(Children(j)[k], prefix + [k], Children(Children(j)[k]).Keys, sub)
    requires LeafPath(j, p) && p != [] && p[0] in done + {k}
    ensures Join(prefix + p) in cum + sub && (cum + sub)[Join(prefix + p)] == At(j, p)
  {
    if p[0] == k {
      MergeOwn(j, prefix, k, sub, p);
    } else {
      MergeOther(j, prefix, k, sub, p);
      assert Join(prefix + p) in cum;
    }
  }

  lemma MergeAdds(j: Json, prefix: Path, done: set<string>, cum: Flat, k: string, sub: Flat, s: string)
      returns (p: Path)
    requires k in Children(j) && KeysUnder(j, prefix, done, cum)
    requires KeysUnder(Children(j)[k], prefix + [k], Children(Children(j)[k]).Keys, sub)
    requires s in cum + sub
    ensures LeafPath(j, p) && (p == [] || p[0] in done + {k}) && s == Join(prefix + p)
  {
    if s in sub {
      var q :| LeafPath(Children(j)[k], q) && s == Join(prefix + [k] + q);
      p := [k] + q;
      assert prefix + [k] + q == prefix + p;
      LeafBelow(j, k, q);
    } else {
      p :| LeafPath(j, p) && (p == [] || p[0] in done) && s == Join(prefix + p);
    }
  }

  lemma MergeChild(j: Json, prefix: Path, done: set<string>, cum: Flat, k: string, sub: Flat)
    requires PathsDotFree(j) && DotFreePath(prefix) && IsContainer(j)
    requires k in Children(j) && k !in done && KeysUnder(j, prefix, done, cum)
    requires KeysUnder(Children(j)[k], prefix + [k], Children(Children(j)[k]).Keys, sub)
    ensures KeysUnder(j, prefix, done + {k}, cum + sub)
  {
    forall p | LeafPath(j, p) && (p == [] || p[0] in done + {k})
      ensures Join(prefix + p) in cum + sub && (cum + sub)[Join(prefix + p)] == At(j, p)
    {
      MergeCovered(j, prefix, done, cum, k, sub, p);
    }
    forall s | s in cum + sub
      ensures exists p :: LeafPath(j, p) && (p == [] || p[0] in done + {k}) && s == Join(prefix + p)
    {
      var p := MergeAdds(j, prefix, done, cum, k, sub, s);
    }
  }

  method FlattenKeys(obj: Json, prefix: Path) returns (r: Flat)
    requires DotFree(obj) && DotFreePath(prefix) && NoArrayLike(obj)
    ensures KeysUnder(obj, prefix, Children(obj).Keys, r)
    decreases obj
  {
    if !IsContainer(obj) {
      r := map[Join(prefix) := obj];
      assert prefix + [] == prefix && LeafPath(obj, []);
      return;
    }
    DotFreeSplittable(obj);
    r := map[];
    var todo := Children(obj).Keys;
    while todo != {}
      invariant todo <= Children(obj).Keys
      invariant KeysUnder(obj, prefix, Children(obj).Keys - todo, r)
    {
      var key :| key in todo;
      var sub := FlattenKeys(Children(obj)[key], prefix + [key]);
      MergeChild(obj, prefix, Children(obj).Keys - todo, r, key, sub);
      assert Children(obj).Keys - todo + {key} == Children(obj).Keys - (todo - {key});
      r := r + sub;
      todo := todo - {key};
    }
    assert Children(obj).Keys - todo == Children(obj).Keys;
  }

  /** Both functions compute the same map. */
  lemma FlattenKeysAgrees(j: Json, m: Flat, flat: Flat)
    requires IsContainer(j) && DotFree(j) && KeysUnder(j, [], Children(j).Keys, m) && IsFlat(j, flat)
    ensures m == flat
  {
    DotFreeSplittable(j);
    KeysAreFlat(j, m);
    FlatUnique(j, m, flat);
  }

  lemma KeysAreFlat(j: Json, m: Flat)
    requires IsContainer(j) && Splittable(j) && KeysUnder(j, [], Children(j).Keys, m)
    ensures IsFlat(j, m)
  {
    forall p {:trigger Join(p)} | LeafPath(j, p) && p != [] && p[0] in Children(j).Keys
      ensures Join(p) in m && m[Join(p)] == At(j, p)
    {
      KeyOfLeaf(j, m, p);
    }
    forall s | s in m ensures LeafPath(j, Split(s)) && Split(s)[0] in Children(j).Keys {
      LeafOfKey(j, m, s);
    }
  }

  lemma KeyOfLeaf(j: Json, m: Flat, p: Path)
    requires KeysUnder(j, [], Children(j).Keys, m) && LeafPath(j, p)
    ensures Join(p) in m && m[Join(p)] == At(j, p)
  {
    assert [] + p == p;
    assert Join([] + p) in m;
  }

  lemma LeafOfKey(j: Json, m: Flat, s: string)
    requires IsContainer(j) && Splittable(j) && KeysUnder(j, [], Children(j).Keys, m) && s in m
    ensures LeafPath(j, Split(s)) && Split(s)[0] in Children(j).Keys
  {
    var p :| LeafPath(j, p) && s == Join([] + p);
    assert [] + p == p && p != [];
  }

  // ----- Rebuilding the data -----

  /** Nested objects only: arrays are read as index-keyed objects and empty containers are gone. */
  datatype Tree = Leaf(value: Json) | Node(children: map<string, Tree>)

  ghost predicate HasLeaf(j: Json) {
    exists p :: LeafPath(j, p)
  }

  ghost function Prune(j: Json): Tree
    decreases j
  {
    if !IsContainer(j) then Leaf(j) else
      Node(map k | k in Children(j) && HasLeaf(Children(j)[k]) :: Prune(Children(j)[k]))
  }

  ghost function Heads(f: map<Path, Json>): set<string> {
    set p | p in f && p != [] :: p[0]
  }

  ghost function Below(f: map<Path, Json>, k: string): map<Path, Json> {
    assert forall p, q :: p in f && q in f && p != [] && q != [] && p[0] == k && q[0] == k && p[1..] == q[1..] ==>
      p == q by {
      forall p, q | p in f && q in f && p != [] && q != [] && p[0] == k && q[0] == k && p[1..] == q[1..]
        ensures p == q
      {
        assert p == [p[0]] + p[1..] && q == [q[0]] + q[1..];
      }
    }
    map p | p in f && p != [] && p[0] == k :: p[1..] := f[p]
  }

  /** Put the leaves back under nested objects. */
  ghost function Rebuild(f: map<Path, Json>, depth: nat): Tree
    decreases depth
  {
    if [] in f then Leaf(f[[]])
    else if depth == 0 then Node(map[])
    else Node(map k | k in Heads(f) :: Rebuild(Below(f, k), depth - 1))
  }

  ghost predicate Has(f: map<Path, Json>, p: Path) {
    p in f
  }

  /** `f` holds exactly the leaves of `j`, on paths no longer than `depth`. */
  ghost predicate Leaves(j: Json, f: map<Path, Json>, depth: int) {
    && (forall p {:trigger Has(f, p)} :: Has(f, p) <==> LeafPath(j, p))
    && (forall p {:trigger Has(f, p)} :: Has(f, p) ==> f[p] == At(j, p) && |p| <= depth)
  }

  lemma BelowIs(f: map<Path, Json>, k: string, q: Path)
    ensures Has(Below(f, k), q) <==> Has(f, [k] + q)
    ensures Has(Below(f, k), q) ==> Below(f, k)[q] == f[[k] + q]
  {
    assert ([k] + q)[1..] == q && ([k] + q)[0] == k;
    if q in Below(f, k) {
      var p :| p in f && p != [] && p[0] == k && p[1..] == q && Below(f, k)[q] == f[p];
      assert p == [k] + q;
    }
  }

  lemma BelowLeaves(j: Json, f: map<Path, Json>, k: string, depth: nat)
    requires Leaves(j, f, depth) && k in Children(j)
    ensures Leaves(Children(j)[k], Below(f, k), depth - 1)
  {
    forall q ensures Has(Below(f, k), q) <==> LeafPath(Children(j)[k], q)
      ensures Has(Below(f, k), q) ==> Below(f, k)[q] == At(Children(j)[k], q) && |q| <= depth - 1
    {
      BelowIs(f, k, q);
      LeafBelow(j, k, q);
    }
  }

  lemma HeadsAreChildren(j: Json, f: map<Path, Json>, depth: int, k: string)
    requires Leaves(j, f, depth)
    ensures k in Heads(f) <==> k in Children(j) && HasLeaf(Children(j)[k])
  {
    if k in Heads(f) {
      var p :| p in f && p != [] && p[0] == k;
      assert Has(f, p);
      assert LeafPath(Children(j)[k], p[1..]);
    }
    if k in Children(j) && HasLeaf(Children(j)[k]) {
      var q :| LeafPath(Children(j)[k], q);
      LeafBelow(j, k, q);
      assert Has(f, [k] + q);
    }
  }

  /** The child `k` comes out of the leaves below it. */
  ghost predicate ChildRebuilt(j: Json, f: map<Path, Json>, k: string, depth: nat) {
    depth > 0 && k in Children(j) ==> Rebuild(Below(f, k), depth - 1) == Prune(Children(j)[k])
  }

  lemma SameNode(j: Json, f: map<Path, Json>, depth: nat)
    requires IsContainer(j) && [] !in f && depth > 0
    requires forall k :: k in Heads(f) <==> k in Children(j) && HasLeaf(Children(j)[k])
    requires forall k :: ChildRebuilt(j, f, k, depth)
    ensures Rebuild(f, depth) == Prune(j)
  {
    var a, b := Rebuild(f, depth).children, Prune(j).children;
    assert a.Keys == b.Keys;
    forall k | k in a ensures a[k] == b[k] {
      assert ChildRebuilt(j, f, k, depth);
    }
    assert a == b;
  }

  lemma NoHeads(j: Json, f: map<Path, Json>)
    requires IsContainer(j) && Leaves(j, f, 0)
    requires forall k :: k in Heads(f) <==> k in Children(j) && HasLeaf(Children(j)[k])
    ensures Prune(j) == Node(map[])
  {
    forall p | p in f ensures p == [] {
      assert Has(f, p);
    }
    assert Heads(f) == {};
    assert Prune(j).children == map[];
  }

  lemma AllHeads(j: Json, f: map<Path, Json>, depth: nat)
    requires Leaves(j, f, depth)
    ensures forall k :: k in Heads(f) <==> k in Children(j) && HasLeaf(Children(j)[k])
  {
    forall k ensures k in Heads(f) <==> k in Children(j) && HasLeaf(Children(j)[k]) {
      HeadsAreChildren(j, f, depth, k);
    }
  }

  /** Whatever is below the children, they are put together in the same way. */
  lemma RebuildStep(j: Json, f: map<Path, Json>, depth: nat)
    requires Leaves(j, f, depth)
    requires forall k :: ChildRebuilt(j, f, k, depth)
    ensures Rebuild(f, depth) == Prune(j)
  {
    assert Has(f, []) <==> LeafPath(j, []);
    if IsContainer(j) {
      AllHeads(j, f, depth);
      if depth > 0 {
        SameNode(j, f, depth);
      } else {
        NoHeads(j, f);
      }
    }
  }

  lemma {:induction false} RebuildLeaves(j: Json, f: map<Path, Json>, depth: nat)
    requires Leaves(j, f, depth)
    ensures Rebuild(f, depth) == Prune(j)
    decreases depth, 0
  {
    forall k ensures ChildRebuilt(j, f, k, depth) {
      if depth > 0 && k in Children(j) {
        RebuildBelow(j, f, k, depth - 1);
      }
    }
    RebuildStep(j, f, depth);
  }

  lemma {:induction false} RebuildBelow(j: Json, f: map<Path, Json>, k: string, depth: nat)
    requires Leaves(j, f, depth + 1) && k in Children(j)
    ensures Rebuild(Below(f, k), depth) == Prune(Children(j)[k])
    decreases depth, 1
  {
    BelowLeaves(j, f, k, depth + 1);
    RebuildLeaves(Children(j)[k], Below(f, k), depth);
  }

  /** The paths read off the flat keys, with their values. */
  ghost function Parsed(m: Flat): map<Path, Json> {
    assert forall s, t :: s in m && t in m && Split(s) == Split(t) ==> s == t by {
      forall s, t | s in m && t in m && Split(s) == Split(t) ensures s == t {
        JoinSplit(s);
        JoinSplit(t);
      }
    }
    map s | s in m :: Split(s) := m[s]
  }

  ghost function Longest(m: Flat): (n: nat)
    ensures forall s :: s in m ==> |Split(s)| <= n
    decreases |m|
  {
    if m == map[] then 0 else
      var s :| s in m;
      var n := Longest(m - {s});
      if |Split(s)| > n then |Split(s)| else n
  }

  lemma ParsedLeaves(j: Json, m: Flat, p: Path)
    requires IsContainer(j) && DotFree(j) && IsFlat(j, m)
    ensures p in Parsed(m) <==> LeafPath(j, p)
    ensures p in Parsed(m) ==> Parsed(m)[p] == At(j, p) && |p| <= Longest(m)
  {
    if LeafPath(j, p) {
      assert p != [];
      LeafText(j, p);
      ParsedAt(m, Join(p));
    }
  }

  lemma ParsedAt(m: Flat, s: string)
    requires s in m
    ensures Split(s) in Parsed(m) && Parsed(m)[Split(s)] == m[s] && |Split(s)| <= Longest(m)
  {
    var p := Split(s);
    assert p in Parsed(m);
    var t :| t in m && Split(t) == p && Parsed(m)[p] == m[t];
    JoinSplit(s);
    JoinSplit(t);
  }

  /** Rebuilding from the flat keys returns the data, pruned of empty containers. */
  lemma FlattenRoundTrip(j: Json, m: Flat)
    requires IsContainer(j) && DotFree(j) && IsFlat(j, m)
    ensures Rebuild(Parsed(m), Longest(m)) == Prune(j)
  {
    forall p ensures Has(Parsed(m), p) <==> LeafPath(j, p)
      ensures Has(Parsed(m), p) ==> Parsed(m)[p] == At(j, p) && |p| <= Longest(m)
    {
      ParsedLeaves(j, m, p);
    }
    RebuildLeaves(j, Parsed(m), Longest(m));
  }
}
