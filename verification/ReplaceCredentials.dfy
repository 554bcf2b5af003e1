/**
 `replaceInvalidCredentials` of packages/cli/src/workflow-helpers.ts: a loop over the nodes of a
 workflow that repairs credential references, with two caches over the credential store.
 */
module ReplaceCredentials {
  import opened Wrappers

  /** A stored credential. */
  datatype Row = Row(id: string, name: string, typ: string)

  /** A node refers to a credential by bare name (the old format) or by details, whose id may be null. */
  datatype Ref = Bare(name: string) | Details(id: Option<string>, name: string)

  datatype Node = Node(credentials: Option<map<string, Ref>>, disabled: bool)

  // ----- The store -----

  function FindBy(store: seq<Row>, name: string, typ: string): (r: seq<Row>)
    ensures forall row :: row in r <==> row in store && row.name == name && row.typ == typ
    ensures forall row {:trigger multiset(r)[row]} ::
      multiset(r)[row] == if row.name == name && row.typ == typ then multiset(store)[row] else 0
  {
    if store == [] then [] else
      assert store == [store[0]] + store[1..];
      (if store[0].name == name && store[0].typ == typ then [store[0]] else []) + FindBy(store[1..], name, typ)
  }

  function FindOneBy(store: seq<Row>, id: string, typ: string): (r: Option<Row>)
    ensures r.Some? ==> r.value in store && r.value.id == id && r.value.typ == typ
    ensures r.None? ==> forall row :: row in store ==> !(row.id == id && row.typ == typ)
  {
    if store == [] then None
    else if store[0].id == id && store[0].typ == typ then Some(store[0])
    else FindOneBy(store[1..], id, typ)
  }

  /** Ids are the primary key of the credentials table. */
  ghost predicate UniqueIds(store: seq<Row>) {
    forall a, b :: a in store && b in store && a.id == b.id ==> a == b
  }

  function ByName(store: seq<Row>, name: string, typ: string): Option<Ref> {
    var rows := FindBy(store, name, typ);
    if |rows| == 1 then Some(Details(Some(rows[0].id), rows[0].name)) else None
  }

  function ById(store: seq<Row>, id: string, typ: string): Option<Ref> {
    match FindOneBy(store, id, typ)
    case Some(row) => Some(Details(Some(row.id), row.name))
    case None => None
  }

  /** What one lookup without any cache gives. */
  function Lookup(store: seq<Row>, typ: string, ref: Ref): Ref {
    if OldStyle(ref) then
      match ByName(store, ref.name, typ) case Some(d) => d case None => ref
    else
      match ById(store, ref.id.value, typ)
      case Some(d) => d
      case None => match ByName(store, ref.name, typ) case Some(d) => d case None => ref
  }

  predicate OldStyle(ref: Ref) {
    ref.Bare? || ref.id.None?
  }

  // ----- What the loop computes -----

  predicate Uses(nodes: seq<Node>, i: int, typ: string) {
    0 <= i < |nodes| && !nodes[i].disabled && nodes[i].credentials.Some? && typ in nodes[i].credentials.value
  }

  function RefOf(nodes: seq<Node>, i: int, typ: string): Ref
    requires Uses(nodes, i, typ)
  {
    nodes[i].credentials.value[typ]
  }

  predicate AsksByName(nodes: seq<Node>, i: int, typ: string, name: string) {
    Uses(nodes, i, typ) && OldStyle(RefOf(nodes, i, typ)) && RefOf(nodes, i, typ).name == name
  }

  /** Among the first `n` nodes one asks for this name in the old format. */
  ghost predicate Asked(nodes: seq<Node>, n: int, typ: string, name: string) {
    exists j :: 0 <= j < n && AsksByName(nodes, j, typ, name)
  }

  /** Node `i` carries this id, and neither the id nor the name leads anywhere. */
  predicate Unresolved(store: seq<Row>, nodes: seq<Node>, i: int, typ: string, id: string) {
    && Uses(nodes, i, typ)
    && !OldStyle(RefOf(nodes, i, typ))
    && RefOf(nodes, i, typ).id.value == id
    && ById(store, id, typ).None?
    && ByName(store, RefOf(nodes, i, typ).name, typ).None?
  }

  /** The name carried by the first such node among the first `n`. */
  function FirstUnresolved(store: seq<Row>, nodes: seq<Node>, n: nat, typ: string, id: string): Option<string> {
    if n == 0 then None
    else if FirstUnresolved(store, nodes, n - 1, typ, id).Some? then FirstUnresolved(store, nodes, n - 1, typ, id)
    else if Unresolved(store, nodes, n - 1, typ, id) then Some(RefOf(nodes, n - 1, typ).name)
    else None
  }

  ghost function Result(store: seq<Row>, nodes: seq<Node>, i: nat, typ: string): Ref
    requires Uses(nodes, i, typ)
  {
    var ref := RefOf(nodes, i, typ);
    if OldStyle(ref) then
      match ByName(store, ref.name, typ)
      case Some(d) => d
      case None => if Asked(nodes, i, typ, ref.name) then Details(None, ref.name) else ref
    else
      match ById(store, ref.id.value, typ)
      case Some(d) => d
      case None =>
        match FirstUnresolved(store, nodes, i, typ, ref.id.value)
        case Some(n) => Details(ref.id, n)
        case None => match ByName(store, ref.name, typ) case Some(d) => d case None => ref
  }

  ghost function NodeResult(store: seq<Row>, nodes: seq<Node>, i: nat): Node
    requires i < |nodes|
  {
    if nodes[i].credentials.None? || nodes[i].disabled then nodes[i] else
      nodes[i].(credentials := Some(map typ | typ in nodes[i].credentials.value :: Result(store, nodes, i, typ)))
  }

  ghost function Replaced(store: seq<Row>, nodes: seq<Node>): seq<Node> {
    seq(|nodes|, i requires 0 <= i < |nodes| => NodeResult(store, nodes, i))
  }

  // ----- The loop -----

  type Cache = map<(string, string), Ref>

  function OrNullId(found: Option<Ref>, name: string): Ref {
    match found case Some(d) => d case None => Details(None, name)
  }

  ghost predicate NamesCached(store: seq<Row>, nodes: seq<Node>, n: int, typ: string, cache: Cache) {
    forall name ::
      && ((typ, name) in cache <==> Asked(nodes, n, typ, name))
      && ((typ, name) in cache ==> cache[(typ, name)] == OrNullId(ByName(store, name, typ), name))
  }

  ghost predicate IdsCached(store: seq<Row>, nodes: seq<Node>, n: nat, typ: string, cache: Cache) {
    forall id ::
      && ((typ, id) in cache && ById(store, id, typ).Some? ==> cache[(typ, id)] == ById(store, id, typ).value)
      && (ById(store, id, typ).None? ==>
          && ((typ, id) in cache <==> FirstUnresolved(store, nodes, n, typ, id).Some?)
          && ((typ, id) in cache ==>
                cache[(typ, id)] == Details(Some(id), FirstUnresolved(store, nodes, n, typ, id).value)))
  }

  ghost predicate Cached(store: seq<Row>, nodes: seq<Node>, n: nat, typ: string, byName: Cache, byId: Cache) {
    NamesCached(store, nodes, n, typ, byName) && IdsCached(store, nodes, n, typ, byId)
  }

  /** A node that does not use a type leaves what is cached for the type as it was. */
  lemma CachedSkip(store: seq<Row>, nodes: seq<Node>, n: nat, typ: string, byName: Cache, byId: Cache)
    requires Cached(store, nodes, n, typ, byName, byId) && !Uses(nodes, n, typ)
    ensures Cached(store, nodes, n + 1, typ, byName, byId)
  {
  }

  /** A credential found by its unique name is also what its own id finds. */
  lemma FoundByNameIsFoundById(store: seq<Row>, name: string, typ: string)
    requires UniqueIds(store) && ByName(store, name, typ).Some?
    ensures var d := ByName(store, name, typ).value;
            d.name == name && d.Details? && d.id.Some? && ById(store, d.id.value, typ) == Some(d)
  {
  }

  /** The part of a cache that concerns other types. */
  ghost predicate OthersKept(typ: string, cache: Cache, cache': Cache) {
    forall t, k :: t != typ ==>
      ((t, k) in cache <==> (t, k) in cache') && ((t, k) in cache ==> cache'[(t, k)] == cache[(t, k)])
  }

  /** One reference in the old format: look for its name in the cache, then in the store. */
  method ReplaceByName(store: seq<Row>, ghost nodes: seq<Node>, ghost i: nat, typ: string, ref: Ref, byName: Cache)
    returns (ref': Ref, byName': Cache)
    requires Uses(nodes, i, typ) && ref == RefOf(nodes, i, typ) && OldStyle(ref)
    requires NamesCached(store, nodes, i, typ, byName)
    ensures ref' == Result(store, nodes, i, typ)
    ensures NamesCached(store, nodes, i + 1, typ, byName') && OthersKept(typ, byName, byName')
  {
    ref', byName' := ref, byName;
    AskedStep(nodes, i, typ);
    if (typ, ref.name) in byName {
      ref' := byName[(typ, ref.name)];
      return;
    }
    var credentials := FindBy(store, ref.name, typ);
    if |credentials| == 1 {
      ref' := Details(Some(credentials[0].id), credentials[0].name);
      byName' := byName[(typ, ref.name) := ref'];
      return;
    }
    byName' := byName[(typ, ref.name) := Details(None, ref.name)];
  }

  /** A node that brings no unresolved id that is new to the cache. */
  lemma IdsSkip(store: seq<Row>, nodes: seq<Node>, i: nat, typ: string, byId: Cache)
    requires IdsCached(store, nodes, i, typ, byId)
    requires forall id :: Unresolved(store, nodes, i, typ, id) ==> (typ, id) in byId
    ensures IdsCached(store, nodes, i + 1, typ, byId)
  {
  }

  /** Caching what the store has under an id. */
  lemma IdsResolve(store: seq<Row>, nodes: seq<Node>, n: nat, typ: string, byId: Cache, id: string, found: Ref)
    requires IdsCached(store, nodes, n, typ, byId) && ById(store, id, typ) == Some(found)
    ensures IdsCached(store, nodes, n, typ, byId[(typ, id) := found])
  {
  }

  /** Caching a reference that leads nowhere. */
  lemma IdsMiss(store: seq<Row>, nodes: seq<Node>, i: nat, typ: string, byId: Cache, id: string)
    requires IdsCached(store, nodes, i, typ, byId) && Unresolved(store, nodes, i, typ, id) && (typ, id) !in byId
    ensures IdsCached(store, nodes, i + 1, typ, byId[(typ, id) := RefOf(nodes, i, typ)])
  {
    var byId' := byId[(typ, id) := RefOf(nodes, i, typ)];
    assert FirstUnresolved(store, nodes, i + 1, typ, id) == Some(RefOf(nodes, i, typ).name);
    forall other | other != id
      ensures FirstUnresolved(store, nodes, i + 1, typ, other) == FirstUnresolved(store, nodes, i, typ, other)
    {
    }
  }

  /** One reference with an id: the cache, then the store by id, then the store by name. */
  method ReplaceById(store: seq<Row>, ghost nodes: seq<Node>, ghost i: nat, typ: string, ref: Ref, byId: Cache)
    returns (ref': Ref, byId': Cache)
    requires UniqueIds(store) && Uses(nodes, i, typ) && ref == RefOf(nodes, i, typ) && !OldStyle(ref)
    requires IdsCached(store, nodes, i, typ, byId)
    ensures ref' == Result(store, nodes, i, typ)
    ensures IdsCached(store, nodes, i + 1, typ, byId') && OthersKept(typ, byId, byId')
  {
    ref', byId' := ref, byId;
    var id := ref.id.value;
    if (typ, id) in byId {
      ref' := byId[(typ, id)];
      IdsSkip(store, nodes, i, typ, byId);
      return;
    }
    var credentials := FindOneBy(store, id, typ);
    if credentials.Some? {
      ref' := Details(Some(credentials.value.id), credentials.value.name);
      IdsSkip(store, nodes, i, typ, byId);
      IdsResolve(store, nodes, i + 1, typ, byId, id, ref');
      byId' := byId[(typ, id) := ref'];
      return;
    }
    var sameName := FindBy(store, ref.name, typ);
    if |sameName| == 1 {
      FoundByNameIsFoundById(store, ref.name, typ);
      ref' := Details(Some(sameName[0].id), sameName[0].name);
      IdsSkip(store, nodes, i, typ, byId);
      IdsResolve(store, nodes, i + 1, typ, byId, sameName[0].id, ref');
      byId' := byId[(typ, sameName[0].id) := ref'];
      return;
    }
    IdsMiss(store, nodes, i, typ, byId, id);
    byId' := byId[(typ, id) := ref];
  }

  /** The cache a reference does not look into describes one more node all the same. */
  lemma OtherCacheKept(store: seq<Row>, nodes: seq<Node>, i: nat, typ: string, byName: Cache, byId: Cache)
    requires Uses(nodes, i, typ)
    ensures !OldStyle(RefOf(nodes, i, typ)) && NamesCached(store, nodes, i, typ, byName) ==>
      NamesCached(store, nodes, i + 1, typ, byName)
    ensures OldStyle(RefOf(nodes, i, typ)) && IdsCached(store, nodes, i, typ, byId) ==>
      IdsCached(store, nodes, i + 1, typ, byId)
  {
  }

  lemma AskedStep(nodes: seq<Node>, n: nat, typ: string)
    ensures forall name :: Asked(nodes, n + 1, typ, name) <==>
      Asked(nodes, n, typ, name) || AsksByName(nodes, n, typ, name)
  {
  }

  ghost predicate AllCached(store: seq<Row>, nodes: seq<Node>, n: nat, byName: Cache, byId: Cache) {
    forall typ :: Cached(store, nodes, n, typ, byName, byId)
  }

  lemma AllCachedSkip(store: seq<Row>, nodes: seq<Node>, n: nat, byName: Cache, byId: Cache)
    requires AllCached(store, nodes, n, byName, byId) && forall typ :: !Uses(nodes, n, typ)
    ensures AllCached(store, nodes, n + 1, byName, byId)
  {
    var m := n + 1;
    forall typ ensures Cached(store, nodes, m, typ, byName, byId) {
      CachedSkip(store, nodes, n, typ, byName, byId);
    }
  }

  /** The inner loop over one node. Its types may come in any order. */
  method ReplaceInNode(store: seq<Row>, nodes: seq<Node>, i: nat, byName: Cache, byId: Cache)
    returns (node: Node, byName': Cache, byId': Cache)
    requires UniqueIds(store) && i < |nodes| && nodes[i].credentials.Some? && !nodes[i].disabled
    requires AllCached(store, nodes, i, byName, byId)
    ensures node == NodeResult(store, nodes, i)
    ensures AllCached(store, nodes, i + 1, byName', byId')
  {
    byName', byId' := byName, byId;
    ghost var next := i + 1;
    var refs := nodes[i].credentials.value;
    var todo := refs.Keys;
    while todo != {}
      invariant todo <= nodes[i].credentials.value.Keys == refs.Keys
      invariant forall typ :: typ in refs ==> refs[typ] == if typ in todo then nodes[i].credentials.value[typ]
        else Result(store, nodes, i, typ)
      invariant forall typ :: typ in todo || typ !in refs ==> Cached(store, nodes, i, typ, byName', byId')
      invariant forall typ :: typ in refs && typ !in todo ==> Cached(store, nodes, next, typ, byName', byId')
    {
      var typ :| typ in todo;
      assert Cached(store, nodes, i, typ, byName', byId');
      var ref, names, ids := ReplaceRef(store, nodes, i, typ, refs[typ], byName', byId');
      forall t, n | t != typ && Cached(store, nodes, n, t, byName', byId')
        ensures Cached(store, nodes, n, t, names, ids)
      {
        CachedElsewhere(store, nodes, n, typ, t, byName', byId', names, ids);
      }
      refs, byName', byId' := refs[typ := ref], names, ids;
      todo := todo - {typ};
    }
    node := nodes[i].(credentials := Some(refs));
    assert refs == map typ | typ in nodes[i].credentials.value :: Result(store, nodes, i, typ);
    forall typ ensures Cached(store, nodes, next, typ, byName', byId') {
      if typ !in refs {
        CachedSkip(store, nodes, i, typ, byName', byId');
      }
    }
  }

  /** One reference, in either format. */
  method ReplaceRef(store: seq<Row>, ghost nodes: seq<Node>, ghost i: nat, typ: string, ref: Ref, byName: Cache,
      byId: Cache)
    returns (ref': Ref, byName': Cache, byId': Cache)
    requires UniqueIds(store) && Uses(nodes, i, typ) && ref == RefOf(nodes, i, typ)
    requires Cached(store, nodes, i, typ, byName, byId)
    ensures ref' == Result(store, nodes, i, typ)
    ensures Cached(store, nodes, i + 1, typ, byName', byId')
    ensures OthersKept(typ, byName, byName') && OthersKept(typ, byId, byId')
  {
    OtherCacheKept(store, nodes, i, typ, byName, byId);
    ref', byName', byId' := ref, byName, byId;
    if OldStyle(ref) {
      ref', byName' := ReplaceByName(store, nodes, i, typ, ref, byName);
    } else {
      ref', byId' := ReplaceById(store, nodes, i, typ, ref, byId);
    }
  }

  /** The loop over the nodes. */
  method ReplaceInvalidCredentials(store: seq<Row>, nodes: seq<Node>) returns (r: seq<Node>)
    requires UniqueIds(store)
    ensures r == Replaced(store, nodes)
    ensures |r| == |nodes|
    ensures forall i: nat, typ :: Uses(nodes, i, typ) ==>
      Uses(r, i, typ) && Repaired(store, nodes, i, typ, RefOf(r, i, typ))
    ensures forall i :: 0 <= i < |r| && (nodes[i].disabled || nodes[i].credentials.None?) ==> r[i] == nodes[i]
    ensures forall i :: 0 <= i < |r| && nodes[i].credentials.Some? ==>
      r[i].credentials.Some? && r[i].credentials.value.Keys == nodes[i].credentials.value.Keys
        && r[i].disabled == nodes[i].disabled
  {
    var byName: Cache, byId: Cache := map[], map[];
    r := nodes;
    var i := 0;
    while i < |nodes|
      invariant 0 <= i <= |nodes| == |r|
      invariant forall j :: 0 <= j < i ==> r[j] == NodeResult(store, nodes, j)
      invariant forall j :: i <= j < |nodes| ==> r[j] == nodes[j]
      invariant AllCached(store, nodes, i, byName, byId)
    {
      if nodes[i].credentials.None? || nodes[i].disabled {
        AllCachedSkip(store, nodes, i, byName, byId);
      } else {
        var node, names, ids := ReplaceInNode(store, nodes, i, byName, byId);
        r, byName, byId := r[i := node], names, ids;
      }
      i := i + 1;
    }
    assert r == Replaced(store, nodes);
    forall i: nat, typ | Uses(nodes, i, typ)
      ensures Uses(r, i, typ) && Repaired(store, nodes, i, typ, RefOf(r, i, typ))
    {
      OutputUses(store, nodes, i, typ);
      ResultIsRepaired(store, nodes, i, typ);
    }
  }

  lemma CachedElsewhere(store: seq<Row>, nodes: seq<Node>, n: nat, other: string, typ: string, byName: Cache,
      byId: Cache, byName': Cache, byId': Cache)
    requires Cached(store, nodes, n, typ, byName, byId)
    requires other != typ && OthersKept(other, byName, byName') && OthersKept(other, byId, byId')
    ensures Cached(store, nodes, n, typ, byName', byId')
  {
  }

  // ----- The results in terms of the stored rows -----

  predicate Matching(store: seq<Row>, k: int, name: string, typ: string) {
    0 <= k < |store| && store[k].name == name && store[k].typ == typ
  }

  /** Exactly the row at `k` has this name and type. */
  ghost predicate OnlyMatch(store: seq<Row>, k: int, name: string, typ: string) {
    Matching(store, k, name, typ) && forall j :: Matching(store, j, name, typ) ==> j == k
  }

  ghost predicate Unique(store: seq<Row>, name: string, typ: string) {
    exists k :: OnlyMatch(store, k, name, typ)
  }

  lemma FoundNone(store: seq<Row>, name: string, typ: string)
    ensures FindBy(store, name, typ) == [] <==> forall k :: !Matching(store, k, name, typ)
  {
    assert forall k :: Matching(store, k, name, typ) ==> store[k] in FindBy(store, name, typ);
    if FindBy(store, name, typ) != [] {
      var row := FindBy(store, name, typ)[0];
      assert row in FindBy(store, name, typ);
      var k :| 0 <= k < |store| && store[k] == row;
      assert Matching(store, k, name, typ);
    }
  }

  /** A name resolves exactly when one row matches it, and then to that row. */
  lemma {:induction false} FoundOne(store: seq<Row>, name: string, typ: string)
    ensures |FindBy(store, name, typ)| == 1 <==> Unique(store, name, typ)
    ensures forall k :: OnlyMatch(store, k, name, typ) ==> FindBy(store, name, typ) == [store[k]]
    decreases |store|
  {
    if store != [] {
      var rest := store[1..];
      assert forall k :: 0 <= k < |rest| ==> rest[k] == store[k + 1];
      forall k ensures Matching(rest, k, name, typ) <==> k >= 0 && Matching(store, k + 1, name, typ) {
      }
      FoundOne(rest, name, typ);
      FoundNone(rest, name, typ);
      if Matching(store, 0, name, typ) {
        HeadMatches(store, name, typ);
      } else {
        TailMatches(store, name, typ);
      }
    }
  }

  lemma HeadMatches(store: seq<Row>, name: string, typ: string)
    requires Matching(store, 0, name, typ)
    requires FindBy(store[1..], name, typ) == [] <==> forall k :: !Matching(store[1..], k, name, typ)
    requires forall k :: Matching(store[1..], k, name, typ) <==> k >= 0 && Matching(store, k + 1, name, typ)
    ensures |FindBy(store, name, typ)| == 1 <==> Unique(store, name, typ)
    ensures forall k :: OnlyMatch(store, k, name, typ) ==> FindBy(store, name, typ) == [store[k]]
  {
    var rest := FindBy(store[1..], name, typ);
    assert FindBy(store, name, typ) == [store[0]] + rest;
    assert forall j :: Matching(store, j, name, typ) && j > 0 ==> Matching(store[1..], j - 1, name, typ);
    if rest == [] {
      assert OnlyMatch(store, 0, name, typ);
    } else {
      var k :| Matching(store[1..], k, name, typ);
      assert Matching(store, k + 1, name, typ);
    }
  }

  lemma TailMatches(store: seq<Row>, name: string, typ: string)
    requires store != [] && !Matching(store, 0, name, typ)
    requires |FindBy(store[1..], name, typ)| == 1 <==> Unique(store[1..], name, typ)
    requires forall k :: OnlyMatch(store[1..], k, name, typ) ==> FindBy(store[1..], name, typ) == [store[1..][k]]
    ensures |FindBy(store, name, typ)| == 1 <==> Unique(store, name, typ)
    ensures forall k :: OnlyMatch(store, k, name, typ) ==> FindBy(store, name, typ) == [store[k]]
  {
    assert FindBy(store, name, typ) == FindBy(store[1..], name, typ);
    if Unique(store, name, typ) {
      var k :| OnlyMatch(store, k, name, typ);
      OnlyShifts(store, k - 1, name, typ);
    }
    if Unique(store[1..], name, typ) {
      var k :| OnlyMatch(store[1..], k, name, typ);
      OnlyShifts(store, k, name, typ);
    }
    forall k | OnlyMatch(store, k, name, typ) ensures FindBy(store, name, typ) == [store[k]] {
      OnlyShifts(store, k - 1, name, typ);
    }
  }

  lemma OnlyShifts(store: seq<Row>, k: int, name: string, typ: string)
    requires store != [] && !Matching(store, 0, name, typ)
    ensures OnlyMatch(store[1..], k, name, typ) <==> k >= 0 && OnlyMatch(store, k + 1, name, typ)
    ensures OnlyMatch(store[1..], k, name, typ) ==> store[1..][k] == store[k + 1]
  {
    assert forall j :: 0 <= j < |store| - 1 ==> store[1..][j] == store[j + 1];
    if k >= 0 && OnlyMatch(store, k + 1, name, typ) {
      forall j | Matching(store[1..], j, name, typ) ensures j == k {
        assert Matching(store, j + 1, name, typ);
      }
    }
    if OnlyMatch(store[1..], k, name, typ) {
      forall j | Matching(store, j, name, typ) ensures j == k + 1 {
        assert Matching(store[1..], j - 1, name, typ);
      }
    }
  }

  ghost predicate HasId(store: seq<Row>, id: string, typ: string) {
    exists row :: row in store && row.id == id && row.typ == typ
  }

  /** No earlier enabled node carries this id for this type. */
  ghost predicate FirstWithId(nodes: seq<Node>, i: nat, typ: string, id: string) {
    forall j :: 0 <= j < i && Uses(nodes, j, typ) ==>
      !(RefOf(nodes, j, typ).Details? && RefOf(nodes, j, typ).id == Some(id))
  }

  /**
   What becomes of a reference. Without an id: the only row of that name and type, or else the name
   without an id. With an id that is found: that row. With one that is not: the only row of its name,
   if there is one and no earlier node carries the id, or else that same id still.
   */
  ghost predicate Repaired(store: seq<Row>, nodes: seq<Node>, i: nat, typ: string, out: Ref)
    requires Uses(nodes, i, typ)
  {
    var ref := RefOf(nodes, i, typ);
    if ref.Bare? || ref.id == None then
      && (forall k :: OnlyMatch(store, k, ref.name, typ) ==> out == Details(Some(store[k].id), store[k].name))
      && (!Unique(store, ref.name, typ) ==> out == ref || out == Details(None, ref.name))
    else
      var id := ref.id.value;
      && (forall row :: row in store && row.id == id && row.typ == typ ==> out == Details(Some(row.id), row.name))
      && (!HasId(store, id, typ) ==>
            || (out.Details? && out.id == Some(id))
            || exists k :: OnlyMatch(store, k, ref.name, typ) && out == Details(Some(store[k].id), store[k].name))
      && (!HasId(store, id, typ) && FirstWithId(nodes, i, typ, id) ==>
            && (forall k :: OnlyMatch(store, k, ref.name, typ) ==> out == Details(Some(store[k].id), store[k].name))
            && (!Unique(store, ref.name, typ) ==> out == ref))
  }

  lemma ByNameMeans(store: seq<Row>, name: string, typ: string)
    ensures ByName(store, name, typ).Some? <==> Unique(store, name, typ)
    ensures forall k :: OnlyMatch(store, k, name, typ) ==>
      ByName(store, name, typ) == Some(Details(Some(store[k].id), store[k].name))
  {
    FoundOne(store, name, typ);
  }

  lemma ByIdMeans(store: seq<Row>, id: string, typ: string)
    requires UniqueIds(store)
    ensures ById(store, id, typ).Some? <==> HasId(store, id, typ)
    ensures forall row :: row in store && row.id == id && row.typ == typ ==>
      ById(store, id, typ) == Some(Details(Some(row.id), row.name))
  {
  }

  lemma ResultIsRepaired(store: seq<Row>, nodes: seq<Node>, i: nat, typ: string)
    requires UniqueIds(store) && Uses(nodes, i, typ)
    ensures Repaired(store, nodes, i, typ, Result(store, nodes, i, typ))
  {
    var ref := RefOf(nodes, i, typ);
    ByNameMeans(store, ref.name, typ);
    if !OldStyle(ref) {
      ByIdMeans(store, ref.id.value, typ);
      FirstUnresolvedIs(store, nodes, i, typ, ref.id.value);
    }
  }

  // ----- The caches against independent lookups -----

  /** An unresolved bare name and the same name with a null id mean the same. */
  predicate Same(a: Ref, b: Ref) {
    a == b || (OldStyle(a) && OldStyle(b) && a.name == b.name)
  }

  ghost predicate MatchesLookup(store: seq<Row>, nodes: seq<Node>) {
    forall i: nat, typ :: Uses(nodes, i, typ) ==>
      Same(Result(store, nodes, i, typ), Lookup(store, typ, RefOf(nodes, i, typ)))
  }

  /** A reference found nowhere is followed, for the same type and id, only by its own name. */
  ghost predicate NamesAgree(store: seq<Row>, nodes: seq<Node>) {
    forall i: nat, j: nat, typ, id ::
      i < j && Unresolved(store, nodes, i, typ, id) && Uses(nodes, j, typ) && RefOf(nodes, j, typ).Details?
        && RefOf(nodes, j, typ).id == Some(id)
      ==> RefOf(nodes, j, typ).name == RefOf(nodes, i, typ).name
  }

  lemma {:induction false} FirstUnresolvedIs(store: seq<Row>, nodes: seq<Node>, n: nat, typ: string, id: string)
    ensures FirstUnresolved(store, nodes, n, typ, id).None? ==>
      forall j :: 0 <= j < n ==> !Unresolved(store, nodes, j, typ, id)
    ensures FirstUnresolved(store, nodes, n, typ, id).Some? ==>
      exists j :: 0 <= j < n && Unresolved(store, nodes, j, typ, id)
               && RefOf(nodes, j, typ).name == FirstUnresolved(store, nodes, n, typ, id).value
  {
    if n > 0 {
      FirstUnresolvedIs(store, nodes, n - 1, typ, id);
    }
  }

  lemma {:induction false} FirstUnresolvedStays(store: seq<Row>, nodes: seq<Node>, m: nat, n: nat, typ: string,
      id: string)
    requires m <= n && FirstUnresolved(store, nodes, m, typ, id).Some?
    ensures FirstUnresolved(store, nodes, n, typ, id) == FirstUnresolved(store, nodes, m, typ, id)
    decreases n
  {
    if m < n {
      FirstUnresolvedStays(store, nodes, m, n - 1, typ, id);
    }
  }

  lemma AgreementSuffices(store: seq<Row>, nodes: seq<Node>, i: nat, typ: string)
    requires NamesAgree(store, nodes) && Uses(nodes, i, typ)
    ensures Same(Result(store, nodes, i, typ), Lookup(store, typ, RefOf(nodes, i, typ)))
  {
    var ref := RefOf(nodes, i, typ);
    if !OldStyle(ref) {
      FirstUnresolvedIs(store, nodes, i, typ, ref.id.value);
    }
  }

  lemma AgreementNeeded(store: seq<Row>, nodes: seq<Node>, i: nat, j: nat, typ: string, id: string)
    requires MatchesLookup(store, nodes) && i < j && Unresolved(store, nodes, i, typ, id) && Uses(nodes, j, typ)
    requires RefOf(nodes, j, typ).Details? && RefOf(nodes, j, typ).id == Some(id)
    ensures RefOf(nodes, j, typ).name == RefOf(nodes, i, typ).name
  {
    CachedNameWins(store, nodes, i, typ, id);
    FirstUnresolvedStays(store, nodes, i + 1, j, typ, id);
    LookupKeepsName(store, typ, RefOf(nodes, j, typ));
    assert Same(Result(store, nodes, j, typ), Lookup(store, typ, RefOf(nodes, j, typ)));
  }

  /** The cached loop gives every enabled node what an independent lookup gives, exactly when names agree. */
  lemma CacheRefinesLookup(store: seq<Row>, nodes: seq<Node>)
    ensures MatchesLookup(store, nodes) <==> NamesAgree(store, nodes)
  {
    if NamesAgree(store, nodes) {
      forall i: nat, typ | Uses(nodes, i, typ)
        ensures Same(Result(store, nodes, i, typ), Lookup(store, typ, RefOf(nodes, i, typ)))
      {
        AgreementSuffices(store, nodes, i, typ);
      }
    }
    if MatchesLookup(store, nodes) {
      forall i: nat, j: nat, typ, id | i < j && Unresolved(store, nodes, i, typ, id) && Uses(nodes, j, typ)
        && RefOf(nodes, j, typ).Details? && RefOf(nodes, j, typ).id == Some(id)
        ensures RefOf(nodes, j, typ).name == RefOf(nodes, i, typ).name
      {
        AgreementNeeded(store, nodes, i, j, typ, id);
      }
    }
  }

  /** When every result matches a lookup, an unresolved reference was cached under its own name. */
  lemma CachedNameWins(store: seq<Row>, nodes: seq<Node>, i: nat, typ: string, id: string)
    requires MatchesLookup(store, nodes) && Unresolved(store, nodes, i, typ, id)
    ensures FirstUnresolved(store, nodes, i + 1, typ, id) == Some(RefOf(nodes, i, typ).name)
  {
  }

  lemma LookupKeepsName(store: seq<Row>, typ: string, ref: Ref)
    ensures !OldStyle(ref) && ById(store, ref.id.value, typ).None? ==> Lookup(store, typ, ref).name == ref.name
  {
  }

  /** Equal type and id with equal names is enough. */
  lemma EqualNamesAgree(store: seq<Row>, nodes: seq<Node>)
    requires forall i: nat, j: nat, typ :: i < j && Uses(nodes, i, typ) && Uses(nodes, j, typ)
               && !OldStyle(RefOf(nodes, i, typ)) && !OldStyle(RefOf(nodes, j, typ))
                 && RefOf(nodes, i, typ).id == RefOf(nodes, j, typ).id
               ==> RefOf(nodes, i, typ).name == RefOf(nodes, j, typ).name
    ensures MatchesLookup(store, nodes)
  {
    CacheRefinesLookup(store, nodes);
  }

  /** Without it: the second of two nodes with one missing id is given the name of the first. */
  lemma ConflictingNames() returns (store: seq<Row>, nodes: seq<Node>)
    ensures UniqueIds(store) && !MatchesLookup(store, nodes)
    ensures |nodes| == 2 && Uses(nodes, 1, "api")
      && Result(store, nodes, 1, "api") != Lookup(store, "api", RefOf(nodes, 1, "api"))
  {
    store := [Row("7", "second", "api")];
    nodes := [Node(Some(map["api" := Details(Some("9"), "first")]), false),
              Node(Some(map["api" := Details(Some("9"), "second")]), false)];
    assert FindBy(store, "first", "api") == [] by {
      assert store[1..] == [];
    }
    assert Unresolved(store, nodes, 0, "api", "9");
    assert FirstUnresolved(store, nodes, 1, "api", "9") == Some("first");
    assert Result(store, nodes, 1, "api") == Details(Some("9"), "first");
    LookupKeepsName(store, "api", RefOf(nodes, 1, "api"));
  }

  // ----- Running it twice -----

  lemma OutputUses(store: seq<Row>, nodes: seq<Node>, i: int, typ: string)
    ensures Uses(Replaced(store, nodes), i, typ) <==> Uses(nodes, i, typ)
    ensures Uses(nodes, i, typ) ==> RefOf(Replaced(store, nodes), i, typ) == Result(store, nodes, i, typ)
  {
  }

  lemma OutputUnresolvedAt(store: seq<Row>, nodes: seq<Node>, j: nat, typ: string, id: string)
    requires UniqueIds(store) && Unresolved(store, Replaced(store, nodes), j, typ, id)
    ensures FirstUnresolved(store, nodes, j + 1, typ, id) == Some(RefOf(Replaced(store, nodes), j, typ).name)
  {
    OutputUses(store, nodes, j, typ);
    var ref := RefOf(nodes, j, typ);
    if ByName(store, ref.name, typ).Some? {
      FoundByNameIsFoundById(store, ref.name, typ);
    }
  }

  /** Whatever is still unresolved in the output was first unresolved in the input under the same name. */
  lemma OutputUnresolved(store: seq<Row>, nodes: seq<Node>, n: nat, typ: string, id: string)
    requires UniqueIds(store) && FirstUnresolved(store, Replaced(store, nodes), n, typ, id).Some?
    ensures FirstUnresolved(store, nodes, n, typ, id) == FirstUnresolved(store, Replaced(store, nodes), n, typ, id)
  {
    var out := Replaced(store, nodes);
    FirstUnresolvedIs(store, out, n, typ, id);
    var j :| 0 <= j < n && Unresolved(store, out, j, typ, id)
      && RefOf(out, j, typ).name == FirstUnresolved(store, out, n, typ, id).value;
    OutputUnresolvedAt(store, nodes, j, typ, id);
    FirstUnresolvedStays(store, nodes, j + 1, n, typ, id);
  }

  lemma OutputAsked(store: seq<Row>, nodes: seq<Node>, n: nat, typ: string, name: string)
    requires Asked(Replaced(store, nodes), n, typ, name)
    ensures Asked(nodes, n, typ, name)
  {
    var j :| 0 <= j < n && AsksByName(Replaced(store, nodes), j, typ, name);
    OutputUses(store, nodes, j, typ);
    assert AsksByName(nodes, j, typ, name);
  }

  lemma ResultTwice(store: seq<Row>, nodes: seq<Node>, i: nat, typ: string)
    requires UniqueIds(store) && Uses(nodes, i, typ)
    ensures Uses(Replaced(store, nodes), i, typ)
    ensures Result(store, Replaced(store, nodes), i, typ) == Result(store, nodes, i, typ)
  {
    var out := Replaced(store, nodes);
    OutputUses(store, nodes, i, typ);
    var ref := RefOf(nodes, i, typ);
    if ByName(store, ref.name, typ).Some? {
      FoundByNameIsFoundById(store, ref.name, typ);
    }
    if OldStyle(ref) {
      if Asked(out, i, typ, ref.name) {
        OutputAsked(store, nodes, i, typ, ref.name);
      }
    } else {
      if FirstUnresolved(store, out, i, typ, ref.id.value).Some? {
        OutputUnresolved(store, nodes, i, typ, ref.id.value);
      }
      FirstUnresolvedIs(store, nodes, i, typ, ref.id.value);
    }
  }

  /** A second run, with empty caches, changes nothing. No assumption on names. */
  lemma ReplacedTwice(store: seq<Row>, nodes: seq<Node>)
    requires UniqueIds(store)
    ensures Replaced(store, Replaced(store, nodes)) == Replaced(store, nodes)
  {
    var out := Replaced(store, nodes);
    forall i | 0 <= i < |nodes| ensures NodeResult(store, out, i) == out[i] {
      if nodes[i].credentials.Some? && !nodes[i].disabled {
        forall typ | typ in nodes[i].credentials.value
          ensures Uses(out, i, typ) && Result(store, out, i, typ) == out[i].credentials.value[typ]
        {
          ResultTwice(store, nodes, i, typ);
          OutputUses(store, nodes, i, typ);
        }
        assert (map typ | typ in out[i].credentials.value :: Result(store, out, i, typ)) == out[i].credentials.value;
      }
    }
  }
}
