/**
 `ConnectionPoolManager` of packages/nodes-base/utils/connection-pool-manager.ts: a keyed cache of
 connection pools with a time to live, whose abort listeners call back into the clean-up.
 */
module ConnectionPool {
  import opened Wrappers

  const TTL: int := 5 * 60 * 1000
  const CLEAN_UP_INTERVAL: int := 60 * 1000

  type Key = string
  type Pool = nat

  /** An abort controller, by identity. */
  type Controller = nat

  datatype Registration = Registration(pool: Pool, controller: Controller, lastUsed: int)

  /**
   The manager as a value. `listeners` gives the key a controller's listener cleans up, `pending`
   the creations whose fall-back handler has not returned, `fired` the abort events so far.
   */
  datatype State = State(
    registrations: map<Key, Registration>,
    listeners: map<Controller, Key>,
    aborted: set<Controller>,
    pending: map<Controller, Key>,
    nextController: nat,
    fired: multiset<Controller>,
    clock: int,
    lastSweep: int)

  // ----- What the operations do -----

  /** Remove one registration and fire its controller. The listener then finds nothing to do. */
  function Drop(s: State, key: Key): State {
    if key in s.registrations then
      Fire(s.(registrations := s.registrations - {key}), s.registrations[key].controller)
    else s
  }

  function Fire(s: State, c: Controller): State {
    if c in s.aborted then s else s.(aborted := s.aborted + {c}, fired := s.fired + multiset{c})
  }

  /** Abort from outside: fire, and drop whatever is registered under the listener's key. */
  function AbortOf(s: State, c: Controller): State {
    if c in s.aborted || c !in s.listeners then Fire(s, c) else Drop(Fire(s, c), s.listeners[c])
  }

  function Touch(s: State, key: Key, now: int): State
    requires key in s.registrations
  {
    s.(registrations := s.registrations[key := s.registrations[key].(lastUsed := now)], clock := now)
  }

  function Begin(s: State, key: Key, now: int): State {
    s.(pending := s.pending[s.nextController := key], nextController := s.nextController + 1, clock := now)
  }

  function Complete(s: State, c: Controller, pool: Pool, now: int): State
    requires c in s.pending
  {
    var s' := s.(pending := s.pending - {c}, clock := now);
    if c in s.aborted then s' else
      s'.(registrations := s.registrations[s.pending[c] := Registration(pool, c, now)],
          listeners := s.listeners[c := s.pending[c]])
  }

  function ControllersOf(s: State, keys: set<Key>): set<Controller> {
    set k | k in keys && k in s.registrations :: s.registrations[k].controller
  }

  function DropAll(s: State, keys: set<Key>): State {
    s.(registrations := s.registrations - keys,
       aborted := s.aborted + ControllersOf(s, keys),
       fired := s.fired + multiset(ControllersOf(s, keys) - s.aborted))
  }

  function Stale(s: State, now: int): set<Key> {
    set k | k in s.registrations && now - s.registrations[k].lastUsed > TTL
  }

  function Sweep(s: State, now: int): State {
    DropAll(s, Stale(s, now)).(clock := now, lastSweep := now)
  }

  // ----- What holds in every state -----

  ghost predicate Linked(s: State) {
    forall key :: key in s.registrations ==>
      var c := s.registrations[key].controller;
      c in s.listeners && s.listeners[c] == key
  }

  ghost predicate Valid(s: State) {
    && Linked(s)
    && (forall key :: key in s.registrations ==> s.registrations[key].controller !in s.aborted)
    && (forall c :: c in s.listeners ==> c < s.nextController)
    && (forall c :: c in s.pending ==> c < s.nextController && c !in s.listeners)
    && (forall c :: c in s.aborted ==> c < s.nextController)
    && s.fired == multiset(s.aborted)
    && (forall key :: key in s.registrations ==> s.lastSweep - s.registrations[key].lastUsed <= TTL)
    && (forall key :: key in s.registrations ==> s.registrations[key].lastUsed <= s.clock)
    && s.lastSweep <= s.clock
  }

  ghost predicate InMap(s: State, c: Controller)
    requires c in s.listeners
  {
    s.listeners[c] in s.registrations && s.registrations[s.listeners[c]].controller == c
  }

  /** A pool that was registered is in the map exactly when its controller has not been aborted. */
  ghost predicate Exclusive(s: State) {
    forall c :: c in s.listeners ==> (c !in s.aborted <==> InMap(s, c))
  }

  /** No two creations for one key overlap, and none overlaps a registration. */
  ghost predicate SingleFlight(s: State) {
    && (forall c :: c in s.pending ==> s.pending[c] !in s.registrations)
    && (forall c, d :: c in s.pending && d in s.pending && s.pending[c] == s.pending[d] ==> c == d)
  }

  function Initial(now: int): State {
    State(map[], map[], {}, map[], 0, multiset{}, now, now)
  }

  datatype Event =
    | Get(key: Key, now: int)
    | Created(c: Controller, pool: Pool, now: int)
    | NotCreated(c: Controller)
    | Aborted(c: Controller)
    | Swept(now: int)
    | Purged

  ghost predicate Enabled(s: State, e: Event) {
    match e
    case Get(_, now) => s.clock <= now
    case Created(c, _, now) => c in s.pending && s.clock <= now
    case NotCreated(c) => c in s.pending
    case Aborted(c) => c < s.nextController
    case Swept(now) => s.clock <= now
    case Purged => true
  }

  function Step(s: State, e: Event): State
    requires e.Created? ==> e.c in s.pending
  {
    match e
    case Get(key, now) => if key in s.registrations then Touch(s, key, now) else Begin(s, key, now)
    case Created(c, pool, now) => Complete(s, c, pool, now)
    case NotCreated(c) => s.(pending := s.pending - {c})
    case Aborted(c) => AbortOf(s, c)
    case Swept(now) => Sweep(s, now)
    case Purged => DropAll(s, s.registrations.Keys)
  }

  /** A caller that asks for a key while a creation for it is under way starts an overlapping one. */
  ghost predicate Overlaps(s: State, e: Event) {
    e.Get? && e.key !in s.registrations && e.key in s.pending.Values
  }

  lemma FireKeepsCount(s: State, c: Controller)
    requires s.fired == multiset(s.aborted)
    ensures Fire(s, c).fired == multiset(Fire(s, c).aborted)
  {
  }

  lemma AbortValid(s: State, c: Controller)
    requires Valid(s) && c < s.nextController
    ensures Valid(AbortOf(s, c))
  {
    FireKeepsCount(s, c);
    if c !in s.aborted && c in s.listeners {
      var key, t := s.listeners[c], Fire(s, c);
      if key in s.registrations {
        FireKeepsCount(t.(registrations := t.registrations - {key}), t.registrations[key].controller);
      }
      DropKeepsOthers(s, key);
      forall k | k in AbortOf(s, c).registrations
        ensures AbortOf(s, c).registrations[k].controller !in AbortOf(s, c).aborted
      {
        assert s.listeners[s.registrations[k].controller] == k;
      }
    } else {
      forall k | k in s.registrations ensures s.registrations[k].controller !in Fire(s, c).aborted {
        assert s.registrations[k].controller in s.listeners;
      }
    }
  }

  lemma DropKeepsOthers(s: State, key: Key)
    requires Linked(s)
    ensures forall k :: k in s.registrations && k != key ==>
      k in Drop(s, key).registrations
        && (key in s.registrations ==> s.registrations[k].controller != s.registrations[key].controller)
  {
  }

  /** Registrations do not share controllers. */
  lemma OwnController(s: State, key: Key, keys: set<Key>)
    requires Linked(s) && key in s.registrations
    ensures s.registrations[key].controller in ControllersOf(s, keys) <==> key in keys
  {
  }

  lemma DropAllValid(s: State, keys: set<Key>)
    requires Valid(s)
    ensures Valid(DropAll(s, keys))
    ensures Exclusive(s) ==> Exclusive(DropAll(s, keys))
  {
  }

  /** Every operation keeps the state valid, whatever overlaps: each controller fires at most once. */
  lemma StepValid(s: State, e: Event)
    requires Valid(s) && Enabled(s, e)
    ensures Valid(Step(s, e))
  {
    match e
    case Get(_, _) =>
    case Created(_, _, _) =>
    case NotCreated(_) =>
    case Aborted(c) => AbortValid(s, c);
    case Swept(now) => DropAllValid(s, Stale(s, now));
    case Purged => DropAllValid(s, s.registrations.Keys);
  }

  /** Completing a creation keeps exclusivity exactly when nothing is registered under its key. */
  lemma CompleteExclusive(s: State, c: Controller, pool: Pool, now: int)
    requires Valid(s) && Exclusive(s) && c in s.pending
    ensures Exclusive(Complete(s, c, pool, now)) <==> c in s.aborted || s.pending[c] !in s.registrations
  {
  }

  /** An abort removes the registration of its own controller and no other. */
  lemma AbortExclusive(s: State, c: Controller)
    requires Valid(s) && Exclusive(s)
    ensures Exclusive(AbortOf(s, c))
    ensures AbortOf(s, c).aborted == s.aborted + {c}
    ensures AbortOf(s, c).registrations ==
      map k | k in s.registrations && s.registrations[k].controller != c :: s.registrations[k]
  {
  }

  lemma ExclusiveFrame(s: State, t: State)
    requires Exclusive(s) && t.listeners == s.listeners && t.aborted == s.aborted
    requires t.registrations.Keys == s.registrations.Keys
    requires forall k :: k in s.registrations ==> t.registrations[k].controller == s.registrations[k].controller
    ensures Exclusive(t)
  {
  }

  lemma StepSingleFlight(s: State, e: Event)
    requires SingleFlight(s) && Enabled(s, e) && !Overlaps(s, e)
    ensures SingleFlight(Step(s, e))
  {
  }

  /** A creation completes, un-aborted, under a key that is registered already. */
  ghost predicate Doubles(s: State, e: Event)
    requires Enabled(s, e)
  {
    e.Created? && e.c !in s.aborted && s.pending[e.c] in s.registrations
  }

  /** A step keeps map membership and liveness together exactly when it does not double a registration. */
  lemma StepExclusive(s: State, e: Event)
    requires Valid(s) && Exclusive(s) && Enabled(s, e)
    ensures Exclusive(Step(s, e)) <==> !Doubles(s, e)
    ensures SingleFlight(s) && !Overlaps(s, e) ==> Exclusive(Step(s, e)) && SingleFlight(Step(s, e))
  {
    if SingleFlight(s) && !Overlaps(s, e) {
      StepSingleFlight(s, e);
    }
    match e
    case Get(_, _) => ExclusiveFrame(s, Step(s, e));
    case Created(c, pool, now) => CompleteExclusive(s, c, pool, now);
    case NotCreated(_) => ExclusiveFrame(s, Step(s, e));
    case Aborted(c) => AbortExclusive(s, c);
    case Swept(now) =>
      DropAllValid(s, Stale(s, now));
      ExclusiveFrame(DropAll(s, Stale(s, now)), Sweep(s, now));
    case Purged => DropAllValid(s, s.registrations.Keys);
  }

  /** A hit outlasts every sweep within the time to live, and neither hit nor miss touches who is live. */
  lemma GetKeeps(s: State, key: Key, now: int)
    requires Valid(s) && s.clock <= now
    ensures var t := Step(s, Get(key, now));
      && Valid(t)
      && (Exclusive(s) ==> Exclusive(t))
      && (SingleFlight(s) && !Overlaps(s, Get(key, now)) ==> SingleFlight(t))
      && (key in s.registrations ==> Outlasts(t, key, now))
  {
    StepValid(s, Get(key, now));
    if Exclusive(s) {
      ExclusiveFrame(s, Step(s, Get(key, now)));
    }
    if SingleFlight(s) && !Overlaps(s, Get(key, now)) {
      StepSingleFlight(s, Get(key, now));
    }
  }

  /** No sweep within the time to live from `now` removes the registration. */
  ghost predicate Outlasts(s: State, key: Key, now: int) {
    forall t :: t - now <= TTL ==> key in Sweep(s, t).registrations
  }

  // ----- Whole runs -----

  ghost predicate IsRun(s: State, events: seq<Event>)
    decreases |events|
  {
    events == [] || (Enabled(s, events[0]) && IsRun(Step(s, events[0]), events[1..]))
  }

  ghost predicate Overlapping(s: State, events: seq<Event>)
    requires IsRun(s, events)
    decreases |events|
  {
    events != [] && (Overlaps(s, events[0]) || Overlapping(Step(s, events[0]), events[1..]))
  }

  ghost function Final(s: State, events: seq<Event>): State
    requires IsRun(s, events)
    decreases |events|
  {
    if events == [] then s else Final(Step(s, events[0]), events[1..])
  }

  lemma {:induction false} RunFrom(s: State, events: seq<Event>)
    requires IsRun(s, events) && Valid(s)
    ensures Valid(Final(s, events))
    ensures Exclusive(s) && SingleFlight(s) && !Overlapping(s, events) ==>
      Exclusive(Final(s, events)) && SingleFlight(Final(s, events))
    decreases |events|
  {
    if events != [] {
      var e := events[0];
      StepValid(s, e);
      if Exclusive(s) && SingleFlight(s) && !Overlaps(s, e) {
        StepExclusive(s, e);
      }
      RunFrom(Step(s, e), events[1..]);
    }
  }

  ghost predicate NeverDoubles(s: State, events: seq<Event>)
    requires IsRun(s, events)
    decreases |events|
  {
    events == [] || (!Doubles(s, events[0]) && NeverDoubles(Step(s, events[0]), events[1..]))
  }

  ghost predicate AlwaysExclusive(s: State, events: seq<Event>)
    requires IsRun(s, events)
    decreases |events|
  {
    Exclusive(s) && (events != [] ==> AlwaysExclusive(Step(s, events[0]), events[1..]))
  }

  /** A pool is in the map exactly while it is live, throughout a run, if and only if no registration is doubled. */
  lemma {:induction false} ExclusiveRuns(s: State, events: seq<Event>)
    requires Valid(s) && Exclusive(s) && IsRun(s, events)
    ensures AlwaysExclusive(s, events) <==> NeverDoubles(s, events)
    decreases |events|
  {
    if events != [] {
      var e, s' := events[0], Step(s, events[0]);
      StepValid(s, e);
      StepExclusive(s, e);
      if Doubles(s, e) {
        assert !AlwaysExclusive(s', events[1..]);
      } else {
        ExclusiveRuns(s', events[1..]);
      }
    }
  }

  /**
   In every run: each controller fires at most once, and no pool idles past the bound while the last
   sweep is no older than the interval. Without overlapping creations a pool is in the map exactly while it is live.
   */
  lemma Runs(start: int, events: seq<Event>)
    requires IsRun(Initial(start), events)
    ensures var s := Final(Initial(start), events);
      && (forall c :: s.fired[c] <= 1)
      && (s.clock <= s.lastSweep + CLEAN_UP_INTERVAL ==>
            forall key :: key in s.registrations ==> s.clock - s.registrations[key].lastUsed <= TTL + CLEAN_UP_INTERVAL)
      && (!Overlapping(Initial(start), events) ==> Exclusive(s))
  {
    RunFrom(Initial(start), events);
  }

  /** A pool used within the time to live survives a sweep; any other does not. */
  lemma SweepRemovesStale(s: State, now: int, key: Key)
    requires Valid(s) && key in s.registrations
    ensures key in Sweep(s, now).registrations <==> now - s.registrations[key].lastUsed <= TTL
    ensures s.registrations[key].controller in Sweep(s, now).aborted <==> now - s.registrations[key].lastUsed > TTL
  {
  }

  /** Two overlapping creations both register; aborting the first removes the second. */
  lemma OverlapRemovesOther(key: Key) returns (events: seq<Event>)
    ensures IsRun(Initial(0), events) && Overlapping(Initial(0), events)
    ensures var s := Final(Initial(0), events);
      && !Exclusive(s)
      && key in s.registrations && s.registrations[key].controller == 1
      && key !in AbortOf(s, 0).registrations && 1 in AbortOf(s, 0).aborted
  {
    events := [Get(key, 0), Get(key, 0), Created(0, 10, 0), Created(1, 11, 0)];
    var s0 := Initial(0);
    var s1 := Step(s0, events[0]);
    var s2 := Step(s1, events[1]);
    var s3 := Step(s2, events[2]);
    var s4 := Step(s3, events[3]);
    assert s1.pending[0] == key && Overlaps(s1, events[1]);
    assert events[1..][1..] == events[2..] && events[2..][1..] == events[3..] && events[3..][1..] == [];
    assert IsRun(s4, []) && IsRun(s3, events[3..]) && IsRun(s2, events[2..]) && IsRun(s1, events[1..]);
    assert Final(s3, events[3..]) == s4 && Final(s2, events[2..]) == s4 && Final(s1, events[1..]) == s4;
    assert Overlapping(s1, events[1..]);
    assert 0 in s4.listeners && 0 !in s4.aborted && !InMap(s4, 0);
  }

  // ----- The class -----

  function Below(n: nat): (r: set<nat>)
    ensures forall c :: c in r <==> 0 <= c < n
  {
    if n == 0 then {} else Below(n - 1) + {n - 1}
  }

  class ConnectionPoolManager {
    var registrations: map<Key, Registration>
    var listeners: map<Controller, Key>
    var aborted: set<Controller>
    var pending: map<Controller, Key>
    var nextController: nat
    ghost var fired: multiset<Controller>
    ghost var clock: int
    ghost var lastSweep: int

    ghost function View(): State
      reads this
    {
      State(registrations, listeners, aborted, pending, nextController, fired, clock, lastSweep)
    }

    constructor (now: int)
      ensures View() == Initial(now)
    {
      registrations, listeners, aborted, pending, nextController := map[], map[], {}, map[], 0;
      fired, clock, lastSweep := multiset{}, now, now;
    }

    /** First part of `getConnection`: a hit, or a new controller for the fall-back handler. */
    method BeginConnection(key: Key, now: int) returns (hit: Option<Pool>, controller: Controller)
      requires Valid(View()) && clock <= now
      modifies this
      ensures View() == Step(old(View()), Get(key, now))
      ensures hit == if key in old(registrations) then Some(old(registrations)[key].pool) else None
      ensures controller == old(nextController)
      ensures hit.Some? ==> registrations == old(registrations)[key := old(registrations)[key].(lastUsed := now)]
      ensures hit.None? ==> registrations == old(registrations) && pending == old(pending)[controller := key]
      ensures Valid(View())
      ensures hit.Some? ==> Outlasts(View(), key, now)
      ensures hit.None? ==> controller !in old(pending) && controller !in listeners && controller !in aborted
      ensures old(Exclusive(View())) ==> Exclusive(View())
      ensures old(SingleFlight(View()) && !Overlaps(View(), Get(key, now))) ==> SingleFlight(View())
    {
      GetKeeps(View(), key, now);
      clock := now;
      controller := nextController;
      if key in registrations {
        var value := registrations[key].(lastUsed := now);
        registrations := registrations[key := value];
        return Some(value.pool), controller;
      }
      nextController := nextController + 1;
      pending := pending[controller := key];
      return None, controller;
    }

    /** Second part: nothing is registered, and an error raised, when the handler aborted. */
    method CompleteConnection(controller: Controller, pool: Pool, now: int) returns (r: Option<Pool>)
      requires Valid(View()) && controller in pending && clock <= now
      modifies this
      ensures View() == Complete(old(View()), controller, pool, now)
      ensures r == if controller in old(aborted) then None else Some(pool)
      ensures Valid(View())
      ensures r.Some? ==>
        registrations == old(registrations)[old(pending)[controller] := Registration(pool, controller, now)]
      ensures r.None? ==> registrations == old(registrations) && listeners == old(listeners)
      ensures pending == old(pending) - {controller} && aborted == old(aborted)
      ensures r.Some? <==> controller in listeners && controller !in aborted && InMap(View(), controller)
      ensures old(Exclusive(View())) ==>
        (Exclusive(View()) <==> r.None? || old(pending)[controller] !in old(registrations))
    {
      StepValid(View(), Created(controller, pool, now));
      if Exclusive(View()) {
        CompleteExclusive(View(), controller, pool, now);
      }
      clock := now;
      var key := pending[controller];
      pending := pending - {controller};
      if controller in aborted {
        return None;
      }
      registrations := registrations[key := Registration(pool, controller, now)];
      listeners := listeners[controller := key];
      return Some(pool);
    }

    /** The event fires once, and runs the listener, which calls back into the clean-up. */
    method Abort(c: Controller)
      requires Linked(View()) && c < nextController && forall d :: d in listeners ==> d < nextController
      modifies this`registrations, this`aborted, this`fired
      ensures View() == AbortOf(old(View()), c)
      decreases Below(nextController) - aborted, |registrations|, 1
    {
      if c in aborted {
        return;
      }
      ghost var live := Below(nextController) - aborted;
      aborted := aborted + {c};
      fired := fired + multiset{c};
      if c in listeners {
        assert c in live && Below(nextController) - aborted < live;
        CleanupConnection(listeners[c]);
      }
    }

    method CleanupConnection(key: Key)
      requires Linked(View()) && forall d :: d in listeners ==> d < nextController
      modifies this`registrations, this`aborted, this`fired
      ensures View() == Drop(old(View()), key)
      decreases Below(nextController) - aborted, |registrations|, 0
    {
      if key in registrations {
        var registration := registrations[key];
        ghost var before := registrations;
        registrations := registrations - {key};
        assert before.Keys == registrations.Keys + {key};
        assert |before| == |before.Keys| && |registrations| == |registrations.Keys|;
        Abort(registration.controller);
      }
    }

    /** The registrations may be visited in any order. */
    method CleanupStaleConnections(now: int)
      requires Valid(View())
      modifies this`registrations, this`aborted, this`fired, this`clock, this`lastSweep
      ensures View() == Sweep(old(View()), now)
    {
      ghost var s := View();
      var todo := registrations.Keys;
      ghost var gone: set<Key> := {};
      DropNone(s);
      while todo != {}
        invariant todo <= s.registrations.Keys
        invariant forall k :: k in gone <==> k in Stale(s, now) && k !in todo
        invariant View() == DropAll(s, gone)
      {
        var key :| key in todo;
        DropTurn(s, gone, key);
        if now - registrations[key].lastUsed > TTL {
          CleanupConnection(key);
          gone := gone + {key};
        }
        todo := todo - {key};
      }
      assert gone == Stale(s, now);
      clock, lastSweep := now, now;
    }

    method PurgeConnections()
      requires Valid(View())
      modifies this`registrations, this`aborted, this`fired
      ensures View() == DropAll(old(View()), old(registrations).Keys)
    {
      ghost var s := View();
      var todo := registrations.Keys;
      ghost var gone: set<Key> := {};
      DropNone(s);
      while todo != {}
        invariant forall k :: k in s.registrations <==> k in todo || k in gone
        invariant gone !! todo
        invariant View() == DropAll(s, gone)
      {
        var key :| key in todo;
        DropTurn(s, gone, key);
        CleanupConnection(key);
        gone := gone + {key};
        todo := todo - {key};
      }
      assert gone == s.registrations.Keys;
    }
  }

  lemma DropNone(s: State)
    ensures DropAll(s, {}) == s
  {
  }

  /** One turn of a clean-up loop, after the keys in `gone` were dropped. */
  lemma DropTurn(s: State, gone: set<Key>, key: Key)
    requires Valid(s) && key in s.registrations && key !in gone
    ensures Linked(DropAll(s, gone)) && forall d :: d in s.listeners ==> d < s.nextController
    ensures key in DropAll(s, gone).registrations && DropAll(s, gone).registrations[key] == s.registrations[key]
    ensures Drop(DropAll(s, gone), key) == DropAll(s, gone + {key})
  {
    var c, t := s.registrations[key].controller, DropAll(s, gone);
    OwnController(s, key, gone);
    ControllersOfOneMore(s, gone, key);
    CountOneMore(ControllersOf(s, gone), c, s.aborted);
    assert s.registrations - gone - {key} == s.registrations - (gone + {key});
    assert s.aborted + ControllersOf(s, gone) + {c} == s.aborted + (ControllersOf(s, gone) + {c});
    assert Drop(t, key).fired == s.fired + multiset(ControllersOf(s, gone) - s.aborted) + multiset{c};
  }

  lemma ControllersOfOneMore(s: State, gone: set<Key>, key: Key)
    requires key in s.registrations
    ensures ControllersOf(s, gone + {key}) == ControllersOf(s, gone) + {s.registrations[key].controller}
  {
  }

  lemma CountOneMore(a: set<Controller>, c: Controller, aborted: set<Controller>)
    requires c !in a && c !in aborted
    ensures multiset(a - aborted) + multiset{c} == multiset(a + {c} - aborted)
  {
  }
}
