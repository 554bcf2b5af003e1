/**
 The in-process table of running and waiting executions: packages/cli/src/active-executions.ts.
 Entries are objects with an identity, so they live in an arena and the table holds their places.
 */
module ActiveExecutions {
  import opened Wrappers
  import opened ChildResults

  type Place = nat
  type AddId = nat

  /** A deferred promise settles once: later attempts to settle it are ignored. */
  datatype Promise = Pending | Resolved | Rejected

  datatype Engine = NoEngine | Attached | Cancelled

  /** `limited` says that the execution mode has a concurrency queue; `handled`, that the finally-handler ran. */
  datatype Execution = Execution(
    id: ExecutionId,
    limited: bool,
    startedAt: int,
    status: Status,
    response: Option<nat>,
    engine: Engine,
    promise: Promise,
    handled: bool)

  /** An add that is past `throttle` and has neither inserted its entry nor thrown. */
  datatype Add = Add(id: ExecutionId, limited: bool)

  /** `enabled` is the switch of the concurrency control; `forfeited` counts slots of adds that threw. */
  datatype State = State(
    regular: bool,
    enabled: bool,
    active: map<ExecutionId, Place>,
    entries: seq<Execution>,
    adds: map<AddId, Add>,
    taken: nat,
    released: nat,
    forfeited: nat)

  datatype Event =
    | Throttle(k: AddId, id: ExecutionId, limited: bool)
    | Insert(k: AddId, now: int)
    | Refuse(k: AddId)
    | Attach(id: ExecutionId)
    | AttachResponse(id: ExecutionId, response: nat)
    | SetStatus(id: ExecutionId, status: Status)
    | Finalize(id: ExecutionId)
    | Stop(id: ExecutionId)
    | RunHandler(i: Place)
    | Shutdown(cancelAll: bool)

  // ----- What the operations do -----

  function Settle(e: Execution, p: Promise): Execution {
    if e.promise.Pending? then e.(promise := p) else e
  }

  predicate Has(s: State, id: ExecutionId) {
    id in s.active && s.active[id] < |s.entries|
  }

  function Entry(s: State, id: ExecutionId): Execution
    requires Has(s, id)
  {
    s.entries[s.active[id]]
  }

  function Put(s: State, id: ExecutionId, e: Execution): State
    requires Has(s, id)
  {
    s.(entries := s.entries[s.active[id] := e])
  }

  /** The entry of a resumed execution inherits its start time and its response promise. */
  function NewEntry(s: State, add: Add, now: int): Execution {
    if Has(s, add.id) then
      Execution(add.id, add.limited, Entry(s, add.id).startedAt, Running, Entry(s, add.id).response, NoEngine,
        Pending, false)
    else
      Execution(add.id, add.limited, now, Running, None, NoEngine, Pending, false)
  }

  function StopOne(s: State, id: ExecutionId): State {
    if !Has(s, id) then s
    else if Entry(s, id).status == Waiting then s.(active := s.active - {id})
    else Put(s, id, Stopped(Entry(s, id)))
  }

  function Stopped(e: Execution): Execution {
    Settle(e, Rejected).(engine := if e.engine.Attached? then Cancelled else e.engine)
  }

  /** The finally-handler removes by id, whatever is stored under it by then. */
  function HandleOne(s: State, i: Place): State
    requires i < |s.entries|
  {
    var e := s.entries[i];
    var s' := s.(released := if s.enabled && e.limited then s.released + 1 else s.released);
    if e.status == Waiting then
      s'.(entries := s.entries[i := e.(handled := true, engine := NoEngine)])
    else
      s'.(entries := s.entries[i := e.(handled := true)], active := s.active - {e.id})
  }

  predicate ToCancel(s: State, cancelAll: bool, e: Execution) {
    e.response.Some? || (s.regular && cancelAll)
  }

  predicate Remains(s: State, cancelAll: bool, e: Execution) {
    if ToCancel(s, cancelAll, e) then e.status != Waiting else e.status != Waiting && e.status != New
  }

  function SweepEntry(s: State, cancelAll: bool, i: Place): Execution
    requires i < |s.entries|
  {
    var e := s.entries[i];
    if e.id in s.active && s.active[e.id] == i && ToCancel(s, cancelAll, e) && e.status != Waiting
    then Stopped(e)
    else e
  }

  /** The shutdown sweep: capacity is no longer released, and each entry is cancelled, dropped or kept. */
  function Sweep(s: State, cancelAll: bool): State {
    s.(enabled := s.enabled && !s.regular,
       active := map id | id in s.active && Has(s, id) && Remains(s, cancelAll, Entry(s, id)) :: s.active[id],
       entries := seq(|s.entries|, i requires 0 <= i < |s.entries| => SweepEntry(s, cancelAll, i)))
  }

  /** Which events can come at all. A promise calls its handlers once, after it has settled. */
  predicate Possible(s: State, e: Event) {
    match e
    case Throttle(k, _, _) => k !in s.adds
    case Insert(k, _) => k in s.adds
    case Refuse(k) => k in s.adds
    case Attach(id) => Has(s, id)
    case AttachResponse(id, _) => Has(s, id)
    case SetStatus(id, _) => Has(s, id)
    case RunHandler(i) => i < |s.entries| && !s.entries[i].promise.Pending? && !s.entries[i].handled
    case _ => true
  }

  /** An entry whose promise has settled other than in status waiting, with its handler still to run. */
  predicate Leaving(e: Execution) {
    !e.promise.Pending? && !e.handled && e.status != Waiting
  }

  /**
   Events in good order: no resume is let through while an earlier entry of the execution is leaving
   the table, and no entry is set to another status than waiting once its handler has run.
   */
  ghost predicate Enabled(s: State, e: Event) {
    && Possible(s, e)
    && (e.Insert? ==> forall i :: 0 <= i < |s.entries| && s.entries[i].id == s.adds[e.k].id ==> !Leaving(s.entries[i]))
    && (e.SetStatus? && Entry(s, e.id).handled ==> e.status == Waiting)
  }

  function Step(s: State, e: Event): State
    requires Possible(s, e)
  {
    match e
    case Throttle(k, id, limited) =>
      s.(adds := s.adds[k := Add(id, limited)], taken := if s.enabled && limited then s.taken + 1 else s.taken)
    case Insert(k, now) =>
      s.(adds := s.adds - {k}, active := s.active[s.adds[k].id := |s.entries|],
        entries := s.entries + [NewEntry(s, s.adds[k], now)])
    case Refuse(k) =>
      s.(adds := s.adds - {k}, forfeited := if s.enabled && s.adds[k].limited then s.forfeited + 1 else s.forfeited)
    case Attach(id) => Put(s, id, Entry(s, id).(engine := Attached))
    case AttachResponse(id, response) => Put(s, id, Entry(s, id).(response := Some(response)))
    case SetStatus(id, status) => Put(s, id, Entry(s, id).(status := status))
    case Finalize(id) => if Has(s, id) then Put(s, id, Settle(Entry(s, id), Resolved)) else s
    case Stop(id) => StopOne(s, id)
    case RunHandler(i) => HandleOne(s, i)
    case Shutdown(cancelAll) => Sweep(s, cancelAll)
  }

  function Initial(regular: bool, limits: bool): State {
    State(regular, regular && limits, map[], [], map[], 0, 0, 0)
  }

  // ----- Slots -----

  /** Entries ever created that still hold a slot: their finally-handler has not run. */
  function Holding(entries: seq<Execution>): nat {
    if entries == [] then 0 else
      (if entries[0].limited && !entries[0].handled then 1 else 0) + Holding(entries[1..])
  }

  function LimitedAdds(adds: map<AddId, Add>): set<AddId> {
    set k | k in adds && adds[k].limited
  }

  function InFlight(adds: map<AddId, Add>): nat {
    |LimitedAdds(adds)|
  }

  ghost predicate SlotsBalance(s: State) {
    s.enabled ==> s.taken == s.released + Holding(s.entries) + InFlight(s.adds) + s.forfeited
  }

  lemma {:induction false} HoldingUpdate(entries: seq<Execution>, i: nat, e: Execution)
    requires i < |entries| && e.limited == entries[i].limited
    ensures Holding(entries[i := e]) ==
      Holding(entries)
      - (if entries[i].limited && !entries[i].handled then 1 else 0)
      + (if e.limited && !e.handled then 1 else 0)
  {
    if i == 0 {
      assert entries[i := e][1..] == entries[1..];
    } else {
      HoldingUpdate(entries[1..], i - 1, e);
      assert entries[i := e][1..] == entries[1..][i - 1 := e];
    }
  }

  lemma {:induction false} HoldingAppend(entries: seq<Execution>, e: Execution)
    ensures Holding(entries + [e]) == Holding(entries) + (if e.limited && !e.handled then 1 else 0)
  {
    if entries == [] {
      assert [e][1..] == [];
    } else {
      HoldingAppend(entries[1..], e);
      assert (entries + [e])[1..] == entries[1..] + [e];
    }
  }

  lemma AddBegins(adds: map<AddId, Add>, k: AddId, add: Add)
    requires k !in adds
    ensures InFlight(adds[k := add]) == InFlight(adds) + if add.limited then 1 else 0
  {
    assert LimitedAdds(adds[k := add]) == LimitedAdds(adds) + if add.limited then {k} else {};
  }

  lemma AddEnds(adds: map<AddId, Add>, k: AddId)
    requires k in adds
    ensures InFlight(adds - {k}) == InFlight(adds) - if adds[k].limited then 1 else 0
  {
    assert LimitedAdds(adds - {k}) == LimitedAdds(adds) - if adds[k].limited then {k} else {};
  }

  // ----- What holds in every state -----

  ghost predicate TableSound(s: State) {
    && (forall id :: id in s.active ==> s.active[id] < |s.entries| && s.entries[s.active[id]].id == id)
    && (s.enabled ==> s.regular)
  }

  /** A table entry has not settled, waits for its handler, or has settled with status waiting. */
  ghost predicate EntrySound(s: State, i: Place)
    requires i < |s.entries|
  {
    var e := s.entries[i];
    && (e.handled ==> !e.promise.Pending?)
    && (e.handled && e.id in s.active && s.active[e.id] == i ==> e.status == Waiting)
    && (!e.handled && !e.promise.Pending? && e.status != Waiting && e.id in s.active ==> s.active[e.id] == i)
  }

  ghost predicate Counted(s: State) {
    TableSound(s) && SlotsBalance(s)
  }

  ghost predicate EntriesSound(s: State) {
    forall i :: 0 <= i < |s.entries| ==> EntrySound(s, i)
  }

  ghost predicate Inv(s: State) {
    Counted(s) && EntriesSound(s)
  }

  /** Changing an entry without running its handler gives no slot back. */
  lemma HoldingPut(s: State, id: ExecutionId, e: Execution)
    requires Has(s, id) && e.limited == Entry(s, id).limited && e.handled == Entry(s, id).handled
    ensures Holding(Put(s, id, e).entries) == Holding(s.entries)
  {
    HoldingUpdate(s.entries, s.active[id], e);
  }

  lemma InsertSlots(s: State, k: AddId, now: int)
    requires SlotsBalance(s) && k in s.adds
    ensures SlotsBalance(Step(s, Insert(k, now)))
  {
    AddEnds(s.adds, k);
    HoldingAppend(s.entries, NewEntry(s, s.adds[k], now));
  }

  lemma HandlerSlots(s: State, i: Place)
    requires SlotsBalance(s) && i < |s.entries| && !s.entries[i].handled
    ensures SlotsBalance(HandleOne(s, i))
  {
    HoldingUpdate(s.entries, i, s.entries[i].(handled := true));
    HoldingUpdate(s.entries, i, s.entries[i].(handled := true, engine := NoEngine));
  }

  lemma AddSlots(s: State, k: AddId, e: Event)
    requires Counted(s) && Possible(s, e) && (e.Throttle? || e.Refuse?) && e.k == k
    ensures SlotsBalance(Step(s, e))
  {
    match e
    case Throttle(_, id, limited) => AddBegins(s.adds, k, Add(id, limited));
    case Refuse(_) => AddEnds(s.adds, k);
  }

  /** Slots balance after every possible event, in good order or not. */
  lemma SlotsStep(s: State, e: Event)
    requires Counted(s) && Possible(s, e)
    ensures SlotsBalance(Step(s, e))
  {
    match e
    case Throttle(k, _, _) => AddSlots(s, k, e);
    case Refuse(k) => AddSlots(s, k, e);
    case Insert(k, now) => InsertSlots(s, k, now);
    case RunHandler(i) => HandlerSlots(s, i);
    case Shutdown(_) =>
    case _ =>
      if Has(s, e.id) {
        HoldingPut(s, e.id, Step(s, e).entries[s.active[e.id]]);
      }
  }

  /** An entry in the table that still is what its handler left it. */
  lemma EntriesPut(s: State, id: ExecutionId, e: Execution)
    requires TableSound(s) && EntriesSound(s) && Has(s, id)
    requires e.id == id && e.handled == Entry(s, id).handled
    requires e.handled ==> !e.promise.Pending? && e.status == Waiting
    ensures EntriesSound(Put(s, id, e))
  {
    var s' := Put(s, id, e);
    forall i | 0 <= i < |s'.entries| ensures EntrySound(s', i) {
      assert EntrySound(s, i);
    }
  }

  lemma EntriesSweep(s: State, cancelAll: bool)
    requires TableSound(s) && EntriesSound(s)
    ensures EntriesSound(Sweep(s, cancelAll))
  {
    var s' := Sweep(s, cancelAll);
    forall i | 0 <= i < |s'.entries| ensures EntrySound(s', i) {
      assert EntrySound(s, i);
    }
  }

  lemma EntriesStep(s: State, e: Event)
    requires Inv(s) && Enabled(s, e) && !e.Insert? && !e.RunHandler?
    ensures EntriesSound(Step(s, e))
  {
    var s' := Step(s, e);
    if s'.entries == s.entries && !e.Shutdown? {
      forall i | 0 <= i < |s'.entries| ensures EntrySound(s', i) {
        assert EntrySound(s, i);
      }
    } else if e.Shutdown? {
      EntriesSweep(s, e.cancelAll);
    } else {
      assert EntrySound(s, s.active[e.id]);
      EntriesPut(s, e.id, s'.entries[s.active[e.id]]);
    }
  }

  lemma InsertStep(s: State, k: AddId, now: int)
    requires Inv(s) && Enabled(s, Insert(k, now))
    ensures forall i :: 0 <= i < |s.entries| + 1 ==> EntrySound(Step(s, Insert(k, now)), i)
  {
    var s' := Step(s, Insert(k, now));
    forall i | 0 <= i < |s'.entries| ensures EntrySound(s', i) {
      if i < |s.entries| {
        assert EntrySound(s, i);
      }
    }
  }

  /** The finally-handler removes its own entry or none: never an entry that took its place. */
  lemma HandlerRemovesOwn(s: State, i: Place)
    requires Inv(s) && Enabled(s, RunHandler(i))
    ensures var e, s' := s.entries[i], HandleOne(s, i);
      && (forall id :: id in s'.active <==> id in s.active && !(s.active[id] == i && e.status != Waiting))
      && (forall id :: id in s'.active ==> s'.active[id] == s.active[id])
  {
    assert EntrySound(s, i);
  }

  lemma HandlerStep(s: State, i: Place)
    requires Inv(s) && Enabled(s, RunHandler(i))
    ensures forall j :: 0 <= j < |s.entries| ==> EntrySound(HandleOne(s, i), j)
  {
    HandlerRemovesOwn(s, i);
    forall j | 0 <= j < |s.entries| ensures EntrySound(HandleOne(s, i), j) {
      assert EntrySound(s, j);
    }
  }

  lemma TablePut(s: State, id: ExecutionId, e: Execution)
    requires TableSound(s) && Has(s, id) && e.id == id
    ensures TableSound(Put(s, id, e))
  {
  }

  lemma TableSweep(s: State, cancelAll: bool)
    requires TableSound(s)
    ensures TableSound(Sweep(s, cancelAll))
  {
  }

  lemma TableInsert(s: State, k: AddId, now: int)
    requires TableSound(s) && Possible(s, Insert(k, now))
    ensures TableSound(Step(s, Insert(k, now)))
  {
  }

  lemma TableHandle(s: State, i: Place)
    requires TableSound(s) && i < |s.entries|
    ensures TableSound(HandleOne(s, i))
  {
  }

  lemma TableStep(s: State, e: Event)
    requires TableSound(s) && Possible(s, e)
    ensures TableSound(Step(s, e))
  {
    match e
    case Attach(id) => TablePut(s, id, Entry(s, id).(engine := Attached));
    case AttachResponse(id, response) => TablePut(s, id, Entry(s, id).(response := Some(response)));
    case SetStatus(id, status) => TablePut(s, id, Entry(s, id).(status := status));
    case Finalize(id) =>
      if Has(s, id) {
        TablePut(s, id, Settle(Entry(s, id), Resolved));
      }
    case Stop(id) =>
      if Has(s, id) {
        TablePut(s, id, Stopped(Entry(s, id)));
      }
    case Shutdown(cancelAll) => TableSweep(s, cancelAll);
    case Insert(k, now) => TableInsert(s, k, now);
    case RunHandler(i) => TableHandle(s, i);
    case _ =>
  }

  lemma CountedStep(s: State, e: Event)
    requires Counted(s) && Possible(s, e)
    ensures Counted(Step(s, e))
  {
    TableStep(s, e);
    SlotsStep(s, e);
  }

  lemma StepKeeps(s: State, e: Event)
    requires Inv(s) && Enabled(s, e)
    ensures Inv(Step(s, e))
  {
    CountedStep(s, e);
    match e {
      case Insert(k, now) => InsertStep(s, k, now);
      case RunHandler(i) => HandlerStep(s, i);
      case _ => EntriesStep(s, e);
    }
  }

  /** A possible event keeps the invariant exactly when it comes in good order. */
  lemma StepKeepsExactly(s: State, e: Event)
    requires Inv(s) && Possible(s, e)
    ensures Inv(Step(s, e)) <==> Enabled(s, e)
  {
    var s' := Step(s, e);
    if Enabled(s, e) {
      StepKeeps(s, e);
    } else if e.Insert? {
      var i :| 0 <= i < |s.entries| && s.entries[i].id == s.adds[e.k].id && Leaving(s.entries[i]);
      assert !EntrySound(s', i);
    } else {
      assert !EntrySound(s', s.active[e.id]);
    }
  }

  /** Otherwise the leaving entry's handler takes the new entry out of the table, running as it is. */
  lemma HandlerRemovesOther(s: State, k: AddId, now: int, i: Place)
    requires Inv(s) && Possible(s, Insert(k, now))
    requires i < |s.entries| && s.entries[i].id == s.adds[k].id && Leaving(s.entries[i])
    ensures var s1 := Step(s, Insert(k, now));
      && Has(s1, s.adds[k].id) && Entry(s1, s.adds[k].id).promise.Pending?
      && Possible(s1, RunHandler(i))
      && Step(s1, RunHandler(i)).active == s1.active - {s.adds[k].id}
      && s.adds[k].id in s1.active
  {
  }

  /** What each method keeps, whatever came before it. */
  lemma Keeps(s: State, e: Event)
    requires Counted(s) && Possible(s, e)
    ensures Counted(Step(s, e))
    ensures Inv(s) ==> (Inv(Step(s, e)) <==> Enabled(s, e))
  {
    CountedStep(s, e);
    if Inv(s) {
      StepKeepsExactly(s, e);
    }
  }

  /** Nothing but the table's place for `id` and the entry at that place has changed. */
  ghost predicate OthersUntouched(s: State, s': State, id: ExecutionId) {
    && s'.active - {id} == s.active - {id} && |s'.entries| == |s.entries|
    && forall i :: 0 <= i < |s.entries| && !(id in s.active && s.active[id] == i) ==> s'.entries[i] == s.entries[i]
  }

  lemma StopKeeps(s: State, id: ExecutionId)
    requires TableSound(s)
    ensures var s' := StopOne(s, id);
      && OthersUntouched(s, s', id)
      && (id in s'.active ==> Has(s', id) && !Entry(s', id).promise.Pending?)
      && (Counted(s) ==> Counted(s')) && (Inv(s) ==> Inv(s'))
  {
    StopFrame(s, id);
    if Counted(s) {
      Keeps(s, Stop(id));
    }
  }

  lemma StopFrame(s: State, id: ExecutionId)
    requires TableSound(s)
    ensures var s' := StopOne(s, id);
      OthersUntouched(s, s', id) && (id in s'.active ==> Has(s', id) && !Entry(s', id).promise.Pending?)
  {
  }

  /** Dropping an entry from the table without settling it. */
  lemma DropKeeps(s: State, id: ExecutionId)
    requires TableSound(s)
    ensures var s' := s.(active := s.active - {id});
      OthersUntouched(s, s', id) && (Counted(s) ==> Counted(s')) && (Inv(s) ==> Inv(s'))
  {
    var s' := s.(active := s.active - {id});
    if Inv(s) {
      forall i | 0 <= i < |s'.entries| ensures EntrySound(s', i) {
        assert EntrySound(s, i);
      }
    }
  }

  // ----- Whole runs -----

  ghost predicate IsRun(s: State, events: seq<Event>)
    decreases |events|
  {
    events == [] || (Possible(s, events[0]) && IsRun(Step(s, events[0]), events[1..]))
  }

  ghost function Final(s: State, events: seq<Event>): State
    requires IsRun(s, events)
    decreases |events|
  {
    if events == [] then s else Final(Step(s, events[0]), events[1..])
  }

  ghost predicate InGoodOrder(s: State, events: seq<Event>)
    requires IsRun(s, events)
    decreases |events|
  {
    events != [] ==> Enabled(s, events[0]) && InGoodOrder(Step(s, events[0]), events[1..])
  }

  ghost predicate AlwaysSound(s: State, events: seq<Event>)
    requires IsRun(s, events)
    decreases |events|
  {
    Inv(s) && (events != [] ==> AlwaysSound(Step(s, events[0]), events[1..]))
  }

  lemma RunCons(s: State, e: Event, rest: seq<Event>)
    requires Possible(s, e) && IsRun(Step(s, e), rest)
    ensures IsRun(s, [e] + rest) && Final(s, [e] + rest) == Final(Step(s, e), rest)
  {
    assert ([e] + rest)[1..] == rest;
  }

  /**
   The excluded order arises in a run from the start: an execution finishes while its own resume is past
   `throttle`. Its handler then leaves the resumed execution running without a place in the table.
   */
  lemma LeavingArises(regular: bool, limits: bool, id: ExecutionId, limited: bool, now: int)
      returns (events: seq<Event>)
    ensures IsRun(Initial(regular, limits), events)
    ensures var s := Final(Initial(regular, limits), events);
      && !Inv(s) && Has(s, id) && Entry(s, id).promise.Pending? && Possible(s, RunHandler(0))
      && Step(s, RunHandler(0)).active == map[] && Step(s, RunHandler(0)).entries[s.active[id]] == Entry(s, id)
  {
    var s0 := Initial(regular, limits);
    var s1 := Step(s0, Throttle(0, id, limited));
    var s2 := Step(s1, Insert(0, now));
    var s3 := Step(s2, Throttle(1, id, limited));
    var s4 := Step(s3, Finalize(id));
    var s5 := Step(s4, Insert(1, now));
    RunCons(s4, Insert(1, now), []);
    RunCons(s3, Finalize(id), [Insert(1, now)]);
    RunCons(s2, Throttle(1, id, limited), [Finalize(id)] + [Insert(1, now)]);
    var rest := [Throttle(1, id, limited)] + ([Finalize(id)] + [Insert(1, now)]);
    RunCons(s1, Insert(0, now), rest);
    RunCons(s0, Throttle(0, id, limited), [Insert(0, now)] + rest);
    events := [Throttle(0, id, limited)] + ([Insert(0, now)] + rest);
    assert !EntrySound(s5, 0);
  }

  /** The invariant holds throughout a run if and only if every event comes in good order. */
  lemma {:induction false} RunKeeps(s: State, events: seq<Event>)
    requires Inv(s) && IsRun(s, events)
    ensures AlwaysSound(s, events) <==> InGoodOrder(s, events)
    ensures InGoodOrder(s, events) ==> Inv(Final(s, events))
    decreases |events|
  {
    if events != [] {
      var s' := Step(s, events[0]);
      StepKeepsExactly(s, events[0]);
      if Inv(s') {
        RunKeeps(s', events[1..]);
      } else {
        assert !AlwaysSound(s', events[1..]);
      }
    }
  }

  lemma {:induction false} RunCounts(s: State, events: seq<Event>)
    requires Counted(s) && IsRun(s, events)
    ensures Counted(Final(s, events))
    decreases |events|
  {
    if events != [] {
      CountedStep(s, events[0]);
      RunCounts(Step(s, events[0]), events[1..]);
    }
  }

  /**
   In every reachable state with concurrency control on, slots taken minus slots released are the
   unhandled entries ever created, the adds in flight, and the adds that threw past `throttle`.
   */
  lemma SlotAccounting(regular: bool, limits: bool, events: seq<Event>)
    requires IsRun(Initial(regular, limits), events)
    ensures var s := Final(Initial(regular, limits), events);
      && SlotsBalance(s)
      && (forall id :: id in s.active ==> Has(s, id) && Entry(s, id).id == id)
  {
    RunCounts(Initial(regular, limits), events);
  }

  /** In good order, what the table holds is unsettled, waits for its handler, or has settled in status waiting. */
  lemma TableEntries(regular: bool, limits: bool, events: seq<Event>, id: ExecutionId)
    requires IsRun(Initial(regular, limits), events) && InGoodOrder(Initial(regular, limits), events)
    requires id in Final(Initial(regular, limits), events).active
    ensures var s := Final(Initial(regular, limits), events);
      Has(s, id) && (Entry(s, id).handled ==> !Entry(s, id).promise.Pending? && Entry(s, id).status == Waiting)
  {
    RunKeeps(Initial(regular, limits), events);
    var s := Final(Initial(regular, limits), events);
    assert EntrySound(s, s.active[id]);
  }

  /** `id` is in the table in every state of the run. */
  ghost predicate Present(s: State, events: seq<Event>, id: ExecutionId)
    requires IsRun(s, events)
    decreases |events|
  {
    Has(s, id) && (events != [] ==> Present(Step(s, events[0]), events[1..], id))
  }

  lemma StepInherits(s: State, e: Event, id: ExecutionId)
    requires TableSound(s) && Possible(s, e) && Has(s, id) && Has(Step(s, e), id)
    ensures Entry(Step(s, e), id).startedAt == Entry(s, id).startedAt
    ensures !(e.AttachResponse? && e.id == id) ==> Entry(Step(s, e), id).response == Entry(s, id).response
  {
    match e
    case Insert(k, now) =>
    case Shutdown(cancelAll) => SweepInherits(s, cancelAll, id);
    case _ =>
  }

  lemma SweepInherits(s: State, cancelAll: bool, id: ExecutionId)
    requires Has(s, id) && Has(Sweep(s, cancelAll), id)
    ensures Entry(Sweep(s, cancelAll), id).startedAt == Entry(s, id).startedAt
    ensures Entry(Sweep(s, cancelAll), id).response == Entry(s, id).response
  {
    assert Sweep(s, cancelAll).active[id] == s.active[id];
  }

  /** Start time and response promise survive any number of wait and resume cycles, in every run. */
  lemma {:induction false} SurvivesResumes(s: State, events: seq<Event>, id: ExecutionId)
    requires TableSound(s) && IsRun(s, events) && Present(s, events, id)
    ensures Has(Final(s, events), id)
    ensures Entry(Final(s, events), id).startedAt == Entry(s, id).startedAt
    ensures (forall i :: 0 <= i < |events| ==> !(events[i].AttachResponse? && events[i].id == id)) ==>
      Entry(Final(s, events), id).response == Entry(s, id).response
    decreases |events|
  {
    if events != [] {
      var s' := Step(s, events[0]);
      TableStep(s, events[0]);
      StepInherits(s, events[0], id);
      SurvivesResumes(s', events[1..], id);
    }
  }

  // ----- Shutdown -----

  ghost predicate OnlyHandlers(events: seq<Event>) {
    forall i :: 0 <= i < |events| ==> events[i].RunHandler?
  }

  ghost predicate Quiet(s: State) {
    forall i :: 0 <= i < |s.entries| ==> s.entries[i].promise.Pending? || s.entries[i].handled
  }

  /** The ids whose executions go on: unsettled, and nothing cancels or drops them. */
  ghost function Survivors(s: State, cancelAll: bool): set<ExecutionId> {
    set id | id in s.active && Has(s, id) && Entry(s, id).promise.Pending?
             && !ToCancel(s, cancelAll, Entry(s, id)) && Entry(s, id).status != Waiting && Entry(s, id).status != New
  }

  ghost predicate Draining(s: State, keep: set<ExecutionId>) {
    && keep <= s.active.Keys
    && forall id :: id in s.active ==>
        Has(s, id) && (Entry(s, id).promise.Pending? <==> id in keep) && Entry(s, id).status != Waiting
  }

  lemma SweepDrains(s: State, cancelAll: bool)
    requires Inv(s)
    ensures Draining(Sweep(s, cancelAll), Survivors(s, cancelAll))
  {
  }

  lemma {:induction false} HandlersDrain(s: State, keep: set<ExecutionId>, events: seq<Event>)
    requires Inv(s) && Draining(s, keep) && IsRun(s, events) && OnlyHandlers(events) && Quiet(Final(s, events))
    ensures Final(s, events).active.Keys == keep
    decreases |events|
  {
    if events == [] {
      forall id | id in s.active ensures id in keep {
        assert EntrySound(s, s.active[id]);
      }
    } else {
      var s' := Step(s, events[0]);
      HandlerRemovesOwn(s, events[0].i);
      StepKeeps(s, events[0]);
      HandlersDrain(s', keep, events[1..]);
    }
  }

  /**
   After the sweep and the handlers it set off, exactly the survivors remain. In regular mode with
   `cancelAll` nobody survives: the table is empty.
   */
  lemma ShutdownDrains(s: State, cancelAll: bool, events: seq<Event>)
    requires Inv(s) && IsRun(Sweep(s, cancelAll), events) && OnlyHandlers(events)
      && Quiet(Final(Sweep(s, cancelAll), events))
    ensures Final(Sweep(s, cancelAll), events).active.Keys == Survivors(s, cancelAll)
    ensures s.regular && cancelAll ==> Final(Sweep(s, cancelAll), events).active == map[]
    ensures Quiet(s) && !(s.regular && cancelAll) ==> forall id :: id in Survivors(s, cancelAll) <==>
      id in s.active && Has(s, id) && Entry(s, id).response.None? && Entry(s, id).status != Waiting
        && Entry(s, id).status != New
  {
    StepKeeps(s, Shutdown(cancelAll));
    SweepDrains(s, cancelAll);
    HandlersDrain(Sweep(s, cancelAll), Survivors(s, cancelAll), events);
    forall id | id in s.active && Quiet(s) && Entry(s, id).status != Waiting ensures Entry(s, id).promise.Pending? {
      assert EntrySound(s, s.active[id]);
    }
  }

  // ----- The class -----

  class ActiveExecutions {
    const regular: bool
    var enabled: bool
    var active: map<ExecutionId, Place>
    /** The objects the table points to, by place. */
    var entries: seq<Execution>
    ghost var adds: map<AddId, Add>
    ghost var taken: nat
    ghost var released: nat
    ghost var forfeited: nat

    ghost function View(): State
      reads this
    {
      State(regular, enabled, active, entries, adds, taken, released, forfeited)
    }

    constructor (regular: bool, limits: bool)
      ensures View() == Initial(regular, limits) && Inv(View())
    {
      this.regular, enabled := regular, regular && limits;
      active, entries, adds, taken, released, forfeited := map[], [], map[], 0, 0, 0;
    }

    /** The first half of `add`: past `throttle`, a slot is taken if the mode has a queue. */
    method BeginAdd(ghost k: AddId, id: ExecutionId, limited: bool)
      requires Counted(View()) && k !in adds
      modifies this
      ensures View() == Step(old(View()), Throttle(k, id, limited))
      ensures taken == old(taken) + if enabled && limited then 1 else 0
      ensures active == old(active) && entries == old(entries) && released == old(released)
      ensures Counted(View()) && (old(Inv(View())) ==> Inv(View()))
    {
      Keeps(View(), Throttle(k, id, limited));
      adds := adds[k := Add(id, limited)];
      if enabled && limited {
        taken := taken + 1;
      }
    }

    /** The second half of `add`. The update of a resumed row may be refused: then `add` throws. */
    method FinishAdd(ghost k: AddId, id: ExecutionId, limited: bool, updateSucceeded: bool, now: int)
        returns (added: bool)
      requires Counted(View()) && k in adds && adds[k] == Add(id, limited)
      modifies this
      ensures added == updateSucceeded
      ensures View() == Step(old(View()), if updateSucceeded then Insert(k, now) else Refuse(k))
      ensures Counted(View())
      ensures old(Inv(View())) ==> (Inv(View()) <==> !updateSucceeded || old(Enabled(View(), Insert(k, now))))
      ensures updateSucceeded ==>
        && active == old(active)[id := |old(entries)|] && |entries| == |old(entries)| + 1
          && entries[..|old(entries)|] == old(entries)
        && var e := entries[|old(entries)|];
           && e.id == id && e.limited == limited && e.status == Running
           && e.engine == NoEngine && e.promise == Pending && !e.handled
           && (id in old(active) ==>
                 && e.startedAt == old(entries)[old(active)[id]].startedAt
                 && e.response == old(entries)[old(active)[id]].response)
           && (id !in old(active) ==> e.startedAt == now && e.response == None)
      ensures taken == old(taken) && released == old(released)
      ensures forfeited == old(forfeited) + if !updateSucceeded && enabled && limited then 1 else 0
      ensures !updateSucceeded ==> active == old(active) && entries == old(entries)
    {
      if !updateSucceeded {
        Keeps(View(), Refuse(k));
        if enabled && limited {
          forfeited := forfeited + 1;
        }
        adds := adds - {k};
        return false;
      }
      Keeps(View(), Insert(k, now));
      var startedAt, response := now, None;
      if id in active {
        startedAt, response := entries[active[id]].startedAt, entries[active[id]].response;
      }
      active := active[id := |entries|];
      entries := entries + [Execution(id, limited, startedAt, Running, response, NoEngine, Pending, false)];
      adds := adds - {k};
      return true;
    }

    method AttachWorkflowExecution(id: ExecutionId) returns (found: bool)
      requires Counted(View())
      modifies this`entries
      ensures found <==> id in active
      ensures found ==> View() == Step(old(View()), Attach(id))
      ensures found ==> entries == old(entries)[active[id] := old(entries)[active[id]].(engine := Attached)]
      ensures Counted(View()) && (old(Inv(View())) ==> Inv(View()))
      ensures !found ==> View() == old(View())
    {
      if id !in active {
        return false;
      }
      Keeps(View(), Attach(id));
      entries := entries[active[id] := entries[active[id]].(engine := Attached)];
      return true;
    }

    method AttachResponsePromise(id: ExecutionId, response: nat) returns (found: bool)
      requires Counted(View())
      modifies this`entries
      ensures found <==> id in active
      ensures found ==> View() == Step(old(View()), AttachResponse(id, response))
      ensures found ==> entries == old(entries)[active[id] := old(entries)[active[id]].(response := Some(response))]
      ensures Counted(View()) && (old(Inv(View())) ==> Inv(View()))
      ensures !found ==> View() == old(View())
    {
      if id !in active {
        return false;
      }
      Keeps(View(), AttachResponse(id, response));
      entries := entries[active[id] := entries[active[id]].(response := Some(response))];
      return true;
    }

    method SetStatusOf(id: ExecutionId, status: Status) returns (found: bool)
      requires Counted(View())
      modifies this`entries
      ensures found <==> id in active
      ensures found ==> View() == Step(old(View()), SetStatus(id, status))
      ensures found ==> entries == old(entries)[active[id] := old(entries)[active[id]].(status := status)]
      ensures Counted(View())
      ensures found && old(Inv(View())) ==> (Inv(View()) <==> (old(entries)[active[id]].handled ==> status == Waiting))
      ensures !found ==> View() == old(View())
    {
      if id !in active {
        return false;
      }
      Keeps(View(), SetStatus(id, status));
      entries := entries[active[id] := entries[active[id]].(status := status)];
      return true;
    }

    method FinalizeExecution(id: ExecutionId)
      requires Counted(View())
      modifies this`entries
      ensures View() == Step(old(View()), Finalize(id))
      ensures entries == if id in active && old(entries)[active[id]].promise == Pending
        then old(entries)[active[id] := old(entries)[active[id]].(promise := Resolved)] else old(entries)
      ensures Counted(View()) && (old(Inv(View())) ==> Inv(View()))
    {
      Keeps(View(), Finalize(id));
      if id !in active {
        return;
      }
      var i := active[id];
      if entries[i].promise.Pending? {
        entries := entries[i := entries[i].(promise := Resolved)];
      }
    }

    method StopExecution(id: ExecutionId)
      requires TableSound(View())
      modifies this`entries, this`active
      ensures View() == StopOne(old(View()), id)
      ensures id in old(active) && old(entries)[old(active)[id]].status == Waiting ==>
        active == old(active) - {id} && entries == old(entries)
      ensures id in old(active) && old(entries)[old(active)[id]].status != Waiting ==>
        var e, e' := old(entries)[old(active)[id]], entries[old(active)[id]];
        && active == old(active)
        && e'.engine == (if e.engine == Attached then Cancelled else e.engine)
        && e'.promise == (if e.promise == Pending then Rejected else e.promise)
        && e' == e.(engine := e'.engine, promise := e'.promise)
      ensures id !in old(active) ==> View() == old(View())
      ensures old(Counted(View())) ==> Counted(View())
      ensures old(Inv(View())) ==> Inv(View())
      ensures id in active ==> !Entry(View(), id).promise.Pending?
      ensures OthersUntouched(old(View()), View(), id)
    {
      StopKeeps(View(), id);
      if id !in active {
        return;
      }
      var i := active[id];
      if entries[i].status == Waiting {
        active := active - {id};
      } else {
        var e := entries[i];
        if e.engine.Attached? {
          e := e.(engine := Cancelled);
        }
        if e.promise.Pending? {
          e := e.(promise := Rejected);
        }
        entries := entries[i := e];
      }
    }

    /** The callback given to `finally`, for the entry at place `i`. */
    method FinallyHandler(i: Place)
      requires Counted(View()) && Possible(View(), RunHandler(i))
      modifies this`entries, this`active, this`released
      ensures View() == Step(old(View()), RunHandler(i))
      ensures released == old(released) + if enabled && old(entries)[i].limited then 1 else 0
      ensures old(entries)[i].status == Waiting ==>
        active == old(active) && entries == old(entries)[i := old(entries)[i].(handled := true, engine := NoEngine)]
      ensures old(entries)[i].status != Waiting ==>
        && active == old(active) - {old(entries)[i].id}
        && entries == old(entries)[i := old(entries)[i].(handled := true)]
      ensures Counted(View()) && (old(Inv(View())) ==> Inv(View()))
    {
      Keeps(View(), RunHandler(i));
      var e := entries[i];
      if enabled && e.limited {
        released := released + 1;
      }
      if e.status == Waiting {
        entries := entries[i := e.(handled := true, engine := NoEngine)];
      } else {
        entries := entries[i := e.(handled := true)];
        active := active - {e.id};
      }
    }

    /** One turn of the sweep. */
    method SweepOne(id: ExecutionId, cancelAll: bool) returns (cancelled: bool)
      requires TableSound(View()) && id in active
      modifies this`entries, this`active
      ensures cancelled == ToCancel(old(View()), cancelAll, Entry(old(View()), id))
      ensures View() == SweepId(old(View()), cancelAll, id)
      ensures old(Counted(View())) ==> Counted(View())
      ensures old(Inv(View())) ==> Inv(View())
      ensures id in active <==> Remains(old(View()), cancelAll, Entry(old(View()), id))
      ensures cancelled && id in active ==> !Entry(View(), id).promise.Pending?
      ensures !cancelled ==> entries == old(entries)
      ensures OthersUntouched(old(View()), View(), id)
    {
      DropKeeps(View(), id);
      var e := entries[active[id]];
      cancelled := e.response.Some? || (regular && cancelAll);
      if cancelled {
        StopExecution(id);
      } else if e.status == Waiting || e.status == New {
        active := active - {id};
      }
    }

    /** The loop of `shutdown`. The keys may come in any order. */
    method SweepEntries(cancelAll: bool) returns (toCancel: set<ExecutionId>)
      requires TableSound(View()) && (regular ==> !enabled)
      modifies this`entries, this`active
      ensures View() == Sweep(old(View()), cancelAll)
      ensures toCancel == CancelledBySweep(old(View()), cancelAll)
    {
      ghost var s := View();
      toCancel := {};
      var todo := active.Keys;
      ghost var order: seq<ExecutionId> := [];
      while todo != {}
        invariant Visited(order, s.active.Keys, todo)
        invariant View() == SweepInOrder(s, cancelAll, order)
        invariant forall id :: id in toCancel <==> id in order && id in CancelledBySweep(s, cancelAll)
      {
        var id :| id in todo;
        TurnInOrder(s, cancelAll, order, todo, id);
        var cancelled := SweepOne(id, cancelAll);
        if cancelled {
          toCancel := toCancel + {id};
        }
        todo := todo - {id};
        order := order + [id];
      }
      AllInOrder(s, cancelAll, order);
      assert toCancel == CancelledBySweep(s, cancelAll);
    }

    /** The synchronous part of `shutdown`: capacity is no longer released, then the sweep. */
    method ShutdownSweep(cancelAll: bool) returns (toCancel: set<ExecutionId>)
      requires Counted(View())
      modifies this`enabled, this`entries, this`active
      ensures View() == Step(old(View()), Shutdown(cancelAll))
      ensures Counted(View()) && (old(Inv(View())) ==> Inv(View()))
      ensures toCancel == CancelledBySweep(old(View()), cancelAll)
      ensures enabled == (old(enabled) && !regular)
      ensures forall id :: id in toCancel <==>
        id in old(active) && (old(entries)[old(active)[id]].response != None || (regular && cancelAll))
      ensures forall id :: id in active <==>
        && id in old(active)
        && var e := old(entries)[old(active)[id]]; e.status != Waiting && (id in toCancel || e.status != New)
      ensures forall id :: id in active && id in toCancel ==>
        active[id] == old(active)[id] && entries[active[id]].promise != Pending
          && entries[active[id]].engine != Attached
    {
      ghost var s := View();
      if regular {
        enabled := false;
      }
      toCancel := SweepEntries(cancelAll);
      SweepDisabled(s, cancelAll);
      Keeps(s, Shutdown(cancelAll));
    }
  }

  // ----- The sweep, one entry at a time -----

  function CancelledBySweep(s: State, cancelAll: bool): set<ExecutionId> {
    set id | id in s.active && Has(s, id) && ToCancel(s, cancelAll, Entry(s, id))
  }

  function SweepId(s: State, cancelAll: bool, id: ExecutionId): State
    requires Has(s, id)
  {
    if ToCancel(s, cancelAll, Entry(s, id)) then StopOne(s, id)
    else if Entry(s, id).status == Waiting || Entry(s, id).status == New then s.(active := s.active - {id})
    else s
  }

  /** The state of the sweep when the ids in `done` have been visited. */
  function SweepSome(s: State, cancelAll: bool, done: set<ExecutionId>): State {
    s.(enabled := s.enabled && !s.regular,
       active := map id | id in s.active && (id in done ==> Has(s, id) && Remains(s, cancelAll, Entry(s, id))) ::
         s.active[id],
       entries := seq(|s.entries|, i requires 0 <= i < |s.entries| =>
         if s.entries[i].id in done then SweepEntry(s, cancelAll, i) else s.entries[i]))
  }

  ghost predicate Visited(order: seq<ExecutionId>, all: set<ExecutionId>, todo: set<ExecutionId>) {
    && todo <= all
    && (forall id :: id in order <==> id in all && id !in todo)
    && (forall i, j :: 0 <= i < j < |order| ==> order[i] != order[j])
  }

  ghost function SweepInOrder(s: State, cancelAll: bool, order: seq<ExecutionId>): State {
    if order == [] then s else
      var t := SweepInOrder(s, cancelAll, order[..|order| - 1]);
      var id := order[|order| - 1];
      if Has(t, id) then SweepId(t, cancelAll, id) else t
  }

  /** The order of the visits makes no difference. */
  lemma {:induction false} InOrder(s: State, cancelAll: bool, order: seq<ExecutionId>)
    requires TableSound(s) && (s.regular ==> !s.enabled)
    requires forall id :: id in order ==> id in s.active
    requires forall i, j :: 0 <= i < j < |order| ==> order[i] != order[j]
    ensures SweepInOrder(s, cancelAll, order) == SweepSome(s, cancelAll, set id | id in order)
  {
    if order == [] {
      SweepNone(s, cancelAll);
      assert (set id | id in order) == {};
    } else {
      var front, id := order[..|order| - 1], order[|order| - 1];
      InOrder(s, cancelAll, front);
      assert id !in front && id in order;
      SweepTurn(s, cancelAll, (set i | i in front), id);
      assert (set i | i in order) == (set i | i in front) + {id};
    }
  }

  lemma TurnInOrder(s: State, cancelAll: bool, order: seq<ExecutionId>, todo: set<ExecutionId>, id: ExecutionId)
    requires TableSound(s) && (s.regular ==> !s.enabled) && Visited(order, s.active.Keys, todo) && id in todo
    ensures Visited(order + [id], s.active.Keys, todo - {id})
    ensures var t := SweepInOrder(s, cancelAll, order);
      && TableSound(t) && id in t.active
      && SweepInOrder(s, cancelAll, order + [id]) == SweepId(t, cancelAll, id)
      && (ToCancel(t, cancelAll, Entry(t, id)) <==> id in CancelledBySweep(s, cancelAll))
  {
    InOrder(s, cancelAll, order);
    SweepTurn(s, cancelAll, (set i | i in order), id);
    assert (order + [id])[..|order|] == order;
  }

  lemma AllInOrder(s: State, cancelAll: bool, order: seq<ExecutionId>)
    requires TableSound(s) && (s.regular ==> !s.enabled) && Visited(order, s.active.Keys, {})
    ensures SweepInOrder(s, cancelAll, order) == Sweep(s, cancelAll)
  {
    InOrder(s, cancelAll, order);
    SweepAll(s, cancelAll, set id | id in order);
  }

  lemma SweepNone(s: State, cancelAll: bool)
    ensures SweepSome(s, cancelAll, {}) == s.(enabled := s.enabled && !s.regular)
  {
  }

  lemma SweepAll(s: State, cancelAll: bool, done: set<ExecutionId>)
    requires TableSound(s) && done == s.active.Keys
    ensures SweepSome(s, cancelAll, done) == Sweep(s, cancelAll)
  {
  }

  lemma SweepDisabled(s: State, cancelAll: bool)
    ensures var off := s.(enabled := s.enabled && !s.regular);
      Sweep(off, cancelAll) == Sweep(s, cancelAll) && CancelledBySweep(off, cancelAll) == CancelledBySweep(s, cancelAll)
  {
  }

  lemma SweepTurn(s: State, cancelAll: bool, done: set<ExecutionId>, id: ExecutionId)
    requires TableSound(s) && id in s.active && id !in done
    ensures var t, e := SweepSome(s, cancelAll, done), Entry(s, id);
      && TableSound(t) && id in t.active && Entry(t, id) == e
      && SweepSome(s, cancelAll, done + {id}) == SweepId(t, cancelAll, id)
  {
    var t, e := SweepSome(s, cancelAll, done), Entry(s, id);
    var t' := SweepSome(s, cancelAll, done + {id});
    assert Entry(t, id) == e;
    if Remains(s, cancelAll, e) {
      assert t'.active == t.active;
    } else {
      assert t'.active == t.active - {id};
    }
    if ToCancel(s, cancelAll, e) && e.status != Waiting {
      assert t'.entries == t.entries[s.active[id] := Stopped(e)];
    } else {
      assert t'.entries == t.entries;
    }
  }
}
