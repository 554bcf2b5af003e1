/**
 Triggers and pollers in memory, over any number of main instances of which at most one leads.
 packages/cli/src/active-workflow-manager.ts and packages/core/src/execution-engine/active-workflows.ts.
 An activation first reads whether its instance leads and starts its triggers later; a step-down
 closes the active workflows one after the other. Everything else can come in between.
 */
module LeaderTriggers {
  import opened Wrappers

  type WorkflowId = string
  type InstanceId = nat
  type AddId = nat
  type CloseId = nat

  datatype Command = AddCommand(id: WorkflowId) | RemoveCommand(id: WorkflowId)

  /** An activation that has read `isLeader` and has neither started its triggers nor failed. */
  datatype Add = Add(i: InstanceId, id: WorkflowId, leads: bool)

  /** A step-down handler, with the ids it has yet to close. */
  datatype Closing = Closing(i: InstanceId, rest: seq<WorkflowId>)

  /** A failed activation may leave the workflow as it was, marked active, or no longer marked. */
  datatype AddResult = Added(hasTriggers: bool) | Unchanged | Started | Unmarked

  /** Where an activation comes from: a pass over all stored workflows, a caller, or a published command. */
  datatype Origin = Pass | Caller | Published

  datatype State = State(
    multiMain: bool,
    leader: Option<InstanceId>,
    active: map<InstanceId, set<WorkflowId>>,
    adds: map<AddId, Add>,
    closings: map<CloseId, Closing>,
    commands: set<Command>)

  datatype Event =
    | Join(i: InstanceId)
    | Publish(c: Command)
    | Begin(k: AddId, i: InstanceId, id: WorkflowId, origin: Origin)
    | Finish(k: AddId, result: AddResult)
    | Remove(i: InstanceId, id: WorkflowId, works: bool)
    | TriggerFailed(i: InstanceId, id: WorkflowId)
    | TakeOver(i: InstanceId)
    | StepDown(i: InstanceId, h: CloseId, order: seq<WorkflowId>)
    | Close(h: CloseId, fails: bool)

  // ----- Steps -----

  predicate Leads(s: State, i: InstanceId) {
    s.leader == Some(i)
  }

  predicate Starts(result: AddResult) {
    result == Added(true) || result == Started
  }

  function AfterAdd(active: set<WorkflowId>, add: Add, result: AddResult): set<WorkflowId> {
    if !add.leads then active
    else if Starts(result) then active + {add.id}
    else if result == Unmarked then active - {add.id}
    else active
  }

  /** One turn of the closing loop. When a close throws, the handler ends there. */
  function CloseHead(s: State, h: CloseId, fails: bool): State
    requires h in s.closings && s.closings[h].rest != [] && s.closings[h].i in s.active
  {
    var i, rest := s.closings[h].i, s.closings[h].rest;
    if rest[0] !in s.active[i] then s.(closings := s.closings[h := Closing(i, rest[1..])])
    else if fails then s.(closings := s.closings - {h})
    else s.(active := s.active[i := s.active[i] - {rest[0]}], closings := s.closings[h := Closing(i, rest[1..])])
  }

  ghost predicate Enabled(s: State, e: Event) {
    match e
    case Join(i) => i !in s.active
    case Publish(_) => s.multiMain
    case Begin(k, i, id, origin) =>
      && k !in s.adds && i in s.active
      && (origin.Caller? ==> !s.multiMain)
      && (origin.Published? ==> AddCommand(id) in s.commands)
    case Finish(k, _) => k in s.adds && s.adds[k].i in s.active
    case Remove(i, id, _) => i in s.active && (s.multiMain ==> Leads(s, i) && RemoveCommand(id) in s.commands)
    case TriggerFailed(i, id) => i in s.active && id in s.active[i]
    case TakeOver(i) => i in s.active && s.leader == None
    case StepDown(i, h, order) =>
      i in s.active && Leads(s, i) && h !in s.closings && forall id :: id in order <==> id in s.active[i]
    case Close(h, _) => h in s.closings && s.closings[h].rest != [] && s.closings[h].i in s.active
  }

  function Step(s: State, e: Event): State
    requires Enabled(s, e)
  {
    match e
    case Join(i) => s.(active := s.active[i := {}])
    case Publish(c) => s.(commands := s.commands + {c})
    case Begin(k, i, id, _) => s.(adds := s.adds[k := Add(i, id, Leads(s, i))])
    case Finish(k, result) =>
      var add := s.adds[k];
      s.(adds := s.adds - {k}, active := s.active[add.i := AfterAdd(s.active[add.i], add, result)])
    case Remove(i, id, works) => if works then s.(active := s.active[i := s.active[i] - {id}]) else s
    case TriggerFailed(i, id) => s.(active := s.active[i := s.active[i] - {id}])
    case TakeOver(i) => s.(leader := Some(i))
    case StepDown(i, h, order) => s.(leader := None, closings := s.closings[h := Closing(i, order)])
    case Close(h, fails) => CloseHead(s, h, fails)
  }

  ghost predicate IsRun(s: State, events: seq<Event>)
    decreases |events|
  {
    events == [] || (Enabled(s, events[0]) && IsRun(Step(s, events[0]), events[1..]))
  }

  ghost function Final(s: State, events: seq<Event>): State
    requires IsRun(s, events)
    decreases |events|
  {
    if events == [] then s else Final(Step(s, events[0]), events[1..])
  }

  // ----- Triggers stay with the leader -----

  ghost predicate WellFormed(s: State) {
    && (forall k :: k in s.adds ==> s.adds[k].i in s.active)
    && (forall h :: h in s.closings ==> s.closings[h].i in s.active)
  }

  /** A step-down handler of the instance, other than `but`, will get to the workflow. */
  ghost predicate ToBeClosed(s: State, i: InstanceId, id: WorkflowId, but: Option<CloseId>) {
    exists h :: h in s.closings && Some(h) != but && s.closings[h].i == i && id in s.closings[h].rest
  }

  /** Whoever holds triggers leads, or is about to close them. */
  ghost predicate Kept(s: State) {
    forall i, id :: i in s.active && id in s.active[i] ==> Leads(s, i) || ToBeClosed(s, i, id, None)
  }

  /**
   The two ways out: an activation that read `isLeader` in time starts triggers after the step-down,
   or a close throws and the handler gives up on what only it would have closed.
   */
  ghost predicate Escapes(s: State, e: Event)
    requires Enabled(s, e)
  {
    match e
    case Finish(k, result) =>
      var add := s.adds[k];
      add.leads && Starts(result) && !Leads(s, add.i) && !ToBeClosed(s, add.i, add.id, None)
    case Close(h, fails) =>
      var c := s.closings[h];
      fails && c.rest[0] in s.active[c.i] && !Leads(s, c.i)
      && exists id :: id in c.rest && id in s.active[c.i] && !ToBeClosed(s, c.i, id, Some(h))
    case _ => false
  }

  lemma FinishKeeps(s: State, k: AddId, result: AddResult)
    requires WellFormed(s) && Kept(s) && Enabled(s, Finish(k, result))
    ensures Kept(Step(s, Finish(k, result))) <==> !Escapes(s, Finish(k, result))
  {
    var s', add := Step(s, Finish(k, result)), s.adds[k];
    forall i, id ensures ToBeClosed(s', i, id, None) <==> ToBeClosed(s, i, id, None) {
    }
    if Escapes(s, Finish(k, result)) {
      assert add.id in s'.active[add.i];
    }
  }

  lemma FailedClose(s: State, h: CloseId)
    requires WellFormed(s) && Kept(s) && Enabled(s, Close(h, true))
      && s.closings[h].rest[0] in s.active[s.closings[h].i]
    ensures Kept(Step(s, Close(h, true))) <==> !Escapes(s, Close(h, true))
  {
    var s', c := Step(s, Close(h, true)), s.closings[h];
    forall i, id ensures ToBeClosed(s', i, id, None) <==> ToBeClosed(s, i, id, Some(h)) {
    }
    if !Escapes(s, Close(h, true)) {
      forall i, id | i in s'.active && id in s'.active[i] ensures Leads(s', i) || ToBeClosed(s', i, id, None) {
        assert Leads(s, i) || ToBeClosed(s, i, id, None);
      }
    }
  }

  lemma CloseKeeps(s: State, h: CloseId, fails: bool)
    requires WellFormed(s) && Kept(s) && Enabled(s, Close(h, fails))
    requires fails ==> s.closings[h].rest[0] !in s.active[s.closings[h].i]
    ensures Kept(Step(s, Close(h, fails)))
  {
    var s', c := Step(s, Close(h, fails)), s.closings[h];
    forall i, id | i in s'.active && id in s'.active[i] ensures Leads(s', i) || ToBeClosed(s', i, id, None) {
      assert Leads(s, i) || ToBeClosed(s, i, id, None);
      if !Leads(s, i) {
        var g :| g in s.closings && s.closings[g].i == i && id in s.closings[g].rest;
        assert c.rest == [c.rest[0]] + c.rest[1..];
        assert g in s'.closings && id in s'.closings[g].rest;
      }
    }
  }

  lemma OthersKeep(s: State, e: Event)
    requires WellFormed(s) && Kept(s) && Enabled(s, e) && !e.Finish? && !e.Close?
    ensures Kept(Step(s, e))
  {
    var s' := Step(s, e);
    forall i, id | i in s'.active && id in s'.active[i] ensures Leads(s', i) || ToBeClosed(s', i, id, None) {
      assert Leads(s, i) || ToBeClosed(s, i, id, None);
      if e.StepDown? && i == e.i {
        assert e.h in s'.closings && id in s'.closings[e.h].rest;
      } else if !Leads(s, i) {
        var g :| g in s.closings && s.closings[g].i == i && id in s.closings[g].rest;
        assert g in s'.closings && s'.closings[g] == s.closings[g];
      }
    }
  }

  /** A step keeps the triggers with the leader exactly when it is neither of the two ways out. */
  lemma StepKeepsLeader(s: State, e: Event)
    requires WellFormed(s) && Kept(s) && Enabled(s, e)
    ensures WellFormed(Step(s, e))
    ensures Kept(Step(s, e)) <==> !Escapes(s, e)
  {
    match e
    case Finish(k, result) => FinishKeeps(s, k, result);
    case Close(h, fails) =>
      if fails && s.closings[h].rest[0] in s.active[s.closings[h].i] {
        FailedClose(s, h);
      } else {
        CloseKeeps(s, h, fails);
      }
    case _ => OthersKeep(s, e);
  }

  ghost predicate AlwaysKept(s: State, events: seq<Event>)
    requires IsRun(s, events)
    decreases |events|
  {
    Kept(s) && (events != [] ==> AlwaysKept(Step(s, events[0]), events[1..]))
  }

  ghost predicate NeverEscapes(s: State, events: seq<Event>)
    requires IsRun(s, events)
    decreases |events|
  {
    events != [] ==> !Escapes(s, events[0]) && NeverEscapes(Step(s, events[0]), events[1..])
  }

  /** In every run: triggers stay with the leader throughout if and only if neither way out is taken. */
  lemma {:induction false} TriggersStayWithLeader(s: State, events: seq<Event>)
    requires WellFormed(s) && Kept(s) && IsRun(s, events)
    ensures AlwaysKept(s, events) <==> NeverEscapes(s, events)
    decreases |events|
  {
    if events != [] {
      var s' := Step(s, events[0]);
      StepKeepsLeader(s, events[0]);
      if Kept(s') {
        TriggersStayWithLeader(s', events[1..]);
      } else {
        assert !AlwaysKept(s', events[1..]);
      }
    }
  }

  /** Where step-downs have come to their end, nobody but the leader holds triggers, and each workflow only once. */
  lemma AtMostOneHolder(s: State, i: InstanceId, j: InstanceId, id: WorkflowId)
    requires Kept(s) && i in s.active && j in s.active && id in s.active[i] && id in s.active[j]
    requires forall h :: h in s.closings ==> id !in s.closings[h].rest
    ensures i == j && Leads(s, i)
  {
  }

  /** Of two activations under way, the later one's instance leads, and both start their triggers. */
  lemma BothStart(s: State, i: InstanceId, j: InstanceId, id: WorkflowId, k: AddId, l: AddId)
      returns (events: seq<Event>)
    requires i != j && i in s.active && j in s.active && s.active[i] == {} && k != l
    requires k in s.adds && s.adds[k] == Add(i, id, true) && l in s.adds && s.adds[l] == Add(j, id, true)
    requires s.leader == Some(j) && forall g :: g in s.closings && s.closings[g].i == i ==> id !in s.closings[g].rest
    ensures IsRun(s, events)
    ensures var f := Final(s, events);
      && i in f.active && j in f.active && id in f.active[i] && id in f.active[j]
      && f.leader == Some(j) && f.adds == s.adds - {l} - {k} && !Kept(f)
  {
    var t := s.(adds := s.adds - {l}, active := s.active[j := s.active[j] + {id}]);
    var u := t.(adds := t.adds - {k}, active := t.active[i := {id}]);
    assert t.active[i] + {id} == {id};
    RunTwo(s, Finish(l, Added(true)), t, Finish(k, Added(true)), u, []);
    events := [Finish(l, Added(true)), Finish(k, Added(true))];
    assert events + [] == events;
    assert id in u.active[i] && !Leads(u, i) && !ToBeClosed(u, i, id, None);
  }

  /**
   The late start does happen, from every state in which `i` leads, holds nothing, and closes nothing:
   in the end two instances run the triggers of one workflow, and only one of them leads.
   */
  lemma LateStart(s: State, i: InstanceId, j: InstanceId, id: WorkflowId, k: AddId, l: AddId, h: CloseId)
      returns (events: seq<Event>)
    requires Leads(s, i) && i != j && i in s.active && j in s.active && s.active[i] == {}
    requires k != l && k !in s.adds && l !in s.adds && h !in s.closings
    requires forall g :: g in s.closings ==> s.closings[g].i != i
    ensures IsRun(s, events)
    ensures var f := Final(s, events);
      && i in f.active && j in f.active && id in f.active[i] && id in f.active[j]
      && f.leader == Some(j) && f.adds == s.adds && !Kept(f)
  {
    var s2 := s.(adds := s.adds[k := Add(i, id, true)], leader := None, closings := s.closings[h := Closing(i, [])]);
    var s4 := s2.(leader := Some(j), adds := s2.adds[l := Add(j, id, true)]);
    var finish := BothStart(s4, i, j, id, k, l);
    RunTwo(s2, TakeOver(j), s2.(leader := Some(j)), Begin(l, j, id, Pass), s4, finish);
    var late := [TakeOver(j), Begin(l, j, id, Pass)] + finish;
    RunTwo(s, Begin(k, i, id, Pass), s.(adds := s2.adds), StepDown(i, h, []), s2, late);
    events := [Begin(k, i, id, Pass), StepDown(i, h, [])] + late;
    assert s4.adds - {l} - {k} == s.adds;
  }

  lemma RunTwo(s: State, e: Event, t: State, e': Event, u: State, rest: seq<Event>)
    requires Enabled(s, e) && Step(s, e) == t && Enabled(t, e') && Step(t, e') == u && IsRun(u, rest)
    ensures IsRun(s, [e, e'] + rest) && Final(s, [e, e'] + rest) == Final(u, rest)
  {
    RunCons(t, e', rest, [e'] + rest);
    RunCons(s, e, [e'] + rest, [e, e'] + rest);
  }

  lemma RunCons(s: State, e: Event, rest: seq<Event>, all: seq<Event>)
    requires Enabled(s, e) && IsRun(Step(s, e), rest) && all == [e] + rest
    ensures IsRun(s, all) && Final(s, all) == Final(Step(s, e), rest)
  {
    assert all[1..] == rest;
  }

  /** Undisturbed, an activation starts triggers exactly on the leader, and only on the instance it runs on. */
  lemma ActivationStarts(s: State, k: AddId, i: InstanceId, id: WorkflowId, origin: Origin, hasTriggers: bool)
    requires Enabled(s, Begin(k, i, id, origin))
    ensures IsRun(s, [Begin(k, i, id, origin), Finish(k, Added(hasTriggers))])
    ensures var f := Final(s, [Begin(k, i, id, origin), Finish(k, Added(hasTriggers))]);
      && f.leader == s.leader && f.adds == s.adds && f.closings == s.closings && f.commands == s.commands
      && f.active == s.active[i := if s.leader == Some(i) && hasTriggers then s.active[i] + {id} else s.active[i]]
  {
    var t := Step(s, Begin(k, i, id, origin));
    var f := Step(t, Finish(k, Added(hasTriggers)));
    assert f.adds == s.adds;
    RunCons(t, Finish(k, Added(hasTriggers)), [], [Finish(k, Added(hasTriggers))]);
    RunCons(s, Begin(k, i, id, origin), [Finish(k, Added(hasTriggers))],
      [Begin(k, i, id, origin), Finish(k, Added(hasTriggers))]);
  }

  /**
   A removal that works, and a failing trigger, take the workflow out of memory on that instance and touch
   nothing else.
   */
  lemma RemovalTakesOut(s: State, i: InstanceId, id: WorkflowId)
    requires i in s.active
    ensures forall e :: (e == Remove(i, id, true) || e == TriggerFailed(i, id)) && Enabled(s, e) ==>
      var s' := Step(s, e);
      && id !in s'.active[i] && s'.active[i] + {id} == s.active[i] + {id}
      && s'.active == s.active[i := s'.active[i]]
      && s'.leader == s.leader && s'.adds == s.adds && s'.closings == s.closings && s'.commands == s.commands
    ensures Enabled(s, Remove(i, id, false)) ==> Step(s, Remove(i, id, false)) == s
  {
  }

  /** Every activation that will start triggers runs on the leader, and no handler is closing. */
  ghost predicate Steady(s: State) {
    s.closings == map[] && Kept(s) && forall k :: k in s.adds && s.adds[k].leads ==> Leads(s, s.adds[k].i)
  }

  /** As long as nobody steps down, triggers stay with the leader, whatever the activations do. */
  lemma {:induction false} SteadyRuns(s: State, events: seq<Event>)
    requires WellFormed(s) && Steady(s) && IsRun(s, events)
    requires forall n :: 0 <= n < |events| ==> !events[n].StepDown?
    ensures AlwaysKept(s, events) && Steady(Final(s, events))
    decreases |events|
  {
    if events != [] {
      StepKeepsLeader(s, events[0]);
      assert forall n :: 0 <= n < |events| - 1 ==> events[1..][n] == events[n + 1];
      SteadyRuns(Step(s, events[0]), events[1..]);
    }
  }

  // ----- The closing loop -----

  /** What the loop over `order` leaves active when closing the ids in `failing` throws. */
  function Leftover(order: seq<WorkflowId>, failing: set<WorkflowId>): seq<WorkflowId> {
    if order == [] || order[0] in failing then order else Leftover(order[1..], failing)
  }

  /** Exactly the first failing id and everything after it; nothing if and only if no close fails. */
  lemma {:induction false} LeftoverIs(order: seq<WorkflowId>, failing: set<WorkflowId>) returns (n: nat)
    ensures n <= |order| && Leftover(order, failing) == order[n..]
    ensures forall j :: 0 <= j < n ==> order[j] !in failing
    ensures n < |order| ==> order[n] in failing
    ensures Leftover(order, failing) == [] <==> forall j :: 0 <= j < |order| ==> order[j] !in failing
  {
    n := 0;
    if order != [] && order[0] !in failing {
      var m := LeftoverIs(order[1..], failing);
      n := m + 1;
      assert forall j :: 0 < j < |order| ==> order[j] == order[1..][j - 1];
    }
  }

  /** The turns that the handler of a step-down takes when nothing comes in between. */
  ghost function CloseLoop(h: CloseId, rest: seq<WorkflowId>, failing: set<WorkflowId>): seq<Event> {
    if rest == [] then []
    else if rest[0] in failing then [Close(h, true)]
    else [Close(h, false)] + CloseLoop(h, rest[1..], failing)
  }

  ghost predicate Distinct(order: seq<WorkflowId>) {
    forall i, j :: 0 <= i < j < |order| ==> order[i] != order[j]
  }

  lemma {:induction false} LoopLeaves(s: State, h: CloseId, failing: set<WorkflowId>)
    requires h in s.closings && s.closings[h].i in s.active && Distinct(s.closings[h].rest)
    requires forall id :: id in s.closings[h].rest <==> id in s.active[s.closings[h].i]
    ensures var i, events := s.closings[h].i, CloseLoop(h, s.closings[h].rest, failing);
      && IsRun(s, events)
      && Final(s, events).leader == s.leader
      && i in Final(s, events).active
      && (forall id :: id in Final(s, events).active[i] <==> id in Leftover(s.closings[h].rest, failing))
    decreases |s.closings[h].rest|
  {
    var i, rest := s.closings[h].i, s.closings[h].rest;
    var events := CloseLoop(h, rest, failing);
    if rest != [] {
      var e := Close(h, rest[0] in failing);
      assert rest[0] in s.active[i];
      if rest[0] in failing {
        RunCons(s, e, [], events);
      } else {
        assert rest == [rest[0]] + rest[1..];
        LoopLeaves(Step(s, e), h, failing);
        RunCons(s, e, CloseLoop(h, rest[1..], failing), events);
      }
    }
  }

  /** An undisturbed step-down leaves its instance without triggers if and only if no active id's close throws. */
  lemma StepDownCloses(s: State, i: InstanceId, h: CloseId, order: seq<WorkflowId>, failing: set<WorkflowId>)
    requires Enabled(s, StepDown(i, h, order)) && Distinct(order)
    ensures var events := [StepDown(i, h, order)] + CloseLoop(h, order, failing);
      && IsRun(s, events)
      && !Leads(Final(s, events), i) && i in Final(s, events).active
      && (Final(s, events).active[i] == {} <==> forall id :: id in s.active[i] ==> id !in failing)
  {
    var e := StepDown(i, h, order);
    var s', rest := Step(s, e), CloseLoop(h, order, failing);
    LoopLeaves(s', h, failing);
    RunCons(s, e, rest, [e] + rest);
    var n := LeftoverIs(order, failing);
    var left := Final(s', rest).active[i];
    assert forall x :: x in left <==> x in order[n..];
    assert n < |order| ==> order[n] in order[n..];
    assert n == |order| ==> order[n..] == [];
    assert forall j :: 0 <= j < |order| ==> order[j] in s.active[i];
  }

  class ActiveWorkflows {
    var activeWorkflows: set<WorkflowId>

    method RemoveWorkflow(id: WorkflowId, closeThrows: bool) returns (threw: bool)
      modifies this
      ensures threw <==> id in old(activeWorkflows) && closeThrows
      ensures activeWorkflows == if threw then old(activeWorkflows) else old(activeWorkflows) - {id}
    {
      if id !in activeWorkflows {
        return false;
      }
      if closeThrows {
        return true;
      }
      activeWorkflows := activeWorkflows - {id};
      return false;
    }

    /** The loop over the keys as they were at the start. */
    method RemoveAllTriggerAndPollerBasedWorkflows(order: seq<WorkflowId>, failing: set<WorkflowId>)
        returns (threw: bool)
      requires Distinct(order) && forall id :: id in order <==> id in activeWorkflows
      modifies this
      ensures forall id :: id in activeWorkflows <==> id in Leftover(order, failing)
      ensures threw <==> exists id :: id in old(activeWorkflows) && id in failing
      ensures threw <==> activeWorkflows != {}
    {
      var i := 0;
      while i < |order|
        invariant 0 <= i <= |order|
        invariant forall id :: id in activeWorkflows <==> id in order[i..]
        invariant Leftover(order, failing) == Leftover(order[i..], failing)
        invariant forall j :: 0 <= j < i ==> order[j] !in failing
      {
        var id := order[i];
        assert order[i..] == [id] + order[i + 1..];
        threw := RemoveWorkflow(id, id in failing);
        if threw {
          return true;
        }
        i := i + 1;
      }
      return false;
    }
  }
}
