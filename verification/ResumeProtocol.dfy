/**
 The race to resume a waiting execution: poll timers, finishing children and several processes,
 interleaved step by step around one conditional update of the execution row.
 packages/cli/src/active-executions.ts, wait-tracker.ts and workflow-helpers.ts.
 */
module ResumeProtocol {
  import opened Wrappers
  import opened ChildResults

  type ProcessId = nat
  type AttemptId = nat

  /** An execution row. `saved` says that the workflow of the execution has an id. */
  datatype Row = Row(status: Status, finished: bool, saved: bool, data: Saved)

  /** Who wants to resume: a timer or another caller, or a finished child with its output. */
  datatype Kind = Timer | Child(output: Option<Connections>)

  /** Where a resume attempt stands, with the data it has read and still holds. */
  datatype Stage =
    | ReadParent
    | WriteParent(snapshot: Saved)
    | Find
    | Throttled(held: Saved)
    | Won(period: nat, started: Saved)
    | Subscribed(parent: ExecutionId)
    | Done
    | Lost
    | Rejected

  datatype Attempt = Attempt(process: ProcessId, target: ExecutionId, kind: Kind, stage: Stage)

  /** What happened, in order. A period is one stay of a row in status waiting, counted per row. */
  datatype Entry =
    | Resumed(winner: AttemptId, id: ExecutionId, period: nat, data: Saved)
    | Refused(loser: AttemptId, id: ExecutionId, period: nat)
    | Left(id: ExecutionId, period: nat)
    | Subscription(subscriber: AttemptId, id: ExecutionId, period: nat)

  datatype State = State(
    rows: map<ExecutionId, Row>,
    periods: map<ExecutionId, nat>,
    attempts: map<AttemptId, Attempt>,
    active: set<(ProcessId, ExecutionId)>,
    log: seq<Entry>)

  datatype Event =
    | Spawn(a: AttemptId, process: ProcessId, target: ExecutionId, kind: Kind)
    | Advance(a: AttemptId)
    | Wake(w: AttemptId, a: AttemptId, run: Option<Run>)
    | Suspend(id: ExecutionId, data: Saved)
    | Settle(id: ExecutionId, status: Status, data: Saved)
    | Cancel(id: ExecutionId)

  // ----- Steps -----

  function SetStage(s: State, a: AttemptId, stage: Stage): State
    requires a in s.attempts
  {
    s.(attempts := s.attempts[a := s.attempts[a].(stage := stage)])
  }

  /** First read of `updateParentExecutionWithChildResults`. */
  function AfterRead(s: State, t: Attempt): Stage {
    if BringsOutput(t) && t.target in s.rows
       && s.rows[t.target].status == Waiting && HasStack(s.rows[t.target].data)
    then WriteParent(WithHead(s.rows[t.target].data, t.kind.output.value))
    else Find
  }

  /** The read of `WaitTracker.startExecution`. */
  function AfterFind(s: State, t: Attempt): Stage {
    if t.target !in s.rows || s.rows[t.target].finished || !s.rows[t.target].saved then Rejected
    else Throttled(s.rows[t.target].data)
  }

  /** The conditional update of `ActiveExecutions.add`: one atomic step. */
  function Contend(s: State, a: AttemptId): State
    requires a in s.attempts && s.attempts[a].stage.Throttled? && s.attempts[a].target in s.rows
      && s.attempts[a].target in s.periods
  {
    var t := s.attempts[a];
    var x, row, p := t.target, s.rows[t.target], s.periods[t.target];
    if row.status == Waiting then
      SetStage(s, a, Won(p, t.stage.held)).(
        rows := s.rows[x := row.(status := Running, data := t.stage.held)],
        active := s.active + {(t.process, x)},
        log := s.log + [Resumed(a, x, p, t.stage.held)])
    else
      SetStage(s, a, Lost).(log := s.log + [Refused(a, x, p)])
  }

  /** `setRunning` writes without a condition; then the winner subscribes for its own parent. */
  function Launch(s: State, a: AttemptId): State
    requires a in s.attempts && s.attempts[a].stage.Won? && s.attempts[a].target in s.rows
  {
    var t := s.attempts[a];
    var s' := s.(rows := s.rows[t.target := s.rows[t.target].(status := Running)]);
    match ParentToRestart(t.stage.started)
    case Some(parent) =>
      SetStage(s', a, Subscribed(parent)).(log := s.log + [Subscription(a, t.target, t.stage.period)])
    case None => SetStage(s', a, Done)
  }

  predicate Ready(s: State, a: AttemptId) {
    a in s.attempts &&
    var t := s.attempts[a];
    match t.stage
    case ReadParent => true
    case WriteParent(_) => true
    case Find => true
    case Throttled(_) => t.target in s.rows && t.target in s.periods
    case Won(_, _) => t.target in s.rows
    case _ => false
  }

  function AdvanceOne(s: State, a: AttemptId): State
    requires Ready(s, a)
  {
    var t := s.attempts[a];
    match t.stage
    case ReadParent => SetStage(s, a, AfterRead(s, t))
    case WriteParent(snapshot) =>
      if t.target in s.rows then
        SetStage(s, a, Find).(rows := s.rows[t.target := s.rows[t.target].(data := snapshot)])
      else SetStage(s, a, Find)
    case Find => SetStage(s, a, AfterFind(s, t))
    case Throttled(_) => Contend(s, a)
    case Won(_, _) => Launch(s, a)
  }

  function NewAttempt(process: ProcessId, target: ExecutionId, kind: Kind): Attempt {
    Attempt(process, target, kind, if kind.Child? then ReadParent else Find)
  }

  /** The engine of a resumed execution only starts after the winner's `setRunning`. */
  ghost predicate EngineRuns(s: State, x: ExecutionId) {
    && x in s.rows && x in s.periods && s.rows[x].status == Running
    && forall a :: a in s.attempts && s.attempts[a].target == x ==> !s.attempts[a].stage.Won?
  }

  ghost predicate Enabled(s: State, e: Event) {
    match e
    case Spawn(a, _, _, _) => a !in s.attempts
    case Advance(a) => Ready(s, a)
    case Wake(w, a, _) => w in s.attempts && s.attempts[w].stage.Subscribed? && a !in s.attempts
    case Suspend(x, _) => EngineRuns(s, x)
    case Settle(x, status, _) => EngineRuns(s, x) && status != Waiting
    case Cancel(x) => x in s.rows && x in s.periods && !s.rows[x].finished
  }

  function Step(s: State, e: Event): State
    requires Enabled(s, e)
  {
    match e
    case Spawn(a, process, target, kind) => s.(attempts := s.attempts[a := NewAttempt(process, target, kind)])
    case Advance(a) => AdvanceOne(s, a)
    case Wake(w, a, run) =>
      var s' := SetStage(s, w, Done);
      if run.None? || run.value.status == Waiting || LastExecutedNodeData(run.value) == Threw then s' else
        var child := NewAttempt(s.attempts[w].process, s.attempts[w].stage.parent, Child(Output(run.value)));
        s'.(attempts := s'.attempts[a := child])
    case Suspend(x, data) =>
      s.(rows := s.rows[x := s.rows[x].(status := Waiting, data := data)], periods := s.periods[x := s.periods[x] + 1])
    case Settle(x, status, data) =>
      s.(rows := s.rows[x := s.rows[x].(status := status, finished := status == Success, data := data)])
    case Cancel(x) =>
      s.(rows := s.rows[x := s.rows[x].(status := Canceled)],
         log := if s.rows[x].status == Waiting then s.log + [Left(x, s.periods[x])] else s.log)
  }

  ghost predicate IsRun(s: State, events: seq<Event>)
    decreases |events|
  {
    events == [] || (Enabled(s, events[0]) && IsRun(Step(s, events[0]), events[1..]))
  }

  ghost function Final(s: State, events: seq<Event>): State
    requires IsRun(s, events)
    decreases |events|
  {
    if events == [] then s else Final(Step(s, events[0]), events[1..])
  }

  /** A start: any rows, nobody trying to resume yet. A row found waiting is in its first period. */
  ghost predicate Start(s: State) {
    && s.attempts == map[] && s.log == [] && s.periods.Keys == s.rows.Keys
    && forall x :: x in s.rows ==> s.periods[x] == if s.rows[x].status == Waiting then 1 else 0
  }

  // ----- What every step keeps -----

  /** The entry ends the waiting period `p` of `x`. */
  predicate Ends(e: Entry, x: ExecutionId, p: nat) {
    (e.Resumed? && e.id == x && e.period == p) || (e.Left? && e.id == x && e.period == p)
  }

  ghost predicate Ended(log: seq<Entry>, x: ExecutionId, p: nat) {
    exists i :: 0 <= i < |log| && Ends(log[i], x, p)
  }

  /** Each period ends at most once. */
  ghost predicate EndsOnce(log: seq<Entry>) {
    forall i, j, x, p :: 0 <= i < j < |log| && Ends(log[i], x, p) ==> !Ends(log[j], x, p)
  }

  /** A refusal in a waiting period comes after the period ended. */
  ghost predicate RefusedAfterEnd(log: seq<Entry>) {
    forall i :: 0 <= i < |log| && log[i].Refused? && log[i].period > 0 ==>
      exists j :: 0 <= j < i && Ends(log[j], log[i].id, log[i].period)
  }

  predicate IsWin(e: Entry, a: AttemptId, x: ExecutionId, p: nat) {
    e.Resumed? && e.winner == a && e.id == x && e.period == p
  }

  ghost predicate HasWon(log: seq<Entry>, a: AttemptId, x: ExecutionId, p: nat) {
    exists i :: 0 <= i < |log| && IsWin(log[i], a, x, p)
  }

  predicate SubscribedBy(e: Entry, a: AttemptId) {
    e.Subscription? && e.subscriber == a
  }

  /** Only a winner subscribes, once. */
  ghost predicate WinnersSubscribe(log: seq<Entry>) {
    && (forall i :: 0 <= i < |log| && log[i].Subscription? ==> HasWon(log, log[i].subscriber, log[i].id, log[i].period))
    && (forall i, j, a :: 0 <= i < j < |log| && SubscribedBy(log[i], a) ==> !SubscribedBy(log[j], a))
  }

  ghost predicate RowsMatchLog(s: State) {
    && s.periods.Keys == s.rows.Keys
    && (forall i, x, p :: 0 <= i < |s.log| && Ends(s.log[i], x, p) ==> x in s.periods && p <= s.periods[x])
    && (forall x :: x in s.rows ==>
      (s.rows[x].status == Waiting ==> s.periods[x] > 0 && !Ended(s.log, x, s.periods[x])))
    && (forall x :: x in s.rows && s.periods[x] > 0 ==> (s.rows[x].status == Waiting || Ended(s.log, x, s.periods[x])))
  }

  predicate WonBy(e: Entry, a: AttemptId) {
    e.Resumed? && e.winner == a
  }

  predicate AfterWin(stage: Stage) {
    stage.Won? || stage.Subscribed? || stage.Done?
  }

  predicate Launched(stage: Stage) {
    stage.Subscribed? || stage.Done?
  }

  predicate BringsOutput(t: Attempt) {
    t.kind.Child? && t.kind.output.Some?
  }

  /** Between its win and its launch an attempt is the winner of the current period. */
  ghost predicate WonHolds(s: State, a: AttemptId)
    requires a in s.attempts
  {
    s.attempts[a].stage.Won? ==>
      var x := s.attempts[a].target;
      && x in s.rows && x in s.periods && s.rows[x].status != Waiting
      && s.attempts[a].stage.period == s.periods[x] && HasWon(s.log, a, x, s.periods[x])
  }

  /** The entries about winners and subscribers agree with how far those attempts have come. */
  ghost predicate EntryHolds(s: State, e: Entry) {
    && (e.Resumed? ==>
          && e.winner in s.attempts && AfterWin(s.attempts[e.winner].stage)
          && s.attempts[e.winner].target == e.id)
    && (e.Subscription? ==> e.subscriber in s.attempts && Launched(s.attempts[e.subscriber].stage))
  }

  ghost predicate LogInv(log: seq<Entry>) {
    EndsOnce(log) && RefusedAfterEnd(log) && WinnersSubscribe(log)
  }

  ghost predicate EntriesHold(s: State) {
    forall i :: 0 <= i < |s.log| ==> EntryHolds(s, s.log[i])
  }

  ghost predicate AttemptsHold(s: State) {
    && (forall a :: a in s.attempts ==> WonHolds(s, a))
    && (forall a :: a in s.attempts && s.attempts[a].stage.WriteParent? ==> BringsOutput(s.attempts[a]))
  }

  ghost predicate Inv(s: State) {
    LogInv(s.log) && RowsMatchLog(s) && EntriesHold(s) && AttemptsHold(s)
  }

  lemma StartInv(s: State)
    requires Start(s)
    ensures Inv(s)
  {
  }

  lemma AppendEntry(log: seq<Entry>, e: Entry)
    requires LogInv(log)
    requires forall x, p :: Ends(e, x, p) ==> !Ended(log, x, p)
    requires e.Refused? && e.period > 0 ==> Ended(log, e.id, e.period)
    requires e.Subscription? ==> HasWon(log, e.subscriber, e.id, e.period)
    requires e.Subscription? ==> forall i :: 0 <= i < |log| ==> !SubscribedBy(log[i], e.subscriber)
    ensures LogInv(log + [e])
  {
    AppendEnds(log, e);
    AppendRefusal(log, e);
    AppendSubscription(log, e);
  }

  lemma AppendEnds(log: seq<Entry>, e: Entry)
    requires EndsOnce(log) && forall x, p :: Ends(e, x, p) ==> !Ended(log, x, p)
    ensures EndsOnce(log + [e])
  {
    var log' := log + [e];
    assert forall i :: 0 <= i < |log| ==> log'[i] == log[i];
  }

  lemma AppendRefusal(log: seq<Entry>, e: Entry)
    requires RefusedAfterEnd(log) && (e.Refused? && e.period > 0 ==> Ended(log, e.id, e.period))
    ensures RefusedAfterEnd(log + [e])
  {
    var log' := log + [e];
    forall i | 0 <= i < |log'| && log'[i].Refused? && log'[i].period > 0
      ensures exists j :: 0 <= j < i && Ends(log'[j], log'[i].id, log'[i].period)
    {
      var j :| 0 <= j < i && Ends(log[j], log'[i].id, log'[i].period);
      assert log'[j] == log[j];
    }
  }

  lemma AppendSubscription(log: seq<Entry>, e: Entry)
    requires WinnersSubscribe(log)
    requires e.Subscription? ==> HasWon(log, e.subscriber, e.id, e.period)
    requires e.Subscription? ==> forall i :: 0 <= i < |log| ==> !SubscribedBy(log[i], e.subscriber)
    ensures WinnersSubscribe(log + [e])
  {
    EndedAppend(log, e);
    var log' := log + [e];
    assert forall i :: 0 <= i < |log| ==> log'[i] == log[i];
  }

  lemma EndedAppend(log: seq<Entry>, e: Entry)
    ensures forall x, p :: Ended(log + [e], x, p) <==> Ended(log, x, p) || Ends(e, x, p)
    ensures forall a, x, p :: HasWon(log + [e], a, x, p) <==> HasWon(log, a, x, p) || IsWin(e, a, x, p)
  {
    var log' := log + [e];
    assert forall i :: 0 <= i < |log| ==> log'[i] == log[i];
    assert log'[|log|] == e;
    forall x, p ensures Ended(log', x, p) <==> Ended(log, x, p) || Ends(e, x, p) {
      if Ended(log, x, p) {
        var i :| 0 <= i < |log| && Ends(log[i], x, p);
        assert Ends(log'[i], x, p);
      }
    }
    forall a, x, p ensures HasWon(log', a, x, p) <==> HasWon(log, a, x, p) || IsWin(e, a, x, p) {
      if HasWon(log, a, x, p) {
        var i :| 0 <= i < |log| && IsWin(log[i], a, x, p);
        assert IsWin(log'[i], a, x, p);
      }
    }
  }

  /** Rows that keep their status, and an entry, if any, that ends nothing. */
  lemma RowsKept(s: State, s': State)
    requires RowsMatchLog(s) && s'.periods == s.periods && s'.rows.Keys == s.rows.Keys
    requires forall x :: x in s.rows ==> (s'.rows[x].status == Waiting <==> s.rows[x].status == Waiting)
    requires s'.log == s.log || exists e: Entry :: s'.log == s.log + [e] && !e.Resumed? && !e.Left?
    ensures RowsMatchLog(s')
  {
    if s'.log != s.log {
      var e: Entry :| s'.log == s.log + [e] && !e.Resumed? && !e.Left?;
      EndedAppend(s.log, e);
      assert forall i :: 0 <= i < |s.log| ==> s'.log[i] == s.log[i];
    }
  }

  /** A row that leaves status waiting with the entry that ends its period. */
  lemma RowLeaves(s: State, s': State, x: ExecutionId, e: Entry)
    requires RowsMatchLog(s) && x in s.rows && s.rows[x].status == Waiting
    requires (e.Resumed? || e.Left?) && Ends(e, x, s.periods[x])
    requires s'.log == s.log + [e] && s'.periods == s.periods && s'.rows.Keys == s.rows.Keys
    requires s'.rows[x].status != Waiting && forall y :: y in s.rows && y != x ==> s'.rows[y] == s.rows[y]
    ensures RowsMatchLog(s')
  {
    EndedAppend(s.log, e);
    forall i, y, p | 0 <= i < |s'.log| && Ends(s'.log[i], y, p)
      ensures y in s'.periods && p <= s'.periods[y]
    {
      assert i < |s.log| ==> s'.log[i] == s.log[i];
    }
  }

  /** Attempts only move forward. */
  ghost predicate Forward(s: State, s': State) {
    forall a :: a in s.attempts ==>
      && a in s'.attempts && s'.attempts[a].target == s.attempts[a].target && s'.attempts[a].kind == s.attempts[a].kind
      && (AfterWin(s.attempts[a].stage) ==> AfterWin(s'.attempts[a].stage))
      && (Launched(s.attempts[a].stage) ==> Launched(s'.attempts[a].stage))
  }

  lemma EntriesKept(s: State, s': State)
    requires EntriesHold(s) && Forward(s, s')
    requires s'.log == s.log || exists e :: s'.log == s.log + [e] && EntryHolds(s', e)
    ensures EntriesHold(s')
  {
  }

  /** The history goes on, and no row goes back to waiting. */
  ghost predicate Extends(s: State, s': State) {
    && s'.periods == s.periods && s'.rows.Keys == s.rows.Keys
    && (forall x :: x in s.rows && s.rows[x].status != Waiting ==> s'.rows[x].status != Waiting)
    && (s'.log == s.log || exists e: Entry :: s'.log == s.log + [e])
  }

  lemma WonKept(s: State, s': State, b: AttemptId)
    requires Extends(s, s') && b in s.attempts && b in s'.attempts && s'.attempts[b] == s.attempts[b] && WonHolds(s, b)
    ensures WonHolds(s', b)
  {
    if s.attempts[b].stage.Won? && s'.log != s.log {
      var e: Entry :| s'.log == s.log + [e];
      EndedAppend(s.log, e);
    }
  }

  /** One attempt has moved, to a stage in which it promises nothing or what it promises holds. */
  lemma OneMoved(s: State, s': State, a: AttemptId)
    requires AttemptsHold(s) && Extends(s, s') && a in s.attempts && s'.attempts.Keys == s.attempts.Keys
    requires forall b :: b in s.attempts && b != a ==> s'.attempts[b] == s.attempts[b]
    requires WonHolds(s', a) && (s'.attempts[a].stage.WriteParent? ==> BringsOutput(s'.attempts[a]))
    ensures AttemptsHold(s')
  {
    forall b | b in s'.attempts ensures WonHolds(s', b) {
      if b != a {
        WonKept(s, s', b);
      }
    }
  }

  lemma WinKeeps(s: State, a: AttemptId)
    requires Inv(s) && Ready(s, a) && s.attempts[a].stage.Throttled? && s.rows[s.attempts[a].target].status == Waiting
    ensures Inv(Contend(s, a))
  {
    var t, s' := s.attempts[a], Contend(s, a);
    var x, p := t.target, s.periods[t.target];
    var e := Resumed(a, x, p, t.stage.held);
    AppendEntry(s.log, e);
    EntriesKept(s, s');
    RowLeaves(s, s', x, e);
    assert IsWin(s'.log[|s.log|], a, x, p);
    OneMoved(s, s', a);
  }

  lemma RefusalKeeps(s: State, a: AttemptId)
    requires Inv(s) && Ready(s, a) && s.attempts[a].stage.Throttled? && s.rows[s.attempts[a].target].status != Waiting
    ensures Inv(Contend(s, a))
  {
    var t, s' := s.attempts[a], Contend(s, a);
    var e := Refused(a, t.target, s.periods[t.target]);
    AppendEntry(s.log, e);
    EntriesKept(s, s');
    RowsKept(s, s');
    OneMoved(s, s', a);
  }

  lemma SubscriptionFits(s: State, a: AttemptId)
    requires Inv(s) && a in s.attempts && s.attempts[a].stage.Won?
    ensures LogInv(s.log + [Subscription(a, s.attempts[a].target, s.attempts[a].stage.period)])
  {
    assert WonHolds(s, a);
    forall i | 0 <= i < |s.log| ensures !SubscribedBy(s.log[i], a) {
      assert EntryHolds(s, s.log[i]);
    }
    AppendEntry(s.log, Subscription(a, s.attempts[a].target, s.attempts[a].stage.period));
  }

  lemma LaunchKeeps(s: State, a: AttemptId)
    requires Inv(s) && Ready(s, a) && s.attempts[a].stage.Won?
    ensures Inv(Launch(s, a))
  {
    var s' := Launch(s, a);
    assert WonHolds(s, a);
    SubscriptionFits(s, a);
    if s'.log != s.log {
      var e := Subscription(a, s.attempts[a].target, s.attempts[a].stage.period);
      assert s'.log == s.log + [e] && EntryHolds(s', e);
    }
    RowsKept(s, s');
    EntriesKept(s, s');
    OneMoved(s, s', a);
  }

  lemma CancelKeeps(s: State, x: ExecutionId)
    requires Inv(s) && Enabled(s, Cancel(x))
    ensures Inv(Step(s, Cancel(x)))
  {
    var s' := Step(s, Cancel(x));
    if s.rows[x].status == Waiting {
      var e := Left(x, s.periods[x]);
      AppendEntry(s.log, e);
      EndedAppend(s.log, e);
      RowLeaves(s, s', x, e);
    } else {
      RowsKept(s, s');
    }
    EntriesKept(s, s');
    forall b | b in s'.attempts ensures WonHolds(s', b) {
      assert WonHolds(s, b);
    }
  }

  lemma SuspendKeeps(s: State, x: ExecutionId, data: Saved)
    requires Inv(s) && Enabled(s, Suspend(x, data))
    ensures Inv(Step(s, Suspend(x, data)))
  {
  }

  /** The steps that neither log anything nor change whether a row waits. */
  lemma QuietKeeps(s: State, s': State)
    requires Inv(s) && Forward(s, s') && s'.log == s.log && s'.periods == s.periods && s'.rows.Keys == s.rows.Keys
    requires forall x :: x in s.rows ==> (s'.rows[x].status == Waiting <==> s.rows[x].status == Waiting)
    requires forall a :: a in s'.attempts && s'.attempts[a].stage.Won? ==>
      a in s.attempts && s'.attempts[a] == s.attempts[a]
    requires forall a :: a in s'.attempts && s'.attempts[a].stage.WriteParent? ==> BringsOutput(s'.attempts[a])
    ensures Inv(s')
  {
    RowsKept(s, s');
    EntriesKept(s, s');
    forall b | b in s'.attempts ensures WonHolds(s', b) {
      assert b in s.attempts ==> WonHolds(s, b);
    }
  }

  /** An attempt that has not won moves on to a stage that promises nothing but, perhaps, its own output. */
  lemma MoveKeeps(s: State, a: AttemptId, stage: Stage)
    requires Inv(s) && a in s.attempts && !AfterWin(s.attempts[a].stage) && !stage.Won?
    requires stage.WriteParent? ==> BringsOutput(s.attempts[a])
    ensures Inv(SetStage(s, a, stage))
  {
    var s' := SetStage(s, a, stage);
    RowsKept(s, s');
    EntriesKept(s, s');
    OneMoved(s, s', a);
  }

  lemma WriteKeeps(s: State, x: ExecutionId, data: Saved)
    requires Inv(s) && x in s.rows
    ensures Inv(s.(rows := s.rows[x := s.rows[x].(data := data)]))
  {
    var s' := s.(rows := s.rows[x := s.rows[x].(data := data)]);
    QuietKeeps(s, s');
  }

  lemma QuietAdvanceKeeps(s: State, a: AttemptId)
    requires Inv(s) && Ready(s, a) && !s.attempts[a].stage.Throttled? && !s.attempts[a].stage.Won?
    ensures Inv(AdvanceOne(s, a))
  {
    var t := s.attempts[a];
    match t.stage
    case ReadParent => MoveKeeps(s, a, AfterRead(s, t));
    case WriteParent(snapshot) =>
      MoveKeeps(s, a, Find);
      if t.target in s.rows {
        WriteKeeps(SetStage(s, a, Find), t.target, snapshot);
      }
    case Find => MoveKeeps(s, a, AfterFind(s, t));
  }

  lemma SpawnKeeps(s: State, a: AttemptId, process: ProcessId, x: ExecutionId, kind: Kind)
    requires Inv(s) && Enabled(s, Spawn(a, process, x, kind))
    ensures Inv(Step(s, Spawn(a, process, x, kind)))
  {
  }

  lemma SubscriberDone(s: State, w: AttemptId)
    requires Inv(s) && w in s.attempts && s.attempts[w].stage.Subscribed?
    ensures Inv(SetStage(s, w, Done))
  {
    QuietKeeps(s, SetStage(s, w, Done));
  }

  lemma NewAttemptKeeps(s: State, a: AttemptId, t: Attempt)
    requires Inv(s) && a !in s.attempts && (t.stage.ReadParent? || t.stage.Find?)
    ensures Inv(s.(attempts := s.attempts[a := t]))
  {
    QuietKeeps(s, s.(attempts := s.attempts[a := t]));
  }

  lemma WakeKeeps(s: State, w: AttemptId, a: AttemptId, run: Option<Run>)
    requires Inv(s) && Enabled(s, Wake(w, a, run))
    ensures Inv(Step(s, Wake(w, a, run)))
  {
    SubscriberDone(s, w);
    var s' := SetStage(s, w, Done);
    if Step(s, Wake(w, a, run)) != s' {
      var t := s.attempts[w];
      NewAttemptKeeps(s', a, NewAttempt(t.process, t.stage.parent, Child(Output(run.value))));
    }
  }

  lemma SettleKeeps(s: State, x: ExecutionId, status: Status, data: Saved)
    requires Inv(s) && Enabled(s, Settle(x, status, data))
    ensures Inv(Step(s, Settle(x, status, data)))
  {
  }

  lemma StepKeeps(s: State, e: Event)
    requires Inv(s) && Enabled(s, e)
    ensures Inv(Step(s, e))
  {
    match e
    case Spawn(a, process, x, kind) => SpawnKeeps(s, a, process, x, kind);
    case Advance(a) =>
      if s.attempts[a].stage.Throttled? {
        if s.rows[s.attempts[a].target].status == Waiting {
          WinKeeps(s, a);
        } else {
          RefusalKeeps(s, a);
        }
      } else if s.attempts[a].stage.Won? {
        LaunchKeeps(s, a);
      } else {
        QuietAdvanceKeeps(s, a);
      }
    case Wake(w, a, run) => WakeKeeps(s, w, a, run);
    case Suspend(x, data) => SuspendKeeps(s, x, data);
    case Settle(x, status, data) => SettleKeeps(s, x, status, data);
    case Cancel(x) => CancelKeeps(s, x);
  }

  lemma {:induction false} RunKeeps(s: State, events: seq<Event>)
    requires Inv(s) && IsRun(s, events)
    ensures Inv(Final(s, events))
    decreases |events|
  {
    if events != [] {
      StepKeeps(s, events[0]);
      RunKeeps(Step(s, events[0]), events[1..]);
    }
  }

  // ----- Each period is resumed at most once -----

  /** In every run: one resume and one subscription at most for each waiting period of a row. */
  lemma ResumedOncePerPeriod(s: State, events: seq<Event>, i: nat, j: nat)
    requires Start(s) && IsRun(s, events)
    requires i < j < |Final(s, events).log|
    ensures var log := Final(s, events).log;
      log[i].Resumed? && log[j].Resumed? && log[i].id == log[j].id ==> log[i].period != log[j].period
    ensures var log := Final(s, events).log;
      log[i].Subscription? && log[j].Subscription? && log[i].id == log[j].id ==> log[i].period != log[j].period
  {
    StartInv(s);
    RunKeeps(s, events);
    var log := Final(s, events).log;
    if log[i].id == log[j].id && log[i].period == log[j].period {
      OncePerPeriod(log, i, j);
    }
  }

  lemma OncePerPeriod(log: seq<Entry>, i: nat, j: nat)
    requires LogInv(log) && i < j < |log| && log[i].id == log[j].id && log[i].period == log[j].period
    ensures !(log[i].Resumed? && log[j].Resumed?) && !(log[i].Subscription? && log[j].Subscription?)
  {
    if log[i].Resumed? {
      assert Ends(log[i], log[i].id, log[i].period);
    }
    if log[i].Subscription? && log[j].Subscription? {
      OneWinner(log, log[i].subscriber, log[j].subscriber, log[i].id, log[i].period);
      assert SubscribedBy(log[i], log[i].subscriber);
    }
  }

  lemma OneWinner(log: seq<Entry>, a: AttemptId, b: AttemptId, x: ExecutionId, p: nat)
    requires EndsOnce(log) && HasWon(log, a, x, p) && HasWon(log, b, x, p)
    ensures a == b
  {
    var i :| 0 <= i < |log| && IsWin(log[i], a, x, p);
    var j :| 0 <= j < |log| && IsWin(log[j], b, x, p);
    assert Ends(log[i], x, p) && Ends(log[j], x, p);
  }

  /**
   Whoever is refused in a waiting period lost to an end of that period. Unless the row was
   canceled, that end is exactly one resume, by somebody else.
   */
  lemma RefusedLostToOneWinner(s: State, events: seq<Event>, k: nat) returns (i: nat)
    requires Start(s) && IsRun(s, events) && k < |Final(s, events).log|
    requires Final(s, events).log[k].Refused? && Final(s, events).log[k].period > 0
    ensures var log := Final(s, events).log; var x, p := log[k].id, log[k].period;
      && i < k && Ends(log[i], x, p)
      && (forall j :: 0 <= j < |log| && Ends(log[j], x, p) ==> j == i)
      && (!(exists j :: 0 <= j < |log| && log[j] == Left(x, p)) ==> log[i].Resumed?)
  {
    StartInv(s);
    RunKeeps(s, events);
    var log := Final(s, events).log;
    i :| 0 <= i < k && Ends(log[i], log[k].id, log[k].period);
  }

  /** A row is waiting exactly while its current period has not ended; then whoever contends wins. */
  lemma FirstToContendWins(s: State, events: seq<Event>, a: AttemptId)
    requires Start(s) && IsRun(s, events)
    requires Ready(Final(s, events), a) && Final(s, events).attempts[a].stage.Throttled?
    ensures var f := Final(s, events); var x := f.attempts[a].target; var p := f.periods[x];
      && (p > 0 && !Ended(f.log, x, p) <==> f.rows[x].status == Waiting)
      && (AdvanceOne(f, a).attempts[a].stage.Won? <==> f.rows[x].status == Waiting)
      && (AdvanceOne(f, a).attempts[a].stage.Lost? <==> f.rows[x].status != Waiting)
  {
    StartInv(s);
    RunKeeps(s, events);
  }

  /** No step of an attempt other than its win and its launch touches a status, a table or a subscription. */
  lemma OnlyWinnersAct(s: State, a: AttemptId)
    requires Inv(s) && Ready(s, a)
    ensures var t := s.attempts[a]; var s' := AdvanceOne(s, a);
      && (!(t.stage.Throttled? && s.rows[t.target].status == Waiting) && !t.stage.Won? ==>
          && s'.active == s.active && s'.rows.Keys == s.rows.Keys
          && (forall x :: x in s.rows ==> s'.rows[x].(data := s.rows[x].data) == s.rows[x])
          && (!t.stage.WriteParent? ==> s'.rows == s.rows)
          && (s'.log == s.log || exists p :: s'.log == s.log + [Refused(a, t.target, p)]))
      && (t.stage.Won? ==> s.rows[t.target].status != Waiting && s'.rows[t.target].status == Running)
      && (s'.attempts[a].stage.Lost? || s'.attempts[a].stage.Rejected? ==> !Ready(s', a))
  {
  }

  /** At the end of any run: an attempt that lost has won nothing and subscribed to nothing. */
  lemma LosersNeverSubscribe(s: State, events: seq<Event>, a: AttemptId)
    requires Start(s) && IsRun(s, events)
    requires a in Final(s, events).attempts && !AfterWin(Final(s, events).attempts[a].stage)
    ensures forall i :: 0 <= i < |Final(s, events).log| ==>
      !WonBy(Final(s, events).log[i], a) && !SubscribedBy(Final(s, events).log[i], a)
  {
    StartInv(s);
    RunKeeps(s, events);
    var f := Final(s, events);
    forall i | 0 <= i < |f.log| ensures !WonBy(f.log[i], a) && !SubscribedBy(f.log[i], a) {
      assert EntryHolds(f, f.log[i]);
    }
  }

  /** The tables hold what they held at the start and the winners' executions. */
  lemma {:induction false} TablesHoldWinners(s: State, events: seq<Event>, entry: (ProcessId, ExecutionId))
    requires Inv(s) && IsRun(s, events) && entry in Final(s, events).active && entry !in s.active
    ensures exists i :: 0 <= i < |Final(s, events).log| && IsResumeIn(Final(s, events), i, entry)
    decreases |events|
  {
    if events != [] {
      var s' := Step(s, events[0]);
      StepKeeps(s, events[0]);
      if entry in s'.active {
        assert IsResumeIn(s', |s.log|, entry);
        ResumePersists(s', events[1..], |s.log|, entry);
      } else {
        TablesHoldWinners(s', events[1..], entry);
      }
    }
  }

  predicate IsResumeIn(s: State, i: nat, entry: (ProcessId, ExecutionId))
    requires i < |s.log|
  {
    s.log[i].Resumed? && s.log[i].id == entry.1 && s.log[i].winner in s.attempts
      && s.attempts[s.log[i].winner].process == entry.0
  }

  lemma {:induction false} ResumePersists(s: State, events: seq<Event>, i: nat, entry: (ProcessId, ExecutionId))
    requires IsRun(s, events) && i < |s.log| && IsResumeIn(s, i, entry)
    ensures i < |Final(s, events).log| && IsResumeIn(Final(s, events), i, entry)
    decreases |events|
  {
    if events != [] {
      var s' := Step(s, events[0]);
      assert |s.log| <= |s'.log| && s'.log[i] == s.log[i];
      ResumePersists(s', events[1..], i, entry);
    }
  }

  // ----- What each step of an attempt does, case by case -----

  /** Nothing but the stage of one attempt has changed. */
  ghost predicate OnlyMoved(s: State, s': State, a: AttemptId, stage: Stage) {
    && a in s.attempts
    && s'.attempts == s.attempts[a := s.attempts[a].(stage := stage)]
    && s'.rows == s.rows && s'.periods == s.periods && s'.active == s.active && s'.log == s.log
  }

  /** Only a child with output, whose parent is waiting with something on its stack, goes on to write. */
  lemma ReadMeans(s: State, a: AttemptId)
    requires Ready(s, a) && s.attempts[a].stage.ReadParent?
    ensures var t, s' := s.attempts[a], AdvanceOne(s, a);
      if t.kind.Child? && t.kind.output.Some? && t.target in s.rows && s.rows[t.target].status == Waiting
         && s.rows[t.target].data.stack.Some? && s.rows[t.target].data.stack.value != []
      then
        var d := s.rows[t.target].data; var head := StackItem(d.stack.value[0].node, t.kind.output.value);
        OnlyMoved(s, s', a, WriteParent(Saved(Some([head] + d.stack.value[1..]), d.parent, d.rest)))
      else OnlyMoved(s, s', a, Find)
  {
  }

  /** The write touches the data of the parent's row and nothing else, whatever the row's status is by then. */
  lemma WriteMeans(s: State, a: AttemptId)
    requires Ready(s, a) && s.attempts[a].stage.WriteParent?
    ensures var t, s' := s.attempts[a], AdvanceOne(s, a);
      && OnlyMoved(s.(rows := s'.rows), s', a, Find) && s'.rows.Keys == s.rows.Keys
      && (forall x :: x in s.rows && x != t.target ==> s'.rows[x] == s.rows[x])
      && (t.target in s.rows ==> s'.rows[t.target] == s.rows[t.target].(data := t.stage.snapshot))
  {
  }

  /** A missing, finished or unsaved execution is rejected; any other is taken on with its saved data. */
  lemma FindMeans(s: State, a: AttemptId)
    requires Ready(s, a) && s.attempts[a].stage.Find?
    ensures var t, s' := s.attempts[a], AdvanceOne(s, a);
      if t.target in s.rows && !s.rows[t.target].finished && s.rows[t.target].saved
      then OnlyMoved(s, s', a, Throttled(s.rows[t.target].data))
      else OnlyMoved(s, s', a, Rejected)
  {
  }

  /**
   A win sets the row running with the data held, and enters the execution in the winner's table. A loss
   only logs.
   */
  lemma ContendMeans(s: State, a: AttemptId)
    requires Ready(s, a) && s.attempts[a].stage.Throttled?
    ensures var t, s' := s.attempts[a], AdvanceOne(s, a); var x := t.target;
      if s.rows[x].status == Waiting then
        && s'.rows == s.rows[x := Row(Running, s.rows[x].finished, s.rows[x].saved, t.stage.held)]
        && s'.active == s.active + {(t.process, x)} && s'.periods == s.periods
        && s'.attempts == s.attempts[a := t.(stage := Won(s.periods[x], t.stage.held))]
        && s'.log == s.log + [Resumed(a, x, s.periods[x], t.stage.held)]
      else OnlyMoved(s.(log := s.log + [Refused(a, x, s.periods[x])]), s', a, Lost)
  {
  }

  /**
   What happens to a row from outside: it suspends into a new period, settles, or is canceled, which ends
   its wait.
   */
  lemma OutsideMeans(s: State, e: Event, x: ExecutionId)
    requires Enabled(s, e) && (e.Suspend? || e.Settle? || e.Cancel?) && e.id == x
    ensures var s' := Step(s, e); var row := s.rows[x];
      && s'.attempts == s.attempts && s'.active == s.active
      && match e
         case Suspend(_, data) =>
           && s'.rows == s.rows[x := Row(Waiting, row.finished, row.saved, data)]
           && s'.periods == s.periods[x := s.periods[x] + 1] && s'.log == s.log
         case Settle(_, status, data) =>
           && s'.rows == s.rows[x := Row(status, status == Success, row.saved, data)]
           && s'.periods == s.periods && s'.log == s.log
         case _ =>
           && s'.rows == s.rows[x := Row(Canceled, row.finished, row.saved, row.data)] && s'.periods == s.periods
           && s'.log == s.log + if row.status == Waiting then [Left(x, s.periods[x])] else []
  {
  }

  /** A child starts by reading its parent, anybody else by looking for the execution. */
  lemma SpawnMeans(s: State, a: AttemptId, process: ProcessId, x: ExecutionId, kind: Kind)
    requires Enabled(s, Spawn(a, process, x, kind))
    ensures var s' := Step(s, Spawn(a, process, x, kind));
      && s' == s.(attempts := s'.attempts)
      && (kind.Timer? ==> s'.attempts == s.attempts[a := Attempt(process, x, kind, Find)])
      && (kind.Child? ==> s'.attempts == s.attempts[a := Attempt(process, x, kind, ReadParent)])
  {
  }

  // ----- Whom a winner wakes -----

  /** The data name this execution as the parent to wake up: there is one, and it is not said to be left alone. */
  predicate Names(d: Saved, parent: ExecutionId) {
    d.parent.Some? && d.parent.value.executionId == parent && d.parent.value.shouldResume != Some(false)
  }

  /** A winner sets its row running and subscribes for the parent that its data name, once, or for nobody. */
  lemma LaunchMeans(s: State, a: AttemptId)
    requires Ready(s, a) && s.attempts[a].stage.Won?
    ensures var t, s' := s.attempts[a], AdvanceOne(s, a); var d := t.stage.started;
      && s'.rows == s.rows[t.target := s.rows[t.target].(status := Running)]
      && s'.active == s.active && s'.periods == s.periods
      && (forall parent :: Names(d, parent) ==>
            && s'.attempts == s.attempts[a := t.(stage := Subscribed(parent))]
            && s'.log == s.log + [Subscription(a, t.target, t.stage.period)])
      && ((forall parent :: !Names(d, parent)) ==>
            s'.attempts == s.attempts[a := t.(stage := Done)] && s'.log == s.log)
  {
    var d := s.attempts[a].stage.started;
    if d.parent.Some? && d.parent.value.shouldResume != Some(false) {
      assert Names(d, d.parent.value.executionId);
    }
  }

  /** A run that completed wakes the parent with one child attempt carrying its output; any other wakes nobody. */
  lemma WakeMeans(s: State, w: AttemptId, a: AttemptId, run: Option<Run>)
    requires Enabled(s, Wake(w, a, run))
    ensures var t, s' := s.attempts[w], Step(s, Wake(w, a, run)); var done := t.(stage := Done);
      && s'.rows == s.rows && s'.periods == s.periods && s'.active == s.active && s'.log == s.log
      && (match run
          case None => s'.attempts == s.attempts[w := done]
          case Some(r) =>
            if r.status == Waiting || Throws(r) then s'.attempts == s.attempts[w := done]
            else exists out ::
              && Offers(r, out)
              && s'.attempts == s.attempts[w := done][a := Attempt(t.process, t.stage.parent, Child(out), ReadParent)])
  {
    if run.Some? {
      OutputMeans(run.value);
      assert Offers(run.value, Output(run.value));
    }
  }

  predicate WonWith(e: Entry, a: AttemptId, x: ExecutionId, d: Saved) {
    e.Resumed? && e.winner == a && e.id == x && e.data == d
  }

  ghost predicate HasWonWith(log: seq<Entry>, a: AttemptId, x: ExecutionId, d: Saved) {
    exists i :: 0 <= i < |log| && WonWith(log[i], a, x, d)
  }

  /** Winners and subscribers hold what the log says they won with. */
  ghost predicate Traced(s: State, a: AttemptId)
    requires a in s.attempts
  {
    match s.attempts[a].stage
    case Won(_, started) => HasWonWith(s.log, a, s.attempts[a].target, started)
    case Subscribed(parent) => exists d :: HasWonWith(s.log, a, s.attempts[a].target, d) && Names(d, parent)
    case _ => true
  }

  ghost predicate WinsOnce(log: seq<Entry>) {
    forall i, j :: 0 <= i < j < |log| && log[i].Resumed? && log[j].Resumed? ==> log[i].winner != log[j].winner
  }

  ghost predicate Cascade(s: State) {
    WinsOnce(s.log) && forall a :: a in s.attempts ==> Traced(s, a)
  }

  lemma TracedKept(s: State, s': State, a: AttemptId)
    requires a in s.attempts && a in s'.attempts && s'.attempts[a] == s.attempts[a] && Traced(s, a)
    requires s'.log == s.log || exists e: Entry :: s'.log == s.log + [e]
    ensures Traced(s', a)
  {
    forall d | HasWonWith(s.log, a, s.attempts[a].target, d) ensures HasWonWith(s'.log, a, s.attempts[a].target, d) {
      var i :| 0 <= i < |s.log| && WonWith(s.log[i], a, s.attempts[a].target, d);
      assert s'.log[i] == s.log[i];
    }
  }

  lemma MoverTraced(s: State, a: AttemptId)
    requires Ready(s, a) && Traced(s, a)
    ensures Traced(AdvanceOne(s, a), a)
  {
    var t, s' := s.attempts[a], AdvanceOne(s, a);
    match t.stage
    case Throttled(held) =>
      if s.rows[t.target].status == Waiting {
        assert WonWith(s'.log[|s.log|], a, t.target, held);
      }
    case Won(_, started) =>
      LaunchMeans(s, a);
      var i :| 0 <= i < |s.log| && WonWith(s.log[i], a, t.target, started);
      assert s'.log[i] == s.log[i];
      assert HasWonWith(s'.log, a, t.target, started);
    case _ =>
  }

  lemma LogGrows(s: State, e: Event)
    requires Enabled(s, e)
    ensures Step(s, e).log == s.log || exists entry: Entry :: Step(s, e).log == s.log + [entry]
    ensures Step(s, e).log != s.log && Step(s, e).log[|s.log|].Resumed? ==>
      e.Advance? && s.attempts[e.a].stage.Throttled? && Step(s, e).log[|s.log|].winner == e.a
  {
    match e
    case Advance(a) =>
      if s.attempts[a].stage.Won? {
        LaunchMeans(s, a);
      }
    case _ =>
  }

  lemma WinsOnceStep(s: State, e: Event)
    requires Inv(s) && WinsOnce(s.log) && Enabled(s, e)
    ensures WinsOnce(Step(s, e).log)
  {
    var log := Step(s, e).log;
    LogGrows(s, e);
    forall i, j | 0 <= i < j < |log| && log[i].Resumed? && log[j].Resumed? ensures log[i].winner != log[j].winner {
      assert log[i] == s.log[i];
      if j < |s.log| {
        assert log[j] == s.log[j];
      } else {
        assert EntryHolds(s, s.log[i]);
      }
    }
  }

  lemma CascadeStep(s: State, e: Event)
    requires Inv(s) && Cascade(s) && Enabled(s, e)
    ensures Cascade(Step(s, e))
  {
    var s' := Step(s, e);
    WinsOnceStep(s, e);
    LogGrows(s, e);
    forall b | b in s'.attempts ensures Traced(s', b) {
      if e.Advance? && b == e.a {
        MoverTraced(s, b);
      } else if b in s.attempts && s'.attempts[b] == s.attempts[b] {
        TracedKept(s, s', b);
      }
    }
  }

  /**
   The attempt that a wake-up adds targets the parent named by the data that the subscriber won with, its
   only win.
   */
  ghost predicate WakesNamed(s: State, w: AttemptId, a: AttemptId, run: Option<Run>)
    requires Enabled(s, Wake(w, a, run))
  {
    exists i :: 0 <= i < |s.log|
      && s.log[i].Resumed? && s.log[i].winner == w && s.log[i].id == s.attempts[w].target
      && (forall j :: 0 <= j < |s.log| && s.log[j].Resumed? && s.log[j].winner == w ==> j == i)
      && s.log[i].data.parent.Some? && s.log[i].data.parent.value.shouldResume != Some(false)
      && (a in Step(s, Wake(w, a, run)).attempts ==>
            Step(s, Wake(w, a, run)).attempts[a].target == s.log[i].data.parent.value.executionId)
  }

  lemma CascadeNames(s: State, w: AttemptId, a: AttemptId, run: Option<Run>)
    requires Cascade(s) && Enabled(s, Wake(w, a, run))
    ensures WakesNamed(s, w, a, run)
  {
    WakeMeans(s, w, a, run);
    assert Traced(s, w);
    var parent := s.attempts[w].stage.parent;
    var d :| HasWonWith(s.log, w, s.attempts[w].target, d) && Names(d, parent);
    var i :| 0 <= i < |s.log| && WonWith(s.log[i], w, s.attempts[w].target, d);
    assert s.log[i].winner == w;
  }

  ghost predicate AlwaysNamed(s: State, events: seq<Event>)
    requires IsRun(s, events)
    decreases |events|
  {
    events != [] ==>
      && (events[0].Wake? ==> WakesNamed(s, events[0].w, events[0].a, events[0].run))
      && AlwaysNamed(Step(s, events[0]), events[1..])
  }

  lemma {:induction false} CascadeRuns(s: State, events: seq<Event>)
    requires Inv(s) && Cascade(s) && IsRun(s, events)
    ensures AlwaysNamed(s, events)
    decreases |events|
  {
    if events != [] {
      var e := events[0];
      if e.Wake? {
        CascadeNames(s, e.w, e.a, e.run);
      }
      StepKeeps(s, e);
      CascadeStep(s, e);
      CascadeRuns(Step(s, e), events[1..]);
    }
  }

  /** In every run from a start, whoever is woken is the parent named in the data that the waker resumed with. */
  lemma WokenAreNamed(s: State, events: seq<Event>)
    requires Start(s) && IsRun(s, events)
    ensures AlwaysNamed(s, events)
  {
    StartInv(s);
    CascadeRuns(s, events);
  }

  // ----- What the winner starts from -----

  /** The saved state `d0` with its stack head replaced by the output of one child of `x`. */
  ghost predicate FromChild(s: State, x: ExecutionId, d0: Saved, d: Saved)
    requires HasStack(d0)
  {
    exists b :: b in s.attempts && s.attempts[b].target == x && BringsOutput(s.attempts[b])
             && d == WithHead(d0, s.attempts[b].kind.output.value)
  }

  /**
   Data an attempt may win with: one child's output on the stack head or, without output of its own, the
   saved state.
   */
  ghost predicate PeriodData(s: State, x: ExecutionId, d0: Saved, t: Attempt, d: Saved)
    requires HasStack(d0)
  {
    FromChild(s, x, d0, d) || (!BringsOutput(t) && d == d0)
  }

  /** What the attempt holds or will find is data of the period. */
  ghost predicate HoldsPeriodData(s: State, x: ExecutionId, d0: Saved, a: AttemptId)
    requires HasStack(d0) && x in s.rows && a in s.attempts
  {
    match s.attempts[a].stage
    case WriteParent(snapshot) => FromChild(s, x, d0, snapshot)
    case Throttled(held) => PeriodData(s, x, d0, s.attempts[a], held)
    case Find => PeriodData(s, x, d0, s.attempts[a], s.rows[x].data)
    case _ => true
  }

  /** The properties below are about all attempts, or only about children that bring output. */
  predicate Counts(t: Attempt, all: bool) {
    all || BringsOutput(t)
  }

  ghost predicate AttemptsInPeriod(s: State, x: ExecutionId, d0: Saved, all: bool)
    requires HasStack(d0) && x in s.rows
  {
    forall a :: a in s.attempts && s.attempts[a].target == x && Counts(s.attempts[a], all) ==>
      HoldsPeriodData(s, x, d0, a)
  }

  ghost predicate WinIn(s: State, e: Entry, x: ExecutionId, p: nat, all: bool) {
    && e.Resumed? && e.id == x && e.period == p
    && e.winner in s.attempts && Counts(s.attempts[e.winner], all)
  }

  ghost predicate WinsFromPeriod(s: State, x: ExecutionId, p: nat, d0: Saved, all: bool)
    requires HasStack(d0)
  {
    forall i :: 0 <= i < |s.log| && WinIn(s, s.log[i], x, p, all) ==>
      PeriodData(s, x, d0, s.attempts[s.log[i].winner], s.log[i].data)
  }

  ghost predicate PeriodInv(s: State, x: ExecutionId, p: nat, d0: Saved, all: bool)
    requires HasStack(d0)
  {
    && x in s.rows && x in s.periods && p <= s.periods[x]
    && (s.periods[x] == p && s.rows[x].status == Waiting ==>
          (s.rows[x].data == d0 || FromChild(s, x, d0, s.rows[x].data)) && AttemptsInPeriod(s, x, d0, all))
    && WinsFromPeriod(s, x, p, d0, all)
  }

  /** Attempts are never removed and never change target or kind. */
  ghost predicate SameAttempts(s: State, s': State) {
    forall a :: a in s.attempts ==>
      a in s'.attempts && s'.attempts[a].target == s.attempts[a].target && s'.attempts[a].kind == s.attempts[a].kind
  }

  lemma AttemptsPersist(s: State, e: Event)
    requires Enabled(s, e)
    ensures SameAttempts(s, Step(s, e))
    ensures forall x, d0, d :: HasStack(d0) && FromChild(s, x, d0, d) ==> FromChild(Step(s, e), x, d0, d)
  {
    AttemptsStay(s, e);
    FromChildPersists(s, Step(s, e));
  }

  lemma AttemptsStay(s: State, e: Event)
    requires Enabled(s, e)
    ensures SameAttempts(s, Step(s, e))
  {
    match e
    case Advance(a) => AdvanceStays(s, a);
    case _ =>
  }

  lemma AdvanceStays(s: State, a: AttemptId)
    requires Ready(s, a)
    ensures SameAttempts(s, AdvanceOne(s, a))
    ensures forall b :: b in s.attempts && b != a ==> AdvanceOne(s, a).attempts[b] == s.attempts[b]
  {
  }

  lemma FromChildPersists(s: State, s': State)
    requires SameAttempts(s, s')
    ensures forall x, d0, d :: HasStack(d0) && FromChild(s, x, d0, d) ==> FromChild(s', x, d0, d)
  {
    forall x, d0, d | HasStack(d0) && FromChild(s, x, d0, d) ensures FromChild(s', x, d0, d) {
      var b :| b in s.attempts && s.attempts[b].target == x && BringsOutput(s.attempts[b])
        && d == WithHead(d0, s.attempts[b].kind.output.value);
      assert b in s'.attempts;
    }
  }

  lemma ReadInPeriod(s: State, x: ExecutionId, p: nat, d0: Saved, all: bool, a: AttemptId)
    requires HasStack(d0) && Inv(s) && PeriodInv(s, x, p, d0, all) && Ready(s, a) && s.attempts[a].stage.ReadParent?
    requires s.attempts[a].target == x && BringsOutput(s.attempts[a]) && s.rows[x].status == Waiting
      && s.periods[x] == p
    ensures AfterRead(s, s.attempts[a]) == WriteParent(WithHead(d0, s.attempts[a].kind.output.value))
    ensures FromChild(s, x, d0, AfterRead(s, s.attempts[a]).snapshot)
  {
    var out := s.attempts[a].kind.output.value;
    if s.rows[x].data != d0 {
      var b :| b in s.attempts && s.attempts[b].target == x && BringsOutput(s.attempts[b])
               && s.rows[x].data == WithHead(d0, s.attempts[b].kind.output.value);
      HeadOverwrites(d0, s.attempts[b].kind.output.value, out);
    }
  }

  /** The row of `x` is only written by children of `x`, with what they hold. */
  lemma RowInPeriod(s: State, x: ExecutionId, p: nat, d0: Saved, all: bool, a: AttemptId)
    requires HasStack(d0) && Inv(s) && PeriodInv(s, x, p, d0, all) && Ready(s, a)
    requires s.periods[x] == p && AdvanceOne(s, a).rows[x].status == Waiting
    ensures s.rows[x].status == Waiting
    ensures var d := AdvanceOne(s, a).rows[x].data;
      d == s.rows[x].data || FromChild(AdvanceOne(s, a), x, d0, d)
  {
    AttemptsPersist(s, Advance(a));
    assert WonHolds(s, a);
    if s.attempts[a].target == x && s.attempts[a].stage.WriteParent? {
      assert HoldsPeriodData(s, x, d0, a);
    }
  }

  lemma ReaderInPeriod(s: State, x: ExecutionId, p: nat, d0: Saved, all: bool, a: AttemptId)
    requires HasStack(d0) && Inv(s) && PeriodInv(s, x, p, d0, all) && Ready(s, a)
    requires s.periods[x] == p && s.rows[x].status == Waiting && AdvanceOne(s, a).rows[x].status == Waiting
    requires s.attempts[a].target == x && Counts(s.attempts[a], all)
    requires SameAttempts(s, AdvanceOne(s, a))
    ensures HoldsPeriodData(AdvanceOne(s, a), x, d0, a)
  {
    FromChildPersists(s, AdvanceOne(s, a));
    assert HoldsPeriodData(s, x, d0, a);
    if s.attempts[a].stage.ReadParent? && BringsOutput(s.attempts[a]) {
      ReadInPeriod(s, x, p, d0, all, a);
    }
  }

  lemma OtherInPeriod(s: State, s': State, x: ExecutionId, d0: Saved, b: AttemptId)
    requires HasStack(d0) && x in s.rows && x in s'.rows && SameAttempts(s, s')
    requires b in s.attempts && HoldsPeriodData(s, x, d0, b) && s'.attempts[b] == s.attempts[b]
    requires s'.rows[x].data == s.rows[x].data || FromChild(s', x, d0, s'.rows[x].data)
    ensures HoldsPeriodData(s', x, d0, b)
  {
    FromChildPersists(s, s');
  }

  lemma AttemptInPeriod(s: State, x: ExecutionId, p: nat, d0: Saved, all: bool, a: AttemptId, b: AttemptId)
    requires HasStack(d0) && Inv(s) && PeriodInv(s, x, p, d0, all) && Ready(s, a)
    requires s.periods[x] == p && AdvanceOne(s, a).rows[x].status == Waiting
    requires b in s.attempts && s.attempts[b].target == x && Counts(s.attempts[b], all)
    ensures HoldsPeriodData(AdvanceOne(s, a), x, d0, b)
  {
    RowInPeriod(s, x, p, d0, all, a);
    AdvanceStays(s, a);
    if a == b {
      ReaderInPeriod(s, x, p, d0, all, a);
    } else {
      OtherInPeriod(s, AdvanceOne(s, a), x, d0, b);
    }
  }

  lemma PeriodAdvance(s: State, x: ExecutionId, p: nat, d0: Saved, all: bool, a: AttemptId)
    requires HasStack(d0) && Inv(s) && PeriodInv(s, x, p, d0, all) && Ready(s, a)
    requires s.periods[x] == p && AdvanceOne(s, a).rows[x].status == Waiting
    ensures AttemptsInPeriod(AdvanceOne(s, a), x, d0, all)
    ensures var d := AdvanceOne(s, a).rows[x].data; d == d0 || FromChild(AdvanceOne(s, a), x, d0, d)
  {
    var s' := AdvanceOne(s, a);
    AttemptsPersist(s, Advance(a));
    RowInPeriod(s, x, p, d0, all, a);
    forall b | b in s'.attempts && s'.attempts[b].target == x && Counts(s'.attempts[b], all)
      ensures HoldsPeriodData(s', x, d0, b)
    {
      AttemptInPeriod(s, x, p, d0, all, a, b);
    }
  }

  /** The row stays as it is, and attempts stay, end, or are only about to read it. */
  lemma PeriodFrame(s: State, s': State, x: ExecutionId, d0: Saved, all: bool)
    requires HasStack(d0) && x in s.rows && x in s'.rows && s'.rows[x] == s.rows[x] && AttemptsInPeriod(s, x, d0, all)
    requires s.rows[x].data == d0 || FromChild(s, x, d0, s.rows[x].data)
    requires SameAttempts(s, s')
    requires forall b :: b in s'.attempts && (b !in s.attempts || s'.attempts[b] != s.attempts[b]) ==>
      var t := s'.attempts[b]; t.stage.ReadParent? || t.stage.Done? || (t.stage.Find? && !BringsOutput(t))
    ensures AttemptsInPeriod(s', x, d0, all)
  {
    FromChildPersists(s, s');
    forall b | b in s'.attempts && s'.attempts[b].target == x && Counts(s'.attempts[b], all)
      ensures HoldsPeriodData(s', x, d0, b)
    {
      assert b in s.attempts ==> HoldsPeriodData(s, x, d0, b);
    }
  }

  lemma PeriodStep(s: State, e: Event, x: ExecutionId, p: nat, d0: Saved, all: bool)
    requires HasStack(d0) && Inv(s) && PeriodInv(s, x, p, d0, all) && Enabled(s, e)
    ensures PeriodInv(Step(s, e), x, p, d0, all)
  {
    var s' := Step(s, e);
    PeriodStepWins(s, e, x, p, d0, all);
    if s'.periods[x] == p && s'.rows[x].status == Waiting {
      AttemptsPersist(s, e);
      if e.Advance? {
        PeriodAdvance(s, x, p, d0, all, e.a);
      } else {
        PeriodFrame(s, s', x, d0, all);
      }
    }
  }

  lemma PeriodStepWins(s: State, e: Event, x: ExecutionId, p: nat, d0: Saved, all: bool)
    requires HasStack(d0) && Inv(s) && PeriodInv(s, x, p, d0, all) && Enabled(s, e)
    ensures WinsFromPeriod(Step(s, e), x, p, d0, all)
  {
    var s' := Step(s, e);
    AttemptsPersist(s, e);
    forall i | 0 <= i < |s'.log| && WinIn(s', s'.log[i], x, p, all)
      ensures PeriodData(s', x, d0, s'.attempts[s'.log[i].winner], s'.log[i].data)
    {
      if i < |s.log| {
        assert s'.log[i] == s.log[i] && EntryHolds(s, s.log[i]);
        assert WinIn(s, s.log[i], x, p, all);
      } else {
        assert HoldsPeriodData(s, x, d0, s'.log[i].winner);
      }
    }
  }

  lemma {:induction false} PeriodRun(s: State, events: seq<Event>, x: ExecutionId, p: nat, d0: Saved, all: bool)
    requires HasStack(d0) && Inv(s) && PeriodInv(s, x, p, d0, all) && IsRun(s, events)
    ensures PeriodInv(Final(s, events), x, p, d0, all)
    decreases |events|
  {
    if events != [] {
      StepKeeps(s, events[0]);
      PeriodStep(s, events[0], x, p, d0, all);
      PeriodRun(Step(s, events[0]), events[1..], x, p, d0, all);
    }
  }

  /** From here on, in every run, whoever wins this period starts from data of the period. */
  ghost predicate Delivers(s: State, x: ExecutionId, all: bool)
    requires x in s.rows && x in s.periods && HasStack(s.rows[x].data)
  {
    forall events :: IsRun(s, events) ==> WinsFromPeriod(Final(s, events), x, s.periods[x], s.rows[x].data, all)
  }

  lemma NoWinYet(s: State, x: ExecutionId, all: bool)
    requires Inv(s) && x in s.rows && s.rows[x].status == Waiting && HasStack(s.rows[x].data)
    ensures WinsFromPeriod(s, x, s.periods[x], s.rows[x].data, all)
  {
  }

  /** A stale attempt that counts: it targets `x` and holds or will find what is not data of the period. */
  ghost predicate Stale(s: State, x: ExecutionId, a: AttemptId, all: bool)
    requires x in s.rows && HasStack(s.rows[x].data)
  {
    && a in s.attempts && s.attempts[a].target == x && Counts(s.attempts[a], all)
    && !HoldsPeriodData(s, x, s.rows[x].data, a)
  }

  /** A stale attempt can write what it holds, read it back and win with it. */
  lemma StaleDataWins(s: State, x: ExecutionId, a: AttemptId, all: bool) returns (events: seq<Event>)
    requires Inv(s) && x in s.rows && s.rows[x].status == Waiting && s.rows[x].saved && !s.rows[x].finished
    requires HasStack(s.rows[x].data) && Stale(s, x, a, all)
    ensures IsRun(s, events) && !WinsFromPeriod(Final(s, events), x, s.periods[x], s.rows[x].data, all)
  {
    var d0, p := s.rows[x].data, s.periods[x];
    match s.attempts[a].stage {
      case Throttled(held) =>
        events := [Advance(a)];
        ContendWins(s, x, a, d0, all);
      case Find =>
        var s1 := AdvanceOne(s, a);
        StepKeeps(s, Advance(a));
        ContendWins(s1, x, a, d0, all);
        events := [Advance(a), Advance(a)];
        assert events[1..] == [Advance(a)];
      case WriteParent(snapshot) =>
        var s1 := AdvanceOne(s, a);
        StepKeeps(s, Advance(a));
        var s2 := AdvanceOne(s1, a);
        StepKeeps(s1, Advance(a));
        ContendWins(s2, x, a, d0, all);
        events := [Advance(a), Advance(a), Advance(a)];
        assert events[1..] == [Advance(a), Advance(a)] && events[1..][1..] == [Advance(a)];
    }
  }

  lemma ContendWins(s: State, x: ExecutionId, a: AttemptId, d0: Saved, all: bool)
    requires Inv(s) && x in s.rows && s.rows[x].status == Waiting && HasStack(d0)
    requires a in s.attempts && s.attempts[a].target == x && Counts(s.attempts[a], all)
      && s.attempts[a].stage.Throttled?
    requires !PeriodData(s, x, d0, s.attempts[a], s.attempts[a].stage.held)
    ensures IsRun(s, [Advance(a)]) && !WinsFromPeriod(Final(s, [Advance(a)]), x, s.periods[x], d0, all)
  {
    var s' := AdvanceOne(s, a);
    assert [Advance(a)][1..] == [];
    assert IsRun(s', []) && Final(s, [Advance(a)]) == s';
    assert s'.log[|s.log|] == Resumed(a, x, s.periods[x], s.attempts[a].stage.held);
    assert WinIn(s', s'.log[|s.log|], x, s.periods[x], all);
    assert !PeriodData(s', x, d0, s'.attempts[a], s.attempts[a].stage.held);
  }

  /**
   While `x` waits, every win of the period starts, in every continuation, from the saved state, with
   exactly one finished child's output on the stack head if a child won, if and only if no attempt on
   its way is stale. The same holds of the wins of children with output alone.
   */
  lemma PeriodDataDelivered(s: State, x: ExecutionId, all: bool)
    requires Inv(s) && x in s.rows && s.rows[x].status == Waiting && s.rows[x].saved && !s.rows[x].finished
    requires HasStack(s.rows[x].data)
    ensures Delivers(s, x, all) <==> AttemptsInPeriod(s, x, s.rows[x].data, all)
  {
    var d0, p := s.rows[x].data, s.periods[x];
    if AttemptsInPeriod(s, x, d0, all) {
      NoWinYet(s, x, all);
      forall events | IsRun(s, events) ensures WinsFromPeriod(Final(s, events), x, p, d0, all) {
        PeriodRun(s, events, x, p, d0, all);
      }
    } else {
      var a :| a in s.attempts && s.attempts[a].target == x && Counts(s.attempts[a], all)
        && !HoldsPeriodData(s, x, d0, a);
      var events := StaleDataWins(s, x, a, all);
      assert IsRun(s, events) && !WinsFromPeriod(Final(s, events), x, p, d0, all);
    }
  }

  /** In particular from a state in which every attempt on `x` has yet to read it. */
  lemma FreshAttemptsDeliver(s: State, x: ExecutionId, all: bool, events: seq<Event>)
    requires Inv(s) && x in s.rows && s.rows[x].status == Waiting && HasStack(s.rows[x].data)
    requires forall a :: a in s.attempts && s.attempts[a].target == x && Counts(s.attempts[a], all) ==>
      s.attempts[a].stage.ReadParent? || (s.attempts[a].stage.Find? && !BringsOutput(s.attempts[a]))
    requires IsRun(s, events)
    ensures WinsFromPeriod(Final(s, events), x, s.periods[x], s.rows[x].data, all)
  {
    NoWinYet(s, x, all);
    PeriodRun(s, events, x, s.periods[x], s.rows[x].data, all);
  }

  // ----- Stale attempts arise -----

  lemma RunCons(s: State, e: Event, rest: seq<Event>)
    requires Enabled(s, e) && IsRun(Step(s, e), rest)
    ensures IsRun(s, [e] + rest) && Final(s, [e] + rest) == Final(Step(s, e), rest)
  {
    assert ([e] + rest)[1..] == rest;
  }

  /** A timer resumes a waiting row, and the execution suspends again with new data. */
  lemma NextPeriod(s: State, x: ExecutionId, a: AttemptId, data: Saved) returns (events: seq<Event>)
    requires x in s.rows && x in s.periods && s.rows[x].status == Waiting && s.rows[x].saved && !s.rows[x].finished
    requires a in s.attempts && s.attempts[a].target == x && s.attempts[a].kind.Timer? && s.attempts[a].stage.Find?
    requires forall b :: b in s.attempts && s.attempts[b].target == x ==> !s.attempts[b].stage.Won?
    ensures IsRun(s, events)
    ensures var f := Final(s, events);
      && x in f.rows && f.rows[x] == s.rows[x].(data := data)
      && f.attempts.Keys == s.attempts.Keys
      && forall b :: b in s.attempts && b != a ==> f.attempts[b] == s.attempts[b]
    ensures var f := Final(s, events); f.attempts[a].target == x && f.attempts[a].kind.Timer?
  {
    var s1 := Step(s, Advance(a));
    var s2 := Step(s1, Advance(a));
    var s3 := Step(s2, Advance(a));
    var s4 := Step(s3, Suspend(x, data));
    RunCons(s3, Suspend(x, data), []);
    RunCons(s2, Advance(a), [Suspend(x, data)]);
    RunCons(s1, Advance(a), [Advance(a)] + [Suspend(x, data)]);
    events := [Advance(a)] + ([Advance(a)] + ([Advance(a)] + [Suspend(x, data)]));
    RunCons(s, Advance(a), [Advance(a)] + ([Advance(a)] + [Suspend(x, data)]));
  }

  /**
   From every start with a waiting row: a child reads it, a timer resumes it, and it waits again with
   data that differ in more than the input of the stack head. Then the child is stale.
   */
  lemma StaleChildArises(s: State, x: ExecutionId, process: ProcessId, out: Connections, data: Saved)
    returns (events: seq<Event>)
    requires Start(s) && x in s.rows && s.rows[x].status == Waiting && s.rows[x].saved && !s.rows[x].finished
    requires HasStack(s.rows[x].data) && HasStack(data) && WithHead(data, out) != WithHead(s.rows[x].data, out)
    ensures IsRun(s, events)
    ensures var f := Final(s, events);
      && x in f.rows && f.rows[x] == s.rows[x].(data := data) && Stale(f, x, 1, false)
      && !AttemptsInPeriod(f, x, f.rows[x].data, false)
  {
    var timer, child := Spawn(0, process, x, Timer), Spawn(1, process, x, Child(Some(out)));
    var s1 := Step(s, timer);
    var s2 := Step(s1, child);
    var s3 := Step(s2, Advance(1));
    assert s3.attempts[1].stage == WriteParent(WithHead(s.rows[x].data, out));
    var rest := NextPeriod(s3, x, 0, data);
    RunCons(s2, Advance(1), rest);
    RunCons(s1, child, [Advance(1)] + rest);
    RunCons(s, timer, [child] + ([Advance(1)] + rest));
    events := [timer] + ([child] + ([Advance(1)] + rest));
    var f := Final(s, events);
    assert f.attempts.Keys == {0, 1};
    assert !FromChild(f, x, data, f.attempts[1].stage.snapshot);
  }
}
