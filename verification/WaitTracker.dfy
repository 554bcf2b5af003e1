/**
 The timers that wake waiting executions: packages/cli/src/wait-tracker.ts. What happens after a
 timer has fired is the protocol of module ResumeProtocol.
 */
module WaitTracker {
  import opened Wrappers

  type ExecutionId = string
  type Timer = nat

  /** A row with a `waitTill`, as the database holds it. */
  datatype Row = Row(id: ExecutionId, waitTill: int, crashed: bool)

  datatype Deadline = Deadline(id: ExecutionId, due: int)

  /** `armed` and `intervals` hold the timers that have neither fired nor been cleared. */
  datatype State = State(
    waiting: map<ExecutionId, Timer>,
    armed: map<Timer, Deadline>,
    mainTimer: Option<Timer>,
    intervals: set<Timer>,
    nextTimer: Timer)

  /** `Start` is `startExecution` called by a finished child, `Fire` the same called by a timer. */
  datatype Event =
    | Takeover
    | Poll(table: seq<Row>, now: int)
    | Fire(timer: Timer)
    | Start(id: ExecutionId)
    | Stop(id: ExecutionId)
    | StepDown

  const POLL_INTERVAL: int := 60000
  const LOOK_AHEAD: int := 70000

  // ----- What the operations do -----

  predicate Upcoming(r: Row, now: int) {
    r.waitTill <= now + LOOK_AHEAD && !r.crashed
  }

  /** A negative delay fires at once. */
  function Due(waitTill: int, now: int): int {
    if waitTill < now then now else waitTill
  }

  function Arm(s: State, id: ExecutionId, due: int): State {
    s.(waiting := s.waiting[id := s.nextTimer],
       armed := s.armed[s.nextTimer := Deadline(id, due)],
       nextTimer := s.nextTimer + 1)
  }

  function PollRow(s: State, r: Row, now: int): State {
    if Upcoming(r, now) && r.id !in s.waiting then Arm(s, r.id, Due(r.waitTill, now)) else s
  }

  function PollRows(s: State, table: seq<Row>, now: int): State {
    if table == [] then s else PollRow(PollRows(s, table[..|table| - 1], now), table[|table| - 1], now)
  }

  function TakeOff(s: State, id: ExecutionId): State {
    s.(waiting := s.waiting - {id})
  }

  function Disarm(s: State, id: ExecutionId): State {
    if id in s.waiting then s.(waiting := s.waiting - {id}, armed := s.armed - {s.waiting[id]}) else s
  }

  /** The interval and the timers are cleared. The entries of the table stay. */
  function Silence(s: State): State {
    if s.mainTimer.None? then s else
      s.(intervals := s.intervals - {s.mainTimer.value}, armed := s.armed - s.waiting.Values)
  }

  function Track(s: State): State {
    s.(mainTimer := Some(s.nextTimer), intervals := s.intervals + {s.nextTimer}, nextTimer := s.nextTimer + 1)
  }

  /** Timers fire while they are armed. */
  predicate Enabled(s: State, e: Event) {
    match e
    case Fire(timer) => timer in s.armed
    case _ => true
  }

  function Step(s: State, e: Event): State
    requires Enabled(s, e)
  {
    match e
    case Takeover => Track(s)
    case Poll(table, now) => PollRows(s, table, now)
    case Fire(timer) => TakeOff(s.(armed := s.armed - {timer}), s.armed[timer].id)
    case Start(id) => TakeOff(s, id)
    case Stop(id) => Disarm(s, id)
    case StepDown => Silence(s)
  }

  ghost predicate IsRun(s: State, events: seq<Event>)
    decreases |events|
  {
    events == [] || (Enabled(s, events[0]) && IsRun(Step(s, events[0]), events[1..]))
  }

  ghost function Final(s: State, events: seq<Event>): State
    requires IsRun(s, events)
    decreases |events|
  {
    if events == [] then s else Final(Step(s, events[0]), events[1..])
  }

  function Initial(): State {
    State(map[], map[], None, {}, 0)
  }

  // ----- What every step keeps -----

  ghost predicate Inv(s: State) {
    && (forall t :: t in s.armed ==> t < s.nextTimer)
    && (forall id :: id in s.waiting ==> s.waiting[id] < s.nextTimer)
    && (forall id :: id in s.waiting && s.waiting[id] in s.armed ==> s.armed[s.waiting[id]].id == id)
    && (forall a, b :: a in s.waiting && b in s.waiting && s.waiting[a] == s.waiting[b] ==> a == b)
    && (forall t :: t in s.intervals ==> t < s.nextTimer)
    && (s.mainTimer.Some? ==> s.mainTimer.value < s.nextTimer)
  }

  /** The table knows every armed timer. */
  ghost predicate Known(s: State, t: Timer)
    requires t in s.armed
  {
    s.armed[t].id in s.waiting && s.waiting[s.armed[t].id] == t
  }

  ghost predicate Tidy(s: State) {
    forall t :: t in s.armed ==> Known(s, t)
  }

  lemma {:induction false} PollKeeps(s: State, table: seq<Row>, now: int)
    requires Inv(s)
    ensures Inv(PollRows(s, table, now))
    ensures Tidy(PollRows(s, table, now)) <==> Tidy(s)
    decreases |table|
  {
    if table != [] {
      var s' := PollRows(s, table[..|table| - 1], now);
      PollKeeps(s, table[..|table| - 1], now);
      PollRowKeeps(s', table[|table| - 1], now);
    }
  }

  lemma PollRowKeeps(s: State, r: Row, now: int)
    requires Inv(s)
    ensures Inv(PollRow(s, r, now))
    ensures Tidy(PollRow(s, r, now)) <==> Tidy(s)
  {
    var s' := PollRow(s, r, now);
    if s' != s && Tidy(s') {
      forall t | t in s.armed ensures Known(s, t) {
        assert Known(s', t);
      }
    }
  }

  /**
   The one step after which an armed timer is missing from the table: a child starts an execution that has
   a timer.
   */
  predicate Orphans(s: State, e: Event) {
    e.Start? && e.id in s.waiting && s.waiting[e.id] in s.armed
  }

  lemma StepKeeps(s: State, e: Event)
    requires Inv(s) && Enabled(s, e)
    ensures Inv(Step(s, e))
    ensures Tidy(s) ==> (Tidy(Step(s, e)) <==> !Orphans(s, e))
  {
    var s' := Step(s, e);
    if e.Poll? {
      PollKeeps(s, e.table, e.now);
    } else if Orphans(s, e) {
      assert s.waiting[e.id] in s'.armed && !Known(s', s.waiting[e.id]);
    } else if Tidy(s) {
      forall t | t in s'.armed ensures Known(s', t) {
        assert Known(s, t);
      }
    }
  }

  ghost predicate NeverOrphans(s: State, events: seq<Event>)
    requires IsRun(s, events)
    decreases |events|
  {
    events == [] || (!Orphans(s, events[0]) && NeverOrphans(Step(s, events[0]), events[1..]))
  }

  /** No execution has two armed timers. */
  ghost predicate OneTimerEach(s: State) {
    forall t, u :: t in s.armed && u in s.armed && s.armed[t].id == s.armed[u].id ==> t == u
  }

  /** No execution has two armed timers, now or after whatever the next poll finds. */
  ghost predicate OneAfterPolls(s: State) {
    OneTimerEach(s) && forall table, now :: OneTimerEach(PollRows(s, table, now))
  }

  ghost predicate AlwaysOne(s: State, events: seq<Event>)
    requires IsRun(s, events)
    decreases |events|
  {
    OneAfterPolls(s) && (events != [] ==> AlwaysOne(Step(s, events[0]), events[1..]))
  }

  lemma TidyIsOne(s: State)
    requires Tidy(s)
    ensures OneTimerEach(s)
  {
    forall t, u | t in s.armed && u in s.armed && s.armed[t].id == s.armed[u].id ensures t == u {
      assert Known(s, t) && Known(s, u);
    }
  }

  lemma TidyIsOneAfterPolls(s: State)
    requires Inv(s) && Tidy(s)
    ensures OneAfterPolls(s)
  {
    TidyIsOne(s);
    forall table, now ensures OneTimerEach(PollRows(s, table, now)) {
      PollKeeps(s, table, now);
      TidyIsOne(PollRows(s, table, now));
    }
  }

  /** Every such start leads to two timers once the execution waits again and a poll finds it. */
  lemma OrphanMakesTwo(s: State, id: ExecutionId, waitTill: int, now: int)
    requires Inv(s) && Orphans(s, Start(id)) && waitTill <= now + LOOK_AHEAD
    ensures !OneTimerEach(PollRows(Step(s, Start(id)), [Row(id, waitTill, false)], now))
  {
    var s', r := Step(s, Start(id)), Row(id, waitTill, false);
    var f := PollRows(s', [r], now);
    assert PollRows(s', [r][..0], now) == s' && f == PollRow(s', r, now);
    var t, u := s.waiting[id], s.nextTimer;
    assert t != u && t in f.armed && u in f.armed && f.armed[t].id == id && f.armed[u].id == id;
  }

  /** One timer per execution if and only if no child starts a scheduled execution. */
  lemma {:induction false} OneTimerPerExecution(s: State, events: seq<Event>)
    requires Inv(s) && Tidy(s) && IsRun(s, events)
    ensures AlwaysOne(s, events) <==> NeverOrphans(s, events)
    ensures NeverOrphans(s, events) ==> Tidy(Final(s, events))
    ensures Inv(Final(s, events))
    decreases |events|
  {
    TidyIsOneAfterPolls(s);
    if events != [] {
      var e, s' := events[0], Step(s, events[0]);
      StepKeeps(s, e);
      if Orphans(s, e) {
        OrphanMakesTwo(s, e.id, 0, 0);
        assert !OneAfterPolls(s');
        assert !AlwaysOne(s', events[1..]);
        RunKeeps(s', events[1..]);
      } else {
        OneTimerPerExecution(s', events[1..]);
      }
    }
  }

  lemma {:induction false} RunKeeps(s: State, events: seq<Event>)
    requires Inv(s) && IsRun(s, events)
    ensures Inv(Final(s, events))
    decreases |events|
  {
    if events != [] {
      StepKeeps(s, events[0]);
      RunKeeps(Step(s, events[0]), events[1..]);
    }
  }

  /** A child starts its scheduled parent, the parent waits again, and a poll finds it: two timers for one execution. */
  lemma TwoTimers(id: ExecutionId)
    ensures var r := Row(id, 50, false);
            var events := [Takeover, Poll([r], 0), Start(id), Poll([r], 10)];
            IsRun(Initial(), events) && !OneTimerEach(Final(Initial(), events))
  {
    var r := Row(id, 50, false);
    var s1 := Step(Initial(), Takeover);
    assert [r][..0] == [];
    var s2 := PollRow(PollRows(s1, [], 0), r, 0);
    assert PollRows(s1, [r], 0) == s2;
    var s3 := TakeOff(s2, id);
    var s4 := PollRow(PollRows(s3, [], 10), r, 10);
    assert PollRows(s3, [r], 10) == s4;
    var events := [Takeover, Poll([r], 0), Start(id), Poll([r], 10)];
    assert events[1..][1..][1..][1..] == [];
    assert 1 in s4.armed && 2 in s4.armed && s4.armed[1].id == s4.armed[2].id;
    assert IsRun(s4, []);
    assert events[1..][1..][1..] == [Poll([r], 10)] && IsRun(s3, [Poll([r], 10)]) && Final(s3, [Poll([r], 10)]) == s4;
    assert events[1..][1..] == [Start(id), Poll([r], 10)];
    assert IsRun(s2, events[1..][1..]) && Final(s2, events[1..][1..]) == s4;
    assert IsRun(s1, events[1..]) && Final(s1, events[1..]) == s4;
  }

  // ----- Polling intervals -----

  /** The only interval that is alive, if any, is the one that a step-down would clear. */
  ghost predicate Tracked(s: State) {
    forall t :: t in s.intervals ==> s.mainTimer == Some(t)
  }

  /** A takeover while an interval is alive: a step-down before it has not been heard of. */
  predicate Doubles(s: State, e: Event) {
    e.Takeover? && s.intervals != {}
  }

  lemma {:induction false} PollLeavesIntervals(s: State, table: seq<Row>, now: int)
    ensures var s' := PollRows(s, table, now);
      s'.intervals == s.intervals && s'.mainTimer == s.mainTimer && s'.nextTimer >= s.nextTimer
    decreases |table|
  {
    if table != [] {
      PollLeavesIntervals(s, table[..|table| - 1], now);
    }
  }

  lemma StepTracks(s: State, e: Event)
    requires Inv(s) && Tracked(s) && Enabled(s, e)
    ensures Tracked(Step(s, e)) <==> !Doubles(s, e)
    ensures |Step(s, e).intervals| <= 1 <==> !Doubles(s, e)
  {
    var s' := Step(s, e);
    if e.Poll? {
      PollLeavesIntervals(s, e.table, e.now);
    }
    if Doubles(s, e) {
      var t :| t in s.intervals;
      assert {t, s.nextTimer} <= s'.intervals;
      AtLeastTwo(s'.intervals, t, s.nextTimer);
    } else if s'.mainTimer.Some? {
      AtMostOne(s'.intervals, s'.mainTimer.value);
    } else {
      assert s'.intervals == {};
    }
  }

  lemma AtMostOne(a: set<Timer>, t: Timer)
    requires forall u :: u in a ==> u == t
    ensures |a| <= 1
  {
    if a != {} {
      assert a == {t};
    }
  }

  lemma AtLeastTwo(a: set<Timer>, t: Timer, u: Timer)
    requires t in a && u in a && t != u
    ensures |a| >= 2
  {
    var b := a - {t};
    assert u in b && a == b + {t};
    assert b != {};
  }

  ghost predicate NeverDoubles(s: State, events: seq<Event>)
    requires IsRun(s, events)
    decreases |events|
  {
    events == [] || (!Doubles(s, events[0]) && NeverDoubles(Step(s, events[0]), events[1..]))
  }

  ghost predicate AlwaysOneInterval(s: State, events: seq<Event>)
    requires IsRun(s, events)
    decreases |events|
  {
    |s.intervals| <= 1 && (events != [] ==> AlwaysOneInterval(Step(s, events[0]), events[1..]))
  }

  /** At most one interval is ever alive if and only if no takeover comes while one is. */
  lemma {:induction false} OneInterval(s: State, events: seq<Event>)
    requires Inv(s) && Tracked(s) && IsRun(s, events)
    ensures AlwaysOneInterval(s, events) <==> NeverDoubles(s, events)
    decreases |events|
  {
    if s.mainTimer.Some? {
      AtMostOne(s.intervals, s.mainTimer.value);
    } else {
      assert s.intervals == {};
    }
    if events != [] {
      var e, s' := events[0], Step(s, events[0]);
      StepKeeps(s, e);
      StepTracks(s, e);
      if Doubles(s, e) {
        assert !AlwaysOneInterval(s', events[1..]);
      } else {
        OneInterval(s', events[1..]);
      }
    }
  }

  /** An interval that is no longer the main timer polls on, whatever step-downs and takeovers follow. */
  lemma {:induction false} LostIntervalStays(s: State, events: seq<Event>, t: Timer)
    requires Inv(s) && t in s.intervals && s.mainTimer != Some(t) && IsRun(s, events)
    ensures t in Final(s, events).intervals && Final(s, events).mainTimer != Some(t)
    decreases |events|
  {
    if events != [] {
      var e := events[0];
      StepKeeps(s, e);
      if e.Poll? {
        PollLeavesIntervals(s, e.table, e.now);
      }
      LostIntervalStays(Step(s, e), events[1..], t);
    }
  }

  // ----- Step-down -----

  /** After a step-down no timer is left, except those the table had lost. */
  lemma StepDownSilences(s: State)
    requires Inv(s) && s.mainTimer.Some?
    ensures (Silence(s).intervals == {} <==> Tracked(s)) && Silence(s).waiting == s.waiting
    ensures forall t :: t in Silence(s).armed <==> t in s.armed && !Known(s, t)
    ensures Silence(s).armed == map[] <==> Tidy(s)
  {
    if !Tracked(s) {
      var t :| t in s.intervals && s.mainTimer != Some(t);
      assert t in Silence(s).intervals;
    }
  }

  /** No armed timer is for the execution. */
  ghost predicate Untimed(s: State, id: ExecutionId) {
    forall t :: t in s.armed ==> s.armed[t].id != id
  }

  /** The execution is in the table without any timer. */
  ghost predicate Muted(s: State, id: ExecutionId) {
    id in s.waiting && Untimed(s, id)
  }

  lemma {:induction false} PollMutes(s: State, id: ExecutionId, table: seq<Row>, now: int)
    requires Inv(s) && Muted(s, id)
    ensures Muted(PollRows(s, table, now), id)
    decreases |table|
  {
    if table != [] {
      PollMutes(s, id, table[..|table| - 1], now);
    }
  }

  lemma StepMutes(s: State, id: ExecutionId, e: Event)
    requires Inv(s) && Enabled(s, e) && Muted(s, id)
    ensures Muted(Step(s, e), id) <==> !((e.Start? || e.Stop?) && e.id == id)
  {
    if e.Poll? {
      PollMutes(s, id, e.table, e.now);
    }
  }

  /**
   What a step-down has muted stays muted through later takeovers and polls, until it is started or stopped
   from elsewhere.
   */
  lemma {:induction false} MutedStays(s: State, id: ExecutionId, events: seq<Event>)
    requires Inv(s) && Muted(s, id) && IsRun(s, events)
    requires forall i :: 0 <= i < |events| ==> events[i] != Start(id) && events[i] != Stop(id)
    ensures Muted(Final(s, events), id)
    decreases |events|
  {
    if events != [] {
      StepKeeps(s, events[0]);
      StepMutes(s, id, events[0]);
      assert forall i :: 0 <= i < |events| - 1 ==> events[1..][i] == events[i + 1];
      MutedStays(Step(s, events[0]), id, events[1..]);
    }
  }

  /** So the executions in the table of a leader that steps down are not woken by its own timers again. */
  lemma StepDownMutes(s: State, events: seq<Event>, id: ExecutionId)
    requires Inv(s) && Tidy(s) && s.mainTimer.Some? && id in s.waiting && IsRun(Silence(s), events)
    requires forall i :: 0 <= i < |events| ==> events[i] != Start(id) && events[i] != Stop(id)
    ensures Muted(Final(Silence(s), events), id)
  {
    StepDownSilences(s);
    StepKeeps(s, StepDown);
    MutedStays(Silence(s), id, events);
  }

  // ----- Timeliness -----

  /** The table holds one row for the execution, and it has not crashed. */
  ghost predicate Scheduled(table: seq<Row>, id: ExecutionId, waitTill: int) {
    && Row(id, waitTill, false) in table
    && forall i :: 0 <= i < |table| && table[i].id == id ==> table[i] == Row(id, waitTill, false)
  }

  ghost predicate ArmedFor(s: State, id: ExecutionId, due: int) {
    id in s.waiting && s.waiting[id] in s.armed && s.armed[s.waiting[id]] == Deadline(id, due)
  }

  /** A poll arms an upcoming row and no other. */
  lemma {:induction false} PollArms(s: State, table: seq<Row>, now: int, id: ExecutionId, waitTill: int)
    requires Inv(s) && id !in s.waiting
    requires forall i :: 0 <= i < |table| && table[i].id == id ==> table[i] == Row(id, waitTill, false)
    ensures var s' := PollRows(s, table, now);
            if Row(id, waitTill, false) in table && waitTill <= now + LOOK_AHEAD
            then ArmedFor(s', id, Due(waitTill, now)) else id !in s'.waiting
    decreases |table|
  {
    if table != [] {
      var front, r := table[..|table| - 1], table[|table| - 1];
      assert table == front + [r];
      PollArms(s, front, now, id, waitTill);
      PollKeeps(s, front, now);
    }
  }

  /** The row at `j` is the first of its execution that a poll at `now` takes: it is due within seventy seconds. */
  ghost predicate Takes(table: seq<Row>, j: int, now: int) {
    && 0 <= j < |table| && !table[j].crashed && table[j].waitTill <= now + 70000
    && forall i :: 0 <= i < j && table[i].id == table[j].id ==> table[i].crashed || table[i].waitTill > now + 70000
  }

  /** Executions in the table and timers stay as they are, and new timers are for what was not in the table. */
  ghost predicate KeepsKnown(s: State, s': State) {
    && (forall id :: id in s.waiting ==> id in s'.waiting && s'.waiting[id] == s.waiting[id])
    && (forall t :: t in s.armed ==> t in s'.armed && s'.armed[t] == s.armed[t])
    && (forall t :: t in s'.armed && t !in s.armed ==>
          var id := s'.armed[t].id; id !in s.waiting && id in s'.waiting && s'.waiting[id] == t)
  }

  ghost predicate AddsTaken(s: State, s': State, table: seq<Row>, now: int) {
    forall id :: id in s'.waiting && id !in s.waiting ==> exists j :: Takes(table, j, now) && table[j].id == id
  }

  ghost predicate ArmsTaken(s: State, s': State, table: seq<Row>, now: int) {
    forall j :: Takes(table, j, now) && table[j].id !in s.waiting ==>
      && (now <= table[j].waitTill ==> ArmedFor(s', table[j].id, table[j].waitTill))
      && (table[j].waitTill < now ==> ArmedFor(s', table[j].id, now))
  }

  /** What a poll does: exactly the executions it takes are added, each armed for its row's time, or now. */
  ghost predicate ArmsWhatIsDue(s: State, s': State, table: seq<Row>, now: int) {
    KeepsKnown(s, s') && AddsTaken(s, s', table, now) && ArmsTaken(s, s', table, now)
  }

  lemma TakesFront(table: seq<Row>, j: int, now: int)
    requires table != []
    ensures j < |table| - 1 ==> (Takes(table, j, now) <==> Takes(table[..|table| - 1], j, now))
  {
  }

  /** With the last row taken off, an execution has been taken by then or the last row is its first. */
  lemma LastRow(s: State, table: seq<Row>, now: int)
    requires table != [] && Inv(s)
    requires ArmsWhatIsDue(s, PollRows(s, table[..|table| - 1], now), table[..|table| - 1], now)
    requires Upcoming(table[|table| - 1], now)
    ensures var r, mid := table[|table| - 1], PollRows(s, table[..|table| - 1], now);
      r.id !in s.waiting ==> (r.id in mid.waiting <==> !Takes(table, |table| - 1, now))
  {
    var front, r := table[..|table| - 1], table[|table| - 1];
    var mid := PollRows(s, front, now);
    if r.id !in s.waiting && r.id in mid.waiting {
      var j :| Takes(front, j, now) && front[j].id == r.id;
      assert table[j].id == r.id;
    }
    if r.id !in s.waiting && !Takes(table, |table| - 1, now) {
      var i := FirstTaken(front, r.id, now);
      assert front[i].id !in s.waiting;
    }
  }

  lemma {:induction false} FirstTaken(table: seq<Row>, id: ExecutionId, now: int) returns (j: int)
    requires exists i :: 0 <= i < |table| && table[i].id == id && !table[i].crashed && table[i].waitTill <= now + 70000
    ensures Takes(table, j, now) && table[j].id == id
    decreases |table|
  {
    var front := table[..|table| - 1];
    if exists i :: 0 <= i < |front| && front[i].id == id && !front[i].crashed && front[i].waitTill <= now + 70000 {
      j := FirstTaken(front, id, now);
      TakesFront(table, j, now);
    } else {
      j := |table| - 1;
      assert forall i :: 0 <= i < j ==> table[i] == front[i];
    }
  }

  lemma {:induction false} PollMeans(s: State, table: seq<Row>, now: int)
    requires Inv(s)
    ensures ArmsWhatIsDue(s, PollRows(s, table, now), table, now)
    decreases |table|
  {
    if table != [] {
      var front, r := table[..|table| - 1], table[|table| - 1];
      var mid := PollRows(s, front, now);
      PollMeans(s, front, now);
      PollKeeps(s, front, now);
      if Upcoming(r, now) {
        LastRow(s, table, now);
      }
      LastRowMeans(s, mid, table, now);
    }
  }

  lemma LastRowMeans(s: State, mid: State, table: seq<Row>, now: int)
    requires table != [] && Inv(mid) && ArmsWhatIsDue(s, mid, table[..|table| - 1], now)
    requires var r := table[|table| - 1];
      Upcoming(r, now) && r.id !in s.waiting ==> (r.id in mid.waiting <==> !Takes(table, |table| - 1, now))
    ensures ArmsWhatIsDue(s, PollRow(mid, table[|table| - 1], now), table, now)
  {
    LastRowKeeps(s, mid, table[|table| - 1], now);
    LastRowAdds(s, mid, table, now);
    LastRowArms(s, mid, table, now);
  }

  lemma LastRowKeeps(s: State, mid: State, r: Row, now: int)
    requires Inv(mid) && KeepsKnown(s, mid)
    ensures KeepsKnown(s, PollRow(mid, r, now))
  {
  }

  lemma LastRowAdds(s: State, mid: State, table: seq<Row>, now: int)
    requires table != [] && KeepsKnown(s, mid) && AddsTaken(s, mid, table[..|table| - 1], now)
    requires var r := table[|table| - 1];
      Upcoming(r, now) && r.id !in s.waiting ==> (r.id in mid.waiting <==> !Takes(table, |table| - 1, now))
    ensures AddsTaken(s, PollRow(mid, table[|table| - 1], now), table, now)
  {
    var front, last := table[..|table| - 1], |table| - 1;
    var s' := PollRow(mid, table[last], now);
    forall id | id in s'.waiting && id !in s.waiting ensures exists j :: Takes(table, j, now) && table[j].id == id {
      if id in mid.waiting {
        var j :| Takes(front, j, now) && front[j].id == id;
        TakesFront(table, j, now);
        assert Takes(table, j, now) && table[j].id == id;
      } else {
        assert Takes(table, last, now) && table[last].id == id;
      }
    }
  }

  lemma LastRowArms(s: State, mid: State, table: seq<Row>, now: int)
    requires table != [] && Inv(mid) && ArmsTaken(s, mid, table[..|table| - 1], now)
    requires var r := table[|table| - 1];
      Upcoming(r, now) && r.id !in s.waiting ==> (r.id in mid.waiting <==> !Takes(table, |table| - 1, now))
    ensures ArmsTaken(s, PollRow(mid, table[|table| - 1], now), table, now)
  {
    var front, last := table[..|table| - 1], |table| - 1;
    var s' := PollRow(mid, table[last], now);
    forall j | Takes(table, j, now) && table[j].id !in s.waiting
      ensures now <= table[j].waitTill ==> ArmedFor(s', table[j].id, table[j].waitTill)
      ensures table[j].waitTill < now ==> ArmedFor(s', table[j].id, now)
    {
      if j < last {
        TakesFront(table, j, now);
        assert front[j] == table[j];
      }
    }
  }

  lemma {:induction false} PollLeaves(s: State, table: seq<Row>, now: int, id: ExecutionId, due: int)
    requires Inv(s) && ArmedFor(s, id, due)
    ensures ArmedFor(PollRows(s, table, now), id, due)
    decreases |table|
  {
    if table != [] {
      PollLeaves(s, table[..|table| - 1], now, id, due);
      PollKeeps(s, table[..|table| - 1], now);
    }
  }

  /** What happened to the polls so far: when the first and the latest one came. */
  datatype Polled = Never | Between(first: int, last: int)

  function AfterPoll(p: Polled, now: int): Polled {
    match p case Never => Between(now, now) case Between(first, _) => Between(first, now)
  }

  function PolledAfter(p: Polled, events: seq<Event>): Polled
    decreases |events|
  {
    if events == [] then p
    else PolledAfter(if events[0].Poll? then AfterPoll(p, events[0].now) else p, events[1..])
  }

  /** The step leaves the execution alone, and a poll comes in time and finds its row. */
  ghost predicate Undisturbed(s: State, e: Event, id: ExecutionId, waitTill: int, p: Polled)
    requires Enabled(s, e)
  {
    match e
    case Takeover => true
    case Poll(table, now) => Scheduled(table, id, waitTill) && (p.Between? ==> p.last <= now <= p.last + POLL_INTERVAL)
    case Fire(timer) => s.armed[timer].id != id
    case Start(x) => x != id
    case Stop(x) => x != id
    case StepDown => false
  }

  ghost predicate UndisturbedRun(s: State, events: seq<Event>, id: ExecutionId, waitTill: int, p: Polled)
    requires IsRun(s, events)
    decreases |events|
  {
    events != [] ==>
      && Undisturbed(s, events[0], id, waitTill, p)
      && UndisturbedRun(Step(s, events[0]), events[1..], id, waitTill, PolledAfter(p, events[..1]))
  }

  /**
   Not in the table until a poll finds the row upcoming; from then on armed for its time, or for the first
   poll if that is later.
   */
  ghost predicate InTime(s: State, id: ExecutionId, waitTill: int, p: Polled) {
    && (p.Between? ==> p.first <= p.last)
    && (p.Between? && waitTill <= p.last + 70000 ==>
          && (p.first <= waitTill ==> ArmedFor(s, id, waitTill))
          && (waitTill < p.first ==> ArmedFor(s, id, p.first)))
    && (p.Never? || waitTill > p.last + 70000 ==> id !in s.waiting)
  }

  lemma PollInTime(s: State, table: seq<Row>, now: int, id: ExecutionId, waitTill: int, p: Polled)
    requires Inv(s) && InTime(s, id, waitTill, p) && Scheduled(table, id, waitTill)
    requires p.Between? ==> p.last <= now <= p.last + POLL_INTERVAL
    ensures InTime(PollRows(s, table, now), id, waitTill, AfterPoll(p, now))
  {
    if p.Between? && waitTill <= p.last + LOOK_AHEAD {
      PollLeaves(s, table, now, id, if p.first <= waitTill then waitTill else p.first);
    } else {
      PollArms(s, table, now, id, waitTill);
    }
  }

  lemma StepInTime(s: State, e: Event, id: ExecutionId, waitTill: int, p: Polled)
    requires Inv(s) && Enabled(s, e) && InTime(s, id, waitTill, p) && Undisturbed(s, e, id, waitTill, p)
    ensures InTime(Step(s, e), id, waitTill, if e.Poll? then AfterPoll(p, e.now) else p)
  {
    if e.Poll? {
      PollInTime(s, e.table, e.now, id, waitTill, p);
    }
  }

  /**
   The look-ahead outlasts the interval: in every run that leaves the execution alone, a row that the
   first poll finds in time is armed for exactly its own time.
   */
  lemma {:induction false} NeverLate(s: State, events: seq<Event>, id: ExecutionId, waitTill: int, p: Polled)
    requires Inv(s) && IsRun(s, events) && InTime(s, id, waitTill, p) && UndisturbedRun(s, events, id, waitTill, p)
    ensures InTime(Final(s, events), id, waitTill, PolledAfter(p, events))
    decreases |events|
  {
    if events != [] {
      var e := events[0];
      StepKeeps(s, e);
      StepInTime(s, e, id, waitTill, p);
      assert PolledAfter(p, events[..1]) == if e.Poll? then AfterPoll(p, e.now) else p by {
        assert events[..1][1..] == [];
      }
      NeverLate(Step(s, e), events[1..], id, waitTill, PolledAfter(p, events[..1]));
    }
  }

  // ----- The class -----

  class WaitTracker {
    var waitingExecutions: map<ExecutionId, Timer>
    var mainTimer: Option<Timer>
    /** The timers of the process. */
    var armed: map<Timer, Deadline>
    var intervals: set<Timer>
    var nextTimer: Timer

    function View(): State
      reads this
    {
      State(waitingExecutions, armed, mainTimer, intervals, nextTimer)
    }

    constructor ()
      ensures View() == Initial()
    {
      waitingExecutions, mainTimer, armed, intervals, nextTimer := map[], None, map[], {}, 0;
    }

    method StartTracking()
      modifies this
      ensures View() == Track(old(View()))
      ensures old(Inv(View())) ==> Inv(View())
      ensures old(Inv(View())) ==> (Tracked(View()) <==> old(intervals) == {})
      ensures old(Tidy(View())) ==> Tidy(View())
    {
      mainTimer := Some(nextTimer);
      intervals := intervals + {nextTimer};
      nextTimer := nextTimer + 1;
    }

    method GetWaitingExecutions(executions: seq<Row>, now: int)
      modifies this
      ensures View() == Step(old(View()), Poll(executions, now))
      ensures old(Inv(View())) ==> Inv(View()) && ArmsWhatIsDue(old(View()), View(), executions, now)
    {
      var i := 0;
      while i < |executions|
        invariant 0 <= i <= |executions|
        invariant View() == PollRows(old(View()), executions[..i], now)
      {
        assert executions[..i + 1][..i] == executions[..i];
        if Upcoming(executions[i], now) {
          var executionId := executions[i].id;
          if executionId !in waitingExecutions {
            var triggerTime := executions[i].waitTill - now;
            waitingExecutions := waitingExecutions[executionId := nextTimer];
            armed := armed[nextTimer := Deadline(executionId, now + if triggerTime < 0 then 0 else triggerTime)];
            nextTimer := nextTimer + 1;
          }
        }
        i := i + 1;
      }
      assert executions[..i] == executions;
      if old(Inv(View())) {
        PollKeeps(old(View()), executions, now);
        PollMeans(old(View()), executions, now);
      }
    }

    method StopExecution(executionId: ExecutionId)
      modifies this
      ensures View() == Step(old(View()), Stop(executionId))
      ensures waitingExecutions == old(waitingExecutions) - {executionId}
      ensures executionId !in old(waitingExecutions) ==> armed == old(armed)
      ensures executionId in old(waitingExecutions) ==> armed == old(armed) - {old(waitingExecutions)[executionId]}
      ensures old(Inv(View())) ==> Inv(View())
      ensures old(Inv(View()) && Tidy(View())) ==> Tidy(View()) && Untimed(View(), executionId)
    {
      if executionId !in waitingExecutions {
        return;
      }
      armed := armed - {waitingExecutions[executionId]};
      waitingExecutions := waitingExecutions - {executionId};
    }

    /** The first statement of `startExecution`: the entry goes, its timer does not. */
    method StartExecution(executionId: ExecutionId)
      modifies this
      ensures View() == Step(old(View()), Start(executionId))
      ensures waitingExecutions == old(waitingExecutions) - {executionId} && armed == old(armed)
      ensures old(Inv(View())) ==> Inv(View())
      ensures old(Inv(View()) && Tidy(View())) ==>
        (Untimed(View(), executionId) <==> !old(Orphans(View(), Start(executionId))))
    {
      waitingExecutions := waitingExecutions - {executionId};
    }

    /** A timer goes off. */
    method OnTimer(timer: Timer)
      requires timer in armed
      modifies this
      ensures View() == Step(old(View()), Fire(timer))
      ensures waitingExecutions == old(waitingExecutions) - {old(armed)[timer].id} && armed == old(armed) - {timer}
      ensures old(Inv(View())) ==> Inv(View())
      ensures old(Inv(View()) && Tidy(View())) ==> Tidy(View()) && Untimed(View(), old(armed)[timer].id)
    {
      var executionId := armed[timer].id;
      armed := armed - {timer};
      StartExecution(executionId);
    }

    method StopTracking()
      modifies this
      ensures View() == Step(old(View()), StepDown)
      ensures old(Inv(View()) && Tidy(View())) && mainTimer.Some? ==> armed == map[]
      ensures old(Inv(View())) && mainTimer.Some? ==> (intervals == {} <==> old(Tracked(View())))
    {
      if mainTimer.None? {
        return;
      }
      intervals := intervals - {mainTimer.value};
      var todo := waitingExecutions.Keys;
      ghost var cleared := {};
      while todo != {}
        invariant todo <= waitingExecutions.Keys && waitingExecutions == old(waitingExecutions)
        invariant mainTimer == old(mainTimer) && nextTimer == old(nextTimer)
        invariant intervals == old(intervals) - {mainTimer.value}
        invariant armed == old(armed) - cleared
        invariant cleared <= waitingExecutions.Values
        invariant forall id :: id in waitingExecutions && id !in todo ==> waitingExecutions[id] in cleared
      {
        var executionId :| executionId in todo;
        armed := armed - {waitingExecutions[executionId]};
        cleared := cleared + {waitingExecutions[executionId]};
        todo := todo - {executionId};
      }
      assert cleared == waitingExecutions.Values;
      if old(Inv(View())) {
        StepDownSilences(old(View()));
      }
    }
  }
}
