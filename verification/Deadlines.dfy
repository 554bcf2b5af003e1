/**
 Deadlines of executions and nested sub-workflows: packages/cli/src/workflow-runner.ts and
 packages/cli/src/workflow-execute-additional-data.ts. Times are milliseconds, settings seconds.
 */
module Deadlines {
  import opened Wrappers

  const MAX_SAFE_INTEGER: int := 9007199254740991

  datatype Config = Config(timeout: int, maxTimeout: int)

  function Min(a: int, b: int): int {
    if a < b then a else b
  }

  function Max(a: int, b: int): int {
    if a < b then b else a
  }

  // ----- The soft deadline -----

  /** The timeout in force for a root execution; zero or less means none. */
  function WorkflowTimeout(config: Config, setting: Option<int>): int {
    var t := match setting case Some(s) => s case None => config.timeout;
    if t > 0 then Min(t, config.maxTimeout) else t
  }

  /**
   A timeout of the workflow's own goes before the configured one, even when it is zero or negative and
   so means none; a positive one is cut to the configured maximum.
   */
  lemma TimeoutInForce(config: Config, setting: Option<int>, now: int)
    ensures forall own :: setting == Some(own) ==>
      && (own > config.maxTimeout && own > 0 ==> WorkflowTimeout(config, setting) == config.maxTimeout)
      && (own <= config.maxTimeout || own <= 0 ==> WorkflowTimeout(config, setting) == own)
      && (own <= 0 ==> RootDeadline(config, setting, now) == None)
    ensures setting == None ==> WorkflowTimeout(config, setting) == WorkflowTimeout(config, Some(config.timeout))
    ensures forall d :: RootDeadline(config, setting, now) == Some(d) ==>
      d == now + 1000 * WorkflowTimeout(config, setting)
    ensures WorkflowTimeout(config, setting) > 0 ==> RootDeadline(config, setting, now).Some?
  {
  }

  function RootDeadline(config: Config, setting: Option<int>, now: int): Option<int> {
    var t := WorkflowTimeout(config, setting);
    if t <= 0 then None else Some(now + t * 1000)
  }

  /** A zero timestamp counts as no timestamp, as in the source. */
  function SubDeadline(parent: Option<int>, setting: Option<int>, start: int): Option<int> {
    if setting.Some? && setting.value > 0 then
      var limit := if parent.Some? && parent.value != 0 then parent.value else MAX_SAFE_INTEGER;
      Some(Min(limit, start + setting.value * 1000))
    else parent
  }

  /** `d` respects the parent's deadline and the own timeout, where there are any. */
  predicate Bounded(d: Option<int>, parent: Option<int>, setting: Option<int>, start: int) {
    && NoLater(d, parent)
    && (setting.Some? && setting.value > 0 ==> NoLater(d, Some(start + setting.value * 1000)))
  }

  predicate Representable(setting: Option<int>, start: int) {
    setting.Some? ==> start + setting.value * 1000 <= MAX_SAFE_INTEGER
  }

  /** The latest deadline within both bounds. */
  method SubworkflowDeadline(parent: Option<int>, setting: Option<int>, start: int) returns (deadline: Option<int>)
    ensures deadline == SubDeadline(parent, setting, start)
    ensures Positive(parent) ==> Bounded(deadline, parent, setting, start)
    ensures forall d {:trigger NoLater(d, deadline)} ::
      Positive(parent) && Representable(setting, start) && Bounded(d, parent, setting, start) ==> NoLater(d, deadline)
  {
    deadline := parent;
    if setting.Some? && setting.value > 0 {
      var limit := MAX_SAFE_INTEGER;
      if parent.Some? && parent.value != 0 {
        limit := parent.value;
      }
      deadline := Some(if limit < start + setting.value * 1000 then limit else start + setting.value * 1000);
    }
  }

  /** One nested call: the sub-workflow's own setting and the time it starts. */
  datatype Call = Call(setting: Option<int>, start: int)

  /** The deadlines along a chain of nested calls, the caller's first. */
  function Chain(parent: Option<int>, calls: seq<Call>): seq<Option<int>>
    decreases |calls|
  {
    [parent] + if calls == [] then [] else Chain(SubDeadline(parent, calls[0].setting, calls[0].start), calls[1..])
  }

  predicate NoLater(a: Option<int>, b: Option<int>) {
    b.Some? ==> a.Some? && a.value <= b.value
  }

  ghost predicate PositiveStarts(calls: seq<Call>) {
    forall i :: 0 <= i < |calls| ==> calls[i].start >= 0
  }

  predicate Positive(d: Option<int>) {
    d.Some? ==> d.value > 0
  }

  /** A descendant's deadline is never later than that of any ancestor, at any depth. */
  lemma {:induction false} ChainNeverLater(parent: Option<int>, calls: seq<Call>, i: nat, j: nat)
    requires Positive(parent) && PositiveStarts(calls) && i <= j < |Chain(parent, calls)|
    ensures NoLater(Chain(parent, calls)[j], Chain(parent, calls)[i]) && Positive(Chain(parent, calls)[j])
    decreases |calls|
  {
    if j > 0 {
      var next := SubDeadline(parent, calls[0].setting, calls[0].start);
      ChainNeverLater(next, calls[1..], if i == 0 then 0 else i - 1, j - 1);
    }
  }

  /** When the root has a timeout, the whole tree of calls ends within the configured maximum. */
  lemma TreeEndsInTime(config: Config, setting: Option<int>, start: int, calls: seq<Call>, j: nat)
    requires config.maxTimeout > 0 && start >= 0 && PositiveStarts(calls)
    requires WorkflowTimeout(config, setting) > 0 && j < |Chain(RootDeadline(config, setting, start), calls)|
    ensures var d := Chain(RootDeadline(config, setting, start), calls)[j];
      d.Some? && d.value <= start + config.maxTimeout * 1000
  {
    ChainNeverLater(RootDeadline(config, setting, start), calls, 0, j);
  }

  /** A sub-workflow with a timeout of its own has a deadline even below a root without one. */
  lemma OwnTimeoutBinds(parent: Option<int>, calls: seq<Call>, i: nat, j: nat)
    requires Positive(parent) && PositiveStarts(calls) && i < |calls| && i < j < |Chain(parent, calls)|
    requires calls[i].setting.Some? && calls[i].setting.value > 0
    ensures var d := Chain(parent, calls)[j];
      d.Some? && d.value <= calls[i].start + calls[i].setting.value * 1000
  {
    ChainNeverLater(parent, calls, i + 1, j);
    ChainAt(parent, calls, i);
  }

  lemma {:induction false} ChainAt(parent: Option<int>, calls: seq<Call>, i: nat)
    requires i < |calls|
    ensures |Chain(parent, calls)| == |calls| + 1
    ensures Chain(parent, calls)[i + 1] == SubDeadline(Chain(parent, calls)[i], calls[i].setting, calls[i].start)
    decreases |calls|
  {
    var next := SubDeadline(parent, calls[0].setting, calls[0].start);
    if i > 0 {
      ChainAt(next, calls[1..], i - 1);
    } else if |calls| > 1 {
      ChainAt(next, calls[1..], 0);
    }
  }

  // ----- The stop timer -----

  /** What `runMainProcess` does about stopping: nothing, stop at once, or arm a timer for a time. */
  datatype StopTimer = NoTimer | StopNow | FireAt(time: int)

  /** When the execution is stopped, if at all. */
  function StopTime(timer: StopTimer, now: int): Option<int> {
    match timer
    case NoTimer => None
    case StopNow => Some(now)
    case FireAt(time) => Some(time)
  }

  /**
   The time that passes between the two readings decides whether the hard stop comes no later than the
   soft deadline: none may pass on a fresh start, and no more than the limit on a resume.
   */
  predicate InTimeForSoft(config: Config, setting: Option<int>, startedAt: Option<int>, softAt: int, now: int) {
    var limit := WorkflowTimeout(config, setting) * 1000;
    match startedAt
    case None => now <= softAt
    case Some(t) => t <= softAt && now <= softAt + limit
  }

  /**
   `startedAt` is set on a resume. The limit then counts from the first start, not from the resume. The
   clock was read at `softAt` for the soft deadline, and is read again, later, for the timer.
   */
  method ArmStopTimer(config: Config, setting: Option<int>, startedAt: Option<int>, softAt: int, now: int)
      returns (timer: StopTimer)
    requires config.maxTimeout > 0 && softAt <= now
    ensures WorkflowTimeout(config, setting) <= 0 <==> timer == NoTimer
    ensures timer != NoTimer ==>
      var limit := WorkflowTimeout(config, setting) * 1000;
      StopTime(timer, now) == Some(match startedAt case Some(t) => Max(t + limit, now) case None => now + limit)
    ensures timer == StopNow <==>
      timer != NoTimer && startedAt.Some? && startedAt.value + WorkflowTimeout(config, setting) * 1000 <= now
    ensures timer != NoTimer ==>
      (NoLater(StopTime(timer, now), RootDeadline(config, setting, softAt)) <==>
        InTimeForSoft(config, setting, startedAt, softAt, now))
  {
    var workflowTimeout := match setting case Some(s) => s case None => config.timeout;
    if workflowTimeout > 0 {
      workflowTimeout := Min(workflowTimeout, config.maxTimeout);
    }
    if workflowTimeout <= 0 {
      return NoTimer;
    }
    var timeout := Min(workflowTimeout, config.maxTimeout) * 1000;
    if startedAt.Some? {
      timeout := Max(timeout - (now - startedAt.value), 0);
    }
    if timeout == 0 {
      return StopNow;
    }
    return FireAt(now + timeout);
  }
}
