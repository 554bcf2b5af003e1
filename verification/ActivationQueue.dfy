/**
 The queue of failed activations of a single main instance, retried with a capped doubling wait:
 packages/cli/src/active-workflow-manager.ts, activation-errors.service.ts and constants.ts.
 */
module ActivationQueue {
  type WorkflowId = string
  type Timer = nat

  const INITIAL_TIMEOUT: nat := 1000
  const MAX_TIMEOUT: nat := 24 * 60 * 60 * 1000

  /** `failures` counts the retries that have failed since the workflow was queued. */
  datatype Queued = Queued(lastTimeout: nat, timer: Timer, failures: nat)

  /** A timer set for one workflow, and the wait it was set for. */
  datatype Alarm = Alarm(id: WorkflowId, wait: nat)

  /** `armed` holds the timers that have neither fired nor been cleared. */
  datatype State = State(
    queued: map<WorkflowId, Queued>,
    armed: map<Timer, Alarm>,
    errors: map<WorkflowId, string>,
    nextTimer: Timer)

  /**
   `Unknown` is the error for a workflow that is not there, before anything is tried. `Skipped` is a
   workflow that is no longer active at start-up. `LateFailure` is an error after the workflow has been
   taken off the queue again.
   */
  datatype AddResult =
    | Unknown
    | Skipped
    | Activated
    | EarlyFailure(message: string)
    | LateFailure(message: string)

  predicate Threw(result: AddResult) {
    result.Unknown? || result.EarlyFailure? || result.LateFailure?
  }

  datatype Event =
    | Add(id: WorkflowId, result: AddResult)
    | Startup(id: WorkflowId, result: AddResult, authorization: bool)
    | TriggerFailed(id: WorkflowId, message: string)
    | Retry(timer: Timer, result: AddResult)
    | Remove(id: WorkflowId)
    | RemoveAll
    | ClearErrors

  // ----- What the operations do -----

  function Dequeue(s: State, id: WorkflowId): State {
    if id in s.queued then s.(queued := s.queued - {id}, armed := s.armed - {s.queued[id].timer}) else s
  }

  function Arm(s: State, id: WorkflowId, wait: nat, failures: nat): State {
    s.(queued := s.queued[id := Queued(wait, s.nextTimer, failures)],
       armed := s.armed[s.nextTimer := Alarm(id, wait)],
       nextTimer := s.nextTimer + 1)
  }

  function Enqueue(s: State, id: WorkflowId): State {
    Arm(Dequeue(s, id), id, INITIAL_TIMEOUT, 0)
  }

  function Register(s: State, id: WorkflowId, message: string): State {
    s.(errors := s.errors[id := message])
  }

  function AfterAdd(s: State, id: WorkflowId, result: AddResult): State {
    match result
    case Unknown => s
    case Skipped => s
    case Activated => Dequeue(s, id).(errors := s.errors - {id})
    case EarlyFailure(message) => Register(s, id, message)
    case LateFailure(message) => Register(Dequeue(s, id), id, message)
  }

  function Backoff(last: nat): nat {
    if last < MAX_TIMEOUT then (if last * 2 < MAX_TIMEOUT then last * 2 else MAX_TIMEOUT) else last
  }

  /** The timer is gone once it fires. A retry that fails late finds its queue entry missing and gives up. */
  function AfterRetry(s: State, timer: Timer, result: AddResult): State
    requires timer in s.armed
  {
    var id := s.armed[timer].id;
    var s' := AfterAdd(s.(armed := s.armed - {timer}), id, result);
    if !Threw(result) || id !in s'.queued then s' else
      Arm(s', id, Backoff(s'.queued[id].lastTimeout), s'.queued[id].failures + 1)
  }

  /**
   A start-up failure is that of a workflow that was found. A retry works on the workflow as it was when
   it was queued, with its active version.
   */
  ghost predicate Enabled(s: State, e: Event) {
    match e
    case Startup(_, result, _) => Threw(result) && !result.Unknown?
    case Retry(timer, result) => timer in s.armed && !result.Skipped?
    case _ => true
  }

  function Step(s: State, e: Event): State
    requires e.Retry? ==> e.timer in s.armed
  {
    match e
    case Add(id, result) => AfterAdd(s, id, result)
    case Startup(id, result, authorization) =>
      if authorization then AfterAdd(s, id, result) else Enqueue(AfterAdd(s, id, result), id)
    case TriggerFailed(id, message) => Enqueue(Register(s, id, message), id)
    case Retry(timer, result) => AfterRetry(s, timer, result)
    case Remove(id) => Dequeue(s, id).(errors := s.errors - {id})
    case RemoveAll => s.(queued := map[], armed := s.armed - set id | id in s.queued :: s.queued[id].timer)
    case ClearErrors => s.(errors := map[])
  }

  function Initial(): State {
    State(map[], map[], map[], 0)
  }

  // ----- The wait -----

  function Pow2(k: nat): nat {
    if k == 0 then 1 else 2 * Pow2(k - 1)
  }

  /** The wait after `k` failed retries, in closed form. */
  function Wait(k: nat): nat {
    if INITIAL_TIMEOUT * Pow2(k) < MAX_TIMEOUT then INITIAL_TIMEOUT * Pow2(k) else MAX_TIMEOUT
  }

  lemma BackoffDoubles(k: nat)
    ensures Backoff(Wait(k)) == Wait(k + 1)
  {
  }

  lemma {:induction false} Pow2Grows(j: nat, k: nat)
    requires j <= k
    ensures Pow2(j) <= Pow2(k)
    decreases k
  {
    if j < k {
      Pow2Grows(j, k - 1);
    }
  }

  /** The wait is at its cap from the seventeenth failure on, and not before. */
  lemma CappedFrom17(k: nat)
    ensures Wait(k) == MAX_TIMEOUT <==> k >= 17
  {
    assert Pow2(4) == 16 && Pow2(8) == 256 by {
      assert Pow2(2) == 4;
      assert Pow2(6) == 64;
    }
    assert Pow2(12) == 4096 by {
      assert Pow2(10) == 1024;
    }
    assert Pow2(16) == 65536 && Pow2(17) == 131072 by {
      assert Pow2(14) == 16384;
    }
    if k >= 17 {
      Pow2Grows(17, k);
    } else {
      Pow2Grows(k, 16);
    }
  }

  // ----- What holds in every state -----

  /** One armed timer for each queued workflow, set for its wait, and none for anybody else. */
  ghost predicate TimersMatch(s: State) {
    && (forall id :: id in s.queued ==>
          && s.queued[id].timer in s.armed
          && s.armed[s.queued[id].timer] == Alarm(id, s.queued[id].lastTimeout))
    && (forall t :: t in s.armed ==> t < s.nextTimer && s.armed[t].id in s.queued && s.queued[s.armed[t].id].timer == t)
  }

  ghost predicate WaitsMatch(s: State) {
    forall id :: id in s.queued ==> s.queued[id].lastTimeout == Wait(s.queued[id].failures)
  }

  ghost predicate ErrorsKnown(s: State) {
    forall id :: id in s.queued ==> id in s.errors
  }

  ghost predicate Inv(s: State) {
    TimersMatch(s) && WaitsMatch(s)
  }

  // Timers and waits are kept for different reasons, so each operation is gone through twice.

  lemma DequeueKeeps(s: State, id: WorkflowId)
    ensures id !in Dequeue(s, id).queued
    ensures TimersMatch(s) ==> TimersMatch(Dequeue(s, id)) && forall t :: t in Dequeue(s, id).armed ==>
      s.armed[t].id != id
    ensures WaitsMatch(s) ==> WaitsMatch(Dequeue(s, id))
  {
  }

  lemma ArmKeeps(s: State, id: WorkflowId, wait: nat, failures: nat)
    requires id !in s.queued
    ensures TimersMatch(s) ==> TimersMatch(Arm(s, id, wait, failures))
    ensures WaitsMatch(s) && wait == Wait(failures) ==> WaitsMatch(Arm(s, id, wait, failures))
  {
  }

  lemma EnqueueKeeps(s: State, id: WorkflowId)
    requires Inv(s)
    ensures Inv(Enqueue(s, id))
  {
    DequeueKeeps(s, id);
    assert Wait(0) == INITIAL_TIMEOUT;
    ArmKeeps(Dequeue(s, id), id, INITIAL_TIMEOUT, 0);
  }

  lemma AddKeeps(s: State, id: WorkflowId, result: AddResult)
    ensures TimersMatch(s) ==> TimersMatch(AfterAdd(s, id, result))
    ensures WaitsMatch(s) ==> WaitsMatch(AfterAdd(s, id, result))
    ensures ErrorsKnown(s) ==> ErrorsKnown(AfterAdd(s, id, result))
  {
    DequeueKeeps(s, id);
  }

  /** A fired timer that is then cleared, or not: the queue without the workflow is the same. */
  lemma FiredTimer(s: State, timer: Timer)
    requires TimersMatch(s) && timer in s.armed
    ensures var id := s.armed[timer].id;
      && id in s.queued && s.queued[id].timer == timer
      && Dequeue(s.(armed := s.armed - {timer}), id) == Dequeue(s, id)
      && s.(armed := s.armed - {timer}, queued := s.queued - {id}) == Dequeue(s, id)
  {
    assert s.armed - {timer} - {timer} == s.armed - {timer};
  }

  /** Arming a queued workflow whose timer has fired is arming it anew. */
  lemma Rearm(s: State, timer: Timer, wait: nat, failures: nat)
    requires TimersMatch(s) && timer in s.armed
    ensures var id := s.armed[timer].id;
      Arm(s.(armed := s.armed - {timer}), id, wait, failures) == Again(s, id, wait, failures)
  {
    FiredTimer(s, timer);
    var id, q := s.armed[timer].id, Queued(wait, s.nextTimer, failures);
    assert (s.queued - {id})[id := q] == s.queued[id := q];
  }

  function Again(s: State, id: WorkflowId, wait: nat, failures: nat): State {
    Arm(Dequeue(s, id), id, wait, failures)
  }

  /** What a retry comes to, in terms of the queue without the workflow. */
  function RetryResult(s: State, id: WorkflowId, result: AddResult, wait: nat, failures: nat): State {
    match result
    case Unknown => Again(s, id, wait, failures)
    case EarlyFailure(message) => Register(Again(s, id, wait, failures), id, message)
    case _ => AfterAdd(s, id, result)
  }

  lemma RetryIs(s: State, timer: Timer, result: AddResult)
    requires TimersMatch(s) && timer in s.armed && !result.Skipped?
    ensures var id := s.armed[timer].id;
      && id in s.queued
      && AfterRetry(s, timer, result)
         == RetryResult(s, id, result, Backoff(s.queued[id].lastTimeout), s.queued[id].failures + 1)
  {
    var id := s.armed[timer].id;
    FiredTimer(s, timer);
    Rearm(s, timer, Backoff(s.queued[id].lastTimeout), s.queued[id].failures + 1);
  }

  lemma AgainKeeps(s: State, id: WorkflowId, wait: nat, failures: nat)
    requires id in s.queued
    ensures TimersMatch(s) ==> TimersMatch(Again(s, id, wait, failures))
    ensures WaitsMatch(s) && wait == Wait(failures) ==> WaitsMatch(Again(s, id, wait, failures))
    ensures forall x :: x in Again(s, id, wait, failures).queued <==> x in s.queued
    ensures Again(s, id, wait, failures).errors == s.errors
  {
    DequeueKeeps(s, id);
    ArmKeeps(Dequeue(s, id), id, wait, failures);
  }

  lemma ResultTimers(s: State, id: WorkflowId, result: AddResult, wait: nat, failures: nat)
    requires TimersMatch(s) && id in s.queued
    ensures TimersMatch(RetryResult(s, id, result, wait, failures))
  {
    AgainKeeps(s, id, wait, failures);
    AddKeeps(s, id, result);
  }

  lemma ResultWaits(s: State, id: WorkflowId, result: AddResult, wait: nat, failures: nat)
    requires WaitsMatch(s) && id in s.queued && wait == Wait(failures)
    ensures WaitsMatch(RetryResult(s, id, result, wait, failures))
  {
    AgainKeeps(s, id, wait, failures);
    AddKeeps(s, id, result);
  }

  lemma ResultErrors(s: State, id: WorkflowId, result: AddResult, wait: nat, failures: nat)
    requires ErrorsKnown(s) && id in s.queued
    ensures ErrorsKnown(RetryResult(s, id, result, wait, failures))
  {
    AgainKeeps(s, id, wait, failures);
    AddKeeps(s, id, result);
  }

  lemma RetryTimers(s: State, timer: Timer, result: AddResult)
    requires TimersMatch(s) && timer in s.armed && !result.Skipped?
    ensures TimersMatch(AfterRetry(s, timer, result))
    ensures ErrorsKnown(s) ==> ErrorsKnown(AfterRetry(s, timer, result))
  {
    var id := s.armed[timer].id;
    RetryIs(s, timer, result);
    ResultTimers(s, id, result, Backoff(s.queued[id].lastTimeout), s.queued[id].failures + 1);
    if ErrorsKnown(s) {
      ResultErrors(s, id, result, Backoff(s.queued[id].lastTimeout), s.queued[id].failures + 1);
    }
  }

  lemma RetryWaits(s: State, timer: Timer, result: AddResult)
    requires Inv(s) && timer in s.armed && !result.Skipped?
    ensures WaitsMatch(AfterRetry(s, timer, result))
  {
    var id := s.armed[timer].id;
    RetryIs(s, timer, result);
    BackoffDoubles(s.queued[id].failures);
    ResultWaits(s, id, result, Backoff(s.queued[id].lastTimeout), s.queued[id].failures + 1);
  }

  lemma FailedRetry(s: State, timer: Timer, message: string)
    requires Inv(s) && timer in s.armed
    ensures var s', id := AfterRetry(s, timer, EarlyFailure(message)), s.armed[timer].id;
      && (forall x :: x in s'.queued <==> x in s.queued)
      && s'.queued[id].failures == s.queued[id].failures + 1
      && s'.queued[id].lastTimeout == Wait(s.queued[id].failures + 1)
  {
    var id := s.armed[timer].id;
    RetryIs(s, timer, EarlyFailure(message));
    BackoffDoubles(s.queued[id].failures);
    AgainKeeps(s, id, Backoff(s.queued[id].lastTimeout), s.queued[id].failures + 1);
  }

  /** A retry keeps the queue; if it fails, the workflow has one failure more and the wait that goes with it. */
  lemma RetryKeeps(s: State, timer: Timer, result: AddResult)
    requires Inv(s) && timer in s.armed && !result.Skipped?
    ensures var s', id := AfterRetry(s, timer, result), s.armed[timer].id;
      && Inv(s') && (ErrorsKnown(s) ==> ErrorsKnown(s'))
      && (result.EarlyFailure? ==>
            && (forall x :: x in s'.queued <==> x in s.queued)
            && s'.queued[id].failures == s.queued[id].failures + 1
            && s'.queued[id].lastTimeout == Wait(s.queued[id].failures + 1))
  {
    RetryTimers(s, timer, result);
    RetryWaits(s, timer, result);
    if result.EarlyFailure? {
      FailedRetry(s, timer, result.message);
    }
  }

  /** A retry that were skipped would leave its workflow queued with no timer left to try it again. */
  lemma SkippedRetryStrands(s: State, timer: Timer)
    requires Inv(s) && timer in s.armed
    ensures var id := s.armed[timer].id; var s' := AfterRetry(s, timer, Skipped);
      id in s'.queued && (forall t :: t in s'.armed ==> s'.armed[t].id != id) && !Inv(s')
  {
  }

  lemma RetryExactly(s: State, timer: Timer, result: AddResult)
    requires Inv(s) && timer in s.armed
    ensures Inv(AfterRetry(s, timer, result)) <==> !result.Skipped?
  {
    if result.Skipped? {
      SkippedRetryStrands(s, timer);
    } else {
      RetryKeeps(s, timer, result);
    }
  }

  lemma RemoveAllKeeps(s: State)
    requires Inv(s)
    ensures Step(s, RemoveAll).armed == map[] && Inv(Step(s, RemoveAll))
  {
    forall t | t in s.armed ensures exists id :: id in s.queued && s.queued[id].timer == t {
      assert s.queued[s.armed[t].id].timer == t;
    }
  }

  lemma StepKeeps(s: State, e: Event)
    requires Inv(s) && Enabled(s, e)
    ensures Inv(Step(s, e))
    ensures ErrorsKnown(s) && !e.ClearErrors? ==> ErrorsKnown(Step(s, e))
  {
    match e
    case Add(id, result) => AddKeeps(s, id, result);
    case Startup(id, result, authorization) =>
      AddKeeps(s, id, result);
      EnqueueKeeps(AfterAdd(s, id, result), id);
    case TriggerFailed(id, message) => EnqueueKeeps(Register(s, id, message), id);
    case Retry(timer, result) => RetryKeeps(s, timer, result);
    case Remove(id) => DequeueKeeps(s, id);
    case RemoveAll => RemoveAllKeeps(s);
    case ClearErrors =>
  }

  // ----- What the operations mean for the workflow and for all others -----

  ghost predicate OffQueue(s: State, id: WorkflowId) {
    id !in s.queued && forall t :: t in s.armed ==> s.armed[t].id != id
  }

  /** The workflow is queued with exactly one timer, set for `wait`. */
  ghost predicate Waits(s: State, id: WorkflowId, wait: nat) {
    && id in s.queued && s.queued[id].lastTimeout == wait
    && s.queued[id].timer in s.armed && s.armed[s.queued[id].timer] == Alarm(id, wait)
    && forall t :: t in s.armed && s.armed[t].id == id ==> t == s.queued[id].timer
  }

  ghost predicate Failed(s: State, id: WorkflowId, message: string) {
    id in s.errors && s.errors[id] == message
  }

  /** Queue entries, timers and errors of all other workflows are as before. */
  ghost predicate OthersKept(s: State, s': State, id: WorkflowId) {
    && s'.queued - {id} == s.queued - {id} && s'.errors - {id} == s.errors - {id}
    && (forall t :: t in s.armed && s.armed[t].id != id ==> t in s'.armed && s'.armed[t] == s.armed[t])
    && (forall t :: t in s'.armed && s'.armed[t].id != id ==> t in s.armed && s.armed[t] == s'.armed[t])
  }

  lemma OthersTwice(s: State, t: State, u: State, id: WorkflowId)
    requires OthersKept(s, t, id) && OthersKept(t, u, id)
    ensures OthersKept(s, u, id)
  {
  }

  lemma DequeueMeans(s: State, id: WorkflowId)
    requires TimersMatch(s)
    ensures OffQueue(Dequeue(s, id), id) && OthersKept(s, Dequeue(s, id), id)
    ensures Dequeue(s, id).errors == s.errors
  {
  }

  lemma EnqueueMeans(s: State, id: WorkflowId)
    requires TimersMatch(s)
    ensures Waits(Enqueue(s, id), id, 1000) && OthersKept(s, Enqueue(s, id), id)
    ensures Enqueue(s, id).errors == s.errors && TimersMatch(Enqueue(s, id))
  {
    var t := Dequeue(s, id);
    DequeueMeans(s, id);
    DequeueKeeps(s, id);
    ArmMeans(t, id, 1000, 0);
    OthersTwice(s, t, Enqueue(s, id), id);
  }

  lemma ArmMeans(s: State, id: WorkflowId, wait: nat, failures: nat)
    requires TimersMatch(s) && OffQueue(s, id)
    ensures var s' := Arm(s, id, wait, failures);
      Waits(s', id, wait) && OthersKept(s, s', id) && s'.errors == s.errors && TimersMatch(s')
  {
    ArmKeeps(s, id, wait, failures);
  }

  lemma AddMeans(s: State, id: WorkflowId, result: AddResult)
    requires TimersMatch(s)
    ensures var s' := AfterAdd(s, id, result);
      && OthersKept(s, s', id)
      && (result.Activated? || result.LateFailure? ==> OffQueue(s', id))
      && (result.Activated? ==> id !in s'.errors)
      && (result.EarlyFailure? || result.LateFailure? ==> Failed(s', id, result.message))
      && (result.EarlyFailure? ==> s'.queued == s.queued && s'.armed == s.armed)
      && (result.Unknown? || result.Skipped? ==> s' == s)
  {
    DequeueMeans(s, id);
  }

  lemma RemoveMeans(s: State, id: WorkflowId)
    requires TimersMatch(s)
    ensures var s' := Step(s, Remove(id)); OffQueue(s', id) && id !in s'.errors && OthersKept(s, s', id)
  {
    DequeueMeans(s, id);
  }

  lemma TriggerFailedMeans(s: State, id: WorkflowId, message: string)
    requires TimersMatch(s)
    ensures var s' := Step(s, TriggerFailed(id, message));
      Waits(s', id, 1000) && Failed(s', id, message) && OthersKept(s, s', id)
  {
    EnqueueMeans(Register(s, id, message), id);
    OthersTwice(s, Register(s, id, message), Step(s, TriggerFailed(id, message)), id);
  }

  /** A failure at start-up: the error is registered, and the workflow queued unless it is an authorization error. */
  lemma StartupMeans(s: State, id: WorkflowId, result: AddResult, authorization: bool)
    requires TimersMatch(s) && (result.EarlyFailure? || result.LateFailure?)
    ensures var s' := Step(s, Startup(id, result, authorization));
      && Failed(s', id, result.message) && OthersKept(s, s', id)
      && (!authorization ==> Waits(s', id, 1000))
      && (authorization && result.EarlyFailure? ==> s'.queued == s.queued && s'.armed == s.armed)
      && (authorization && result.LateFailure? ==> OffQueue(s', id))
  {
    var t := AfterAdd(s, id, result);
    AddMeans(s, id, result);
    AddKeeps(s, id, result);
    if !authorization {
      EnqueueMeans(t, id);
      OthersTwice(s, t, Step(s, Startup(id, result, authorization)), id);
    }
  }

  function Doubled(wait: nat): nat {
    if 2 * wait < 86400000 then 2 * wait else 86400000
  }

  /** After a retry: active, off the queue with an error, or queued again with twice the wait, up to a day. */
  ghost predicate Retried(s: State, s': State, a: Alarm, result: AddResult) {
    && OthersKept(s, s', a.id)
    && (result.Activated? ==> OffQueue(s', a.id) && a.id !in s'.errors)
    && (result.LateFailure? ==> OffQueue(s', a.id) && Failed(s', a.id, result.message))
    && (result.EarlyFailure? ==> Waits(s', a.id, Doubled(a.wait)) && Failed(s', a.id, result.message))
    && (result.Unknown? ==> Waits(s', a.id, Doubled(a.wait)) && s'.errors == s.errors)
  }

  lemma AgainMeans(s: State, id: WorkflowId, wait: nat, failures: nat)
    requires TimersMatch(s)
    ensures var s' := Again(s, id, wait, failures);
      Waits(s', id, wait) && OthersKept(s, s', id) && s'.errors == s.errors
  {
    var t := Dequeue(s, id);
    DequeueMeans(s, id);
    DequeueKeeps(s, id);
    ArmMeans(t, id, wait, failures);
    OthersTwice(s, t, Again(s, id, wait, failures), id);
  }

  lemma ResultMeans(s: State, id: WorkflowId, last: nat, result: AddResult, failures: nat)
    requires TimersMatch(s) && !result.Skipped?
    ensures Retried(s, RetryResult(s, id, result, Doubled(last), failures), Alarm(id, last), result)
  {
    if result.Unknown? || result.EarlyFailure? {
      AgainMeans(s, id, Doubled(last), failures);
    } else {
      AddMeans(s, id, result);
    }
  }

  lemma RetryMeans(s: State, timer: Timer, result: AddResult)
    requires TimersMatch(s) && timer in s.armed && !result.Skipped?
    requires Backoff(s.armed[timer].wait) == Doubled(s.armed[timer].wait)
    ensures Retried(s, AfterRetry(s, timer, result), s.armed[timer], result)
  {
    var id := s.armed[timer].id;
    RetryIs(s, timer, result);
    ResultMeans(s, id, s.armed[timer].wait, result, s.queued[id].failures + 1);
  }

  lemma RetryOutcome(s: State, timer: Timer, result: AddResult)
    requires Inv(s) && timer in s.armed
    ensures Inv(AfterRetry(s, timer, result)) <==> !result.Skipped?
    ensures !result.Skipped? ==> Retried(s, AfterRetry(s, timer, result), s.armed[timer], result)
  {
    RetryExactly(s, timer, result);
    WaitDoubles(s, timer);
    if !result.Skipped? {
      RetryMeans(s, timer, result);
    }
  }

  lemma WaitDoubles(s: State, timer: Timer)
    requires Inv(s) && timer in s.armed
    ensures Backoff(s.armed[timer].wait) == Doubled(s.armed[timer].wait)
  {
    BackoffMeans(s.queued[s.armed[timer].id].failures);
  }

  lemma BackoffMeans(k: nat)
    ensures Backoff(Wait(k)) == Doubled(Wait(k))
  {
  }

  ghost predicate IsRun(s: State, events: seq<Event>)
    decreases |events|
  {
    events == [] || (Enabled(s, events[0]) && IsRun(Step(s, events[0]), events[1..]))
  }

  ghost function Final(s: State, events: seq<Event>): State
    requires IsRun(s, events)
    decreases |events|
  {
    if events == [] then s else Final(Step(s, events[0]), events[1..])
  }

  lemma {:induction false} RunKeeps(s: State, events: seq<Event>)
    requires Inv(s) && IsRun(s, events)
    ensures Inv(Final(s, events))
    ensures ErrorsKnown(s) && (forall i :: 0 <= i < |events| ==> !events[i].ClearErrors?) ==>
      ErrorsKnown(Final(s, events))
    decreases |events|
  {
    if events != [] {
      StepKeeps(s, events[0]);
      RunKeeps(Step(s, events[0]), events[1..]);
    }
  }

  /** In every run, with retries as atomic steps. */
  lemma QueueRuns(events: seq<Event>)
    requires IsRun(Initial(), events)
    ensures var s := Final(Initial(), events);
      && TimersMatch(s)
      && (forall id :: id in s.queued ==> s.queued[id].lastTimeout == Wait(s.queued[id].failures))
      && ((forall i :: 0 <= i < |events| ==> !events[i].ClearErrors?) ==> ErrorsKnown(s))
  {
    RunKeeps(Initial(), events);
  }

  // ----- The class -----

  class ActiveWorkflowManager {
    var queuedActivations: map<WorkflowId, Queued>
    var armed: map<Timer, Alarm>
    var activationErrors: map<WorkflowId, string>
    var nextTimer: Timer

    ghost function View(): State
      reads this
    {
      State(queuedActivations, armed, activationErrors, nextTimer)
    }

    constructor ()
      ensures View() == Initial() && Inv(View())
    {
      queuedActivations, armed, activationErrors, nextTimer := map[], map[], map[], 0;
    }

    method RemoveQueuedWorkflowActivation(id: WorkflowId)
      modifies this`queuedActivations, this`armed
      ensures View() == Dequeue(old(View()), id)
    {
      if id in queuedActivations {
        armed := armed - {queuedActivations[id].timer};
        queuedActivations := queuedActivations - {id};
      }
    }

    method SetTimeout(id: WorkflowId, wait: nat, failures: nat)
      modifies this`queuedActivations, this`armed, this`nextTimer
      ensures View() == Arm(old(View()), id, wait, failures)
    {
      queuedActivations := queuedActivations[id := Queued(wait, nextTimer, failures)];
      armed := armed[nextTimer := Alarm(id, wait)];
      nextTimer := nextTimer + 1;
    }

    method AddQueuedWorkflowActivation(id: WorkflowId)
      modifies this
      ensures View() == Enqueue(old(View()), id)
      ensures old(Inv(View())) ==> Inv(View())
      ensures queuedActivations.Keys == old(queuedActivations).Keys + {id}
        && queuedActivations[id].lastTimeout == Wait(0)
      ensures forall other :: other != id && other in queuedActivations ==>
        queuedActivations[other] == old(queuedActivations)[other]
    {
      if Inv(View()) {
        EnqueueKeeps(View(), id);
      }
      RemoveQueuedWorkflowActivation(id);
      SetTimeout(id, INITIAL_TIMEOUT, 0);
    }

    /** The bookkeeping of `add`, given how the activation itself goes. */
    method AddWorkflow(id: WorkflowId, result: AddResult) returns (threw: bool)
      modifies this`queuedActivations, this`armed, this`activationErrors
      ensures View() == AfterAdd(old(View()), id, result)
      ensures threw <==> Threw(result)
      ensures old(Inv(View())) ==> Inv(View()) && OthersKept(old(View()), View(), id)
      ensures result.EarlyFailure? || result.LateFailure? ==> Failed(View(), id, result.message)
      ensures activationErrors.Keys ==
        if result.Activated? then old(activationErrors).Keys - {id}
        else if threw && !result.Unknown? then old(activationErrors).Keys + {id}
        else old(activationErrors).Keys
      ensures result.Activated? || result.LateFailure? ==>
        id !in queuedActivations && (old(Inv(View())) ==> forall t :: t in armed ==> armed[t].id != id)
      ensures result.Unknown? || result.Skipped? || result.EarlyFailure? ==>
        queuedActivations == old(queuedActivations) && armed == old(armed)
    {
      AddKeeps(View(), id, result);
      if Inv(View()) {
        AddMeans(View(), id, result);
      }
      threw := Record(id, result);
    }

    method Record(id: WorkflowId, result: AddResult) returns (threw: bool)
      modifies this`queuedActivations, this`armed, this`activationErrors
      ensures View() == AfterAdd(old(View()), id, result)
      ensures threw <==> Threw(result)
    {
      if result.Unknown? {
        return true;
      }
      if result.Skipped? {
        return false;
      }
      if result.EarlyFailure? {
        activationErrors := activationErrors[id := result.message];
        return true;
      }
      RemoveQueuedWorkflowActivation(id);
      activationErrors := activationErrors - {id};
      if result.LateFailure? {
        activationErrors := activationErrors[id := result.message];
        return true;
      }
      return false;
    }

    method ActivateWorkflow(id: WorkflowId, result: AddResult, authorization: bool)
      requires Inv(View())
      modifies this
      ensures Inv(View())
      ensures View() == if !Threw(result) || result.Unknown? then AfterAdd(old(View()), id, result)
        else Step(old(View()), Startup(id, result, authorization))
      ensures OthersKept(old(View()), View(), id)
      ensures result.Unknown? || result.Skipped? ==> View() == old(View())
      ensures result.Activated? ==> OffQueue(View(), id) && id !in activationErrors
      ensures result.EarlyFailure? || result.LateFailure? ==> Failed(View(), id, result.message)
      ensures (result.EarlyFailure? || result.LateFailure?) && !authorization ==> Waits(View(), id, 1000)
      ensures result.EarlyFailure? && authorization ==>
        queuedActivations == old(queuedActivations) && armed == old(armed)
      ensures result.LateFailure? && authorization ==> OffQueue(View(), id)
    {
      ghost var s := View();
      AddKeeps(s, id, result);
      AddMeans(s, id, result);
      if result.EarlyFailure? || result.LateFailure? {
        StartupMeans(s, id, result, authorization);
      }
      if result.Unknown? {
        return;
      }
      var threw := AddWorkflow(id, result);
      if threw && !authorization {
        AddQueuedWorkflowActivation(id);
        StepKeeps(s, Startup(id, result, authorization));
      }
    }

    /** The wait before the next retry. */
    method NextTimeout(last: nat) returns (next: nat)
      ensures next == Backoff(last)
      ensures forall k: nat :: last == Wait(k) ==> next == Wait(k + 1)
    {
      next := last;
      if next < MAX_TIMEOUT {
        next := if next * 2 < MAX_TIMEOUT then next * 2 else MAX_TIMEOUT;
      }
      forall k: nat | last == Wait(k) ensures next == Wait(k + 1) {
        BackoffDoubles(k);
      }
    }

    /** What follows a failed retry, if the workflow is still queued. */
    method RearmAfterFailure(id: WorkflowId)
      modifies this`queuedActivations, this`armed, this`nextTimer
      ensures id !in old(queuedActivations) ==> View() == old(View())
      ensures id in old(queuedActivations) ==>
        var q := old(queuedActivations)[id]; View() == Arm(old(View()), id, Backoff(q.lastTimeout), q.failures + 1)
    {
      if id in queuedActivations {
        var lastTimeout := NextTimeout(queuedActivations[id].lastTimeout);
        SetTimeout(id, lastTimeout, queuedActivations[id].failures + 1);
      }
    }

    /** The retry function, run when its timer fires, as one atomic step. */
    method RetryActivation(timer: Timer, result: AddResult)
      requires Inv(View()) && timer in armed
      modifies this
      ensures View() == Step(old(View()), Retry(timer, result))
      ensures Inv(View()) <==> !result.Skipped?
      ensures !result.Skipped? ==> Retried(old(View()), View(), old(armed)[timer], result)
    {
      RetryOutcome(View(), timer, result);
      TryAgain(timer, result);
    }

    method TryAgain(timer: Timer, result: AddResult)
      requires timer in armed
      modifies this
      ensures View() == AfterRetry(old(View()), timer, result)
    {
      var id := armed[timer].id;
      armed := armed - {timer};
      var threw := Record(id, result);
      if threw {
        RearmAfterFailure(id);
      }
    }

    method EmitError(id: WorkflowId, message: string)
      requires Inv(View())
      modifies this
      ensures View() == Step(old(View()), TriggerFailed(id, message)) && Inv(View())
      ensures Waits(View(), id, 1000) && Failed(View(), id, message) && OthersKept(old(View()), View(), id)
    {
      StepKeeps(View(), TriggerFailed(id, message));
      TriggerFailedMeans(View(), id, message);
      activationErrors := activationErrors[id := message];
      AddQueuedWorkflowActivation(id);
    }

    method RemoveWorkflow(id: WorkflowId)
      requires Inv(View())
      modifies this
      ensures View() == Step(old(View()), Remove(id)) && Inv(View())
      ensures OffQueue(View(), id) && id !in activationErrors && OthersKept(old(View()), View(), id)
    {
      StepKeeps(View(), Remove(id));
      RemoveMeans(View(), id);
      activationErrors := activationErrors - {id};
      if id in queuedActivations {
        RemoveQueuedWorkflowActivation(id);
      }
    }

    method RemoveAllQueuedWorkflowActivations()
      requires Inv(View())
      modifies this
      ensures View() == Step(old(View()), RemoveAll) && Inv(View())
      ensures armed == map[] && queuedActivations == map[]
    {
      ghost var s := View();
      RemoveAllKeeps(s);
      while queuedActivations != map[]
        invariant TimersMatch(View())
        invariant activationErrors == s.errors && nextTimer == s.nextTimer
        decreases queuedActivations.Keys
      {
        var id :| id in queuedActivations.Keys;
        RemoveQueuedWorkflowActivation(id);
      }
      assert armed == map[];
    }
  }
}
