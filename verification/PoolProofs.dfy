/** What every run of the thread pool keeps: no wake-up is lost, no task is lost, duplicated or
    overtaken, and StopAll ends after a bounded number of worker steps. */
module PoolProofs {
  import opened StringUtils
  import opened PoolModel

  // ---- The invariant ------------------------------------------------------------------

  ghost function WokenWeight(stage: Stage): nat {
    if stage == Woken then 1 else 0
  }

  /** The workers that were notified and have not yet tested the queue again. */
  ghost function WokenCount(s: Pool): nat {
    Total(s.workers, WokenWeight)
  }

  ghost predicate MutexInv(s: Pool) {
    && (forall i :: 0 <= i < |s.workers| ==> (s.workers[i] == WillBlock <==> s.holder == Some(i)))
    && (s.holder.Some? ==> s.holder.value < |s.workers| && s.tasks == [] && !s.stop)
  }

  /** A blocked worker is never the only hope of a queued task, and none sleeps through a stop. */
  ghost predicate WakeInv(s: Pool) {
    AnyBlocked(s) ==>
      && |s.tasks| <= s.notifications + WokenCount(s)
      && (s.stop ==> s.stopper == Notifying)
  }

  ghost predicate StopInv(s: Pool) {
    && |s.requested| == |s.workers|
    && (s.stop <==> s.stopper != NotStopping)
    && (s.handles == |s.workers| || (s.handles == 0 && AllExited(s) && AllRequested(s)))
    && (s.stopper.Requesting? ==> s.stopper.next <= s.handles && RequestedUpTo(s, s.stopper.next))
    && (s.stopper.Joining? ==>
          s.stopper.next <= s.handles && AllRequested(s)
          && forall i :: 0 <= i < s.stopper.next ==> s.workers[i] == Exited)
    && (s.stopper == Stopped ==> s.handles == 0)
    && (!s.stop ==> Exited !in s.workers && true !in s.requested)
  }

  ghost predicate RequestedUpTo(s: Pool, n: nat) {
    n <= |s.requested| && forall i :: 0 <= i < n ==> s.requested[i]
  }

  ghost predicate AllRequested(s: Pool) {
    RequestedUpTo(s, |s.requested|)
  }

  ghost predicate QueueInv(s: Pool) {
    s.enqueued == s.started + s.tasks
  }

  /** Task t has been started as often as it has finished and is running. */
  ghost predicate TaskInv(s: Pool, t: Task) {
    multiset(s.started)[t] == multiset(s.finished)[t] + Copies(s.workers, t)
  }

  ghost predicate Inv(s: Pool) {
    MutexInv(s) && WakeInv(s) && StopInv(s) && QueueInv(s) && forall t :: TaskInv(s, t)
  }

  lemma InitInv(workers: nat)
    ensures Inv(Init(workers))
  {
    forall t ensures Copies(Init(workers).workers, t) == 0 {
      NoCopies(Init(workers).workers, t);
    }
  }

  lemma NoCopies(workers: seq<Stage>, t: Task)
    requires forall i :: 0 <= i < |workers| ==> workers[i] == Top
    ensures Copies(workers, t) == 0
  {
  }

  lemma StepMutex(s: Pool, a: Action)
    requires MutexInv(s) && Enabled(s, a)
    ensures MutexInv(Next(s, a))
  {
  }

  lemma StepWake(s: Pool, a: Action)
    requires MutexInv(s) && WakeInv(s) && StopInv(s) && Enabled(s, a)
    ensures WakeInv(Next(s, a))
  {
    var t := Next(s, a);
    match a
    case LoopTest(i) => OneWorker(s, t, i);
    case Test(i) => OneWorker(s, t, i);
    case Block(i) => OneWorker(s, t, i);
    case WakeSpuriously(i) => OneWorker(s, t, i);
    case Finish(i) => OneWorker(s, t, i);
    case NotifyOne(target) => if target.Some? { OneWorker(s, t, target.value); }
    case NotifyAll => assert !AnyBlocked(t);
    case Push(_) =>
    case SetStop =>
    case RequestNext =>
    case JoinNext =>
  }

  lemma OneWorker(s: Pool, t: Pool, i: nat)
    requires i < |s.workers| && |t.workers| == |s.workers| && t.workers == s.workers[i := t.workers[i]]
    ensures WokenCount(t) + WokenWeight(s.workers[i]) == WokenCount(s) + WokenWeight(t.workers[i])
    ensures t.workers[i] != Blocked && AnyBlocked(t) ==> AnyBlocked(s)
  {
    TotalUpdate(s.workers, i, t.workers[i], WokenWeight);
  }

  lemma StepStop(s: Pool, a: Action)
    requires StopInv(s) && Enabled(s, a)
    ensures StopInv(Next(s, a))
  {
  }

  lemma StepQueue(s: Pool, a: Action)
    requires QueueInv(s) && Enabled(s, a)
    ensures QueueInv(Next(s, a))
  {
  }

  lemma StepTasks(s: Pool, a: Action, t: Task)
    requires TaskInv(s, t) && Enabled(s, a)
    ensures TaskInv(Next(s, a), t)
  {
    if a.NotifyAll? {
      CopiesWakeAll(s.workers, t);
      return;
    }
    if a.Test? && s.tasks != [] {
      CopiesUpdate(s.workers, a.i, Running(s.tasks[0]), t);
      return;
    }
    if a.Finish? {
      CopiesUpdate(s.workers, a.i, Top, t);
      return;
    }
    if WorkerAction(a) {
      IdleTasks(s, Next(s, a), Worker(a), t);
      return;
    }
    if a.WakeSpuriously? {
      IdleTasks(s, Next(s, a), a.i, t);
      return;
    }
    if a.NotifyOne? && a.target.Some? {
      IdleTasks(s, Next(s, a), a.target.value, t);
      return;
    }
  }

  /** A worker without a task goes on without one. */
  lemma IdleTasks(s: Pool, u: Pool, i: nat, t: Task)
    requires TaskInv(s, t) && i < |s.workers| && |u.workers| == |s.workers| && u.workers == s.workers[i := u.workers[i]]
    requires !s.workers[i].Running? && !u.workers[i].Running? && u.started == s.started && u.finished == s.finished
    ensures TaskInv(u, t)
  {
    CopiesUpdate(s.workers, i, u.workers[i], t);
  }

  lemma StepInv(s: Pool, a: Action)
    requires Inv(s) && Enabled(s, a)
    ensures Inv(Next(s, a))
  {
    StepMutex(s, a);
    StepWake(s, a);
    StepStop(s, a);
    StepQueue(s, a);
    forall t ensures TaskInv(Next(s, a), t) {
      StepTasks(s, a, t);
    }
  }

  lemma {:induction false} RunInv(s: Pool, actions: seq<Action>)
    requires Inv(s) && Run(s, actions)
    ensures Inv(After(s, actions))
    decreases |actions|
  {
    if actions == [] {
    } else {
      StepInv(s, actions[0]);
      RunInv(Next(s, actions[0]), actions[1..]);
    }
  }

  // ---- Main results over every run from the constructor -----------------------------------

  /** No lost wake-up: while a worker sleeps, the queued tasks are covered by notifications
      still to be sent and by workers already woken; and a worker that sleeps although m_Stop
      is set still has the notify_all ahead of it. */
  lemma NoLostWakeup(workers: nat, actions: seq<Action>)
    requires Run(Init(workers), actions)
    ensures var s := After(Init(workers), actions);
            AnyBlocked(s) ==>
              && |s.tasks| <= s.notifications + WokenCount(s)
              && (s.stop ==> s.stopper == Notifying)
    ensures var s := After(Init(workers), actions);
            s.tasks != [] && s.notifications == 0 && AnyBlocked(s) ==> Woken in s.workers
  {
    InitInv(workers);
    RunInv(Init(workers), actions);
    var s := After(Init(workers), actions);
    WokenWitness(s.workers);
  }

  lemma WokenWitness(workers: seq<Stage>)
    ensures Total(workers, WokenWeight) > 0 ==> Woken in workers
  {
    if workers == [] {
    } else {
      WokenWitness(workers[1..]);
    }
  }

  /** First in, first out, and nothing twice: what has been started, followed by what is queued,
      is what was enqueued; what has been started is what has finished plus what is running. */
  lemma TasksConserved(workers: nat, actions: seq<Action>)
    requires Run(Init(workers), actions)
    ensures var s := After(Init(workers), actions);
            && s.enqueued == s.started + s.tasks
            && forall t :: multiset(s.enqueued)[t] ==
                           multiset(s.finished)[t] + Copies(s.workers, t) + multiset(s.tasks)[t]
  {
    InitInv(workers);
    RunInv(Init(workers), actions);
    var s := After(Init(workers), actions);
    forall t ensures multiset(s.enqueued)[t] == multiset(s.finished)[t] + Copies(s.workers, t) + multiset(s.tasks)[t] {
      assert TaskInv(s, t);
    }
  }

  // ---- While nobody stops the pool ---------------------------------------------------------

  /** A worker leaves only when the pool is being stopped. */
  lemma WorkersStay(workers: nat, actions: seq<Action>)
    requires Run(Init(workers), actions)
    ensures var s := After(Init(workers), actions);
            |s.workers| == workers && (Exited in s.workers ==> s.stop)
  {
    InitInv(workers);
    RunInv(Init(workers), actions);
    WorkersKept(Init(workers), actions);
  }

  lemma {:induction false} WorkersKept(s: Pool, actions: seq<Action>)
    requires Run(s, actions)
    ensures |After(s, actions).workers| == |s.workers|
    decreases |actions|
  {
    if actions == [] {
    } else {
      WorkersKept(Next(s, actions[0]), actions[1..]);
    }
  }

  /** A step that brings a queued task nearer to its start: a worker's own, or a notification. */
  predicate ProgressAction(a: Action) {
    WorkerAction(a) || a.NotifyOne?
  }

  /** While a task is queued there is such a step; and unless every worker sleeps, it is a
      worker's. */
  lemma QueueProgresses(workers: nat, actions: seq<Action>)
    requires workers > 0 && Run(Init(workers), actions)
    requires var s := After(Init(workers), actions); !s.stop && s.tasks != []
    ensures var s := After(Init(workers), actions);
            exists a :: ProgressAction(a) && Enabled(s, a)
    ensures var s := After(Init(workers), actions);
            (exists i :: 0 <= i < |s.workers| && s.workers[i] != Blocked) ==>
              exists a :: WorkerAction(a) && Enabled(s, a)
  {
    InitInv(workers);
    RunInv(Init(workers), actions);
    WorkersKept(Init(workers), actions);
    var s := After(Init(workers), actions);
    assert s.holder == None;
    if i :| 0 <= i < |s.workers| && s.workers[i] != Blocked {
      var a := AwakeCanStep(s, i);
      assert WorkerAction(a) && ProgressAction(a);
    } else {
      NoneWoken(s.workers);
      var a := NotifyOne(Some(0));
      assert s.workers[0] == Blocked && Enabled(s, a) && ProgressAction(a);
    }
  }

  lemma AwakeCanStep(s: Pool, i: nat) returns (a: Action)
    requires Inv(s) && !s.stop && s.holder == None && i < |s.workers| && s.workers[i] != Blocked
    ensures WorkerAction(a) && Enabled(s, a)
  {
    assert s.workers[i] in s.workers;
    a := if s.workers[i].Top? then LoopTest(i) else if s.workers[i].Running? then Finish(i) else Test(i);
  }

  lemma NoneWoken(workers: seq<Stage>)
    requires forall i :: 0 <= i < |workers| ==> workers[i] == Blocked
    ensures Total(workers, WokenWeight) == 0
  {
    if workers == [] {
    } else {
      NoneWoken(workers[1..]);
    }
  }

  /** The worker steps until this worker can take a task. */
  ghost function StepsToTake(stage: Stage): nat {
    match stage
    case Running(_) => 2
    case Top => 1
    case _ => 0
  }

  /** The worker steps that the m-th task ever enqueued, counted from zero, can have before it. */
  ghost function StepsAhead(s: Pool, m: nat): int {
    3 * (m + 1 - |s.started|) + Total(s.workers, StepsToTake)
  }

  lemma StepsAheadStep(s: Pool, a: Action, m: nat)
    requires Inv(s) && Enabled(s, a) && !Next(s, a).stop && |s.started| <= m < |s.enqueued|
    ensures StepsAhead(Next(s, a), m) == StepsAhead(s, m) - if WorkerAction(a) then 1 else 0
  {
    var t := Next(s, a);
    assert s.tasks != [];
    if WorkerAction(a) {
      TotalUpdate(s.workers, Worker(a), t.workers[Worker(a)], StepsToTake);
      return;
    }
    if a.WakeSpuriously? {
      TotalUpdate(s.workers, a.i, Woken, StepsToTake);
      return;
    }
    if a.NotifyOne? && a.target.Some? {
      TotalUpdate(s.workers, a.target.value, Woken, StepsToTake);
      return;
    }
  }

  lemma {:induction false} HistoryGrows(s: Pool, actions: seq<Action>)
    requires Run(s, actions)
    ensures s.started <= After(s, actions).started && s.enqueued <= After(s, actions).enqueued
    ensures s.stop ==> After(s, actions).stop
    decreases |actions|
  {
    if actions == [] {
    } else {
      HistoryGrows(Next(s, actions[0]), actions[1..]);
    }
  }

  lemma {:induction false} StepsAheadRun(s: Pool, actions: seq<Action>, m: nat)
    requires Inv(s) && Run(s, actions) && !After(s, actions).stop && m < |s.enqueued|
    requires |After(s, actions).started| <= m
    ensures WorkerSteps(actions) + StepsAhead(After(s, actions), m) == StepsAhead(s, m)
    decreases |actions|
  {
    if actions == [] {
    } else {
      HistoryGrows(s, actions);
      HistoryGrows(Next(s, actions[0]), actions[1..]);
      StepsAheadStep(s, actions[0], m);
      StepInv(s, actions[0]);
      StepsAheadRun(Next(s, actions[0]), actions[1..], m);
    }
  }

  /** Every enqueued task is started, in its turn, after a bounded number of worker steps, whatever
      else is enqueued and however often workers wake up for nothing; and until then there is a step
      to take.  As long as nobody stops the pool and tasks return. */
  lemma EveryTaskStarts(workers: nat, before: seq<Action>, actions: seq<Action>, m: nat)
    requires workers > 0 && Run(Init(workers), before)
    requires m < |After(Init(workers), before).enqueued|
    requires Run(After(Init(workers), before), actions) && !After(After(Init(workers), before), actions).stop
    ensures var s, t := After(Init(workers), before), After(After(Init(workers), before), actions);
            if m < |t.started| then t.started[m] == s.enqueued[m]
            else WorkerSteps(actions) < 3 * (m + 1 - |s.started|) + 2 * workers
                 && exists a :: ProgressAction(a) && Enabled(t, a)
  {
    InitInv(workers);
    RunInv(Init(workers), before);
    WorkersKept(Init(workers), before);
    var s := After(Init(workers), before);
    RunInv(s, actions);
    HistoryGrows(s, actions);
    var t := After(s, actions);
    if m < |t.started| {
      assert t.started[m] == t.enqueued[m] == s.enqueued[m];
    } else {
      StepsAheadRun(s, actions, m);
      StepsToTakeBound(s.workers);
      RunConcat(Init(workers), before, actions);
      QueueProgresses(workers, before + actions);
    }
  }

  lemma StepsToTakeBound(workers: seq<Stage>)
    ensures Total(workers, StepsToTake) <= 2 * |workers|
  {
    if workers == [] {
    } else {
      StepsToTakeBound(workers[1..]);
    }
  }

  // ---- Shutdown ---------------------------------------------------------------------------

  /** StopAll has set the flag, notified every worker and requested every stop. */
  ghost predicate Draining(s: Pool) {
    && s.stop && s.holder == None && |s.requested| == |s.workers| && AllRequested(s)
    && !AnyBlocked(s) && WillBlock !in s.workers
  }

  /** From the join loop on, every reachable state is draining. */
  lemma JoiningDrains(workers: nat, actions: seq<Action>)
    requires Run(Init(workers), actions)
    requires After(Init(workers), actions).stopper.Joining?
    ensures Draining(After(Init(workers), actions))
  {
    InitInv(workers);
    RunInv(Init(workers), actions);
  }

  /** The worker steps this stage can still take once the pool is draining. */
  ghost function StepsLeft(stage: Stage): nat {
    match stage
    case Exited => 0
    case Top => 1
    case Running(_) => 2
    case _ => 3
  }

  /** The tasks this stage can still start once the pool is draining. */
  ghost function StartsLeft(stage: Stage): nat {
    if stage == WantLock || stage == Woken then 1 else 0
  }

  ghost function Measure(s: Pool): nat { Total(s.workers, StepsLeft) }

  ghost function Budget(s: Pool): nat { Total(s.workers, StartsLeft) }

  function Worker(a: Action): nat
    requires WorkerAction(a)
  {
    match a
    case LoopTest(i) => i
    case Test(i) => i
    case Block(i) => i
    case Finish(i) => i
  }

  ghost function WorkerSteps(actions: seq<Action>): nat {
    if actions == [] then 0 else (if WorkerAction(actions[0]) then 1 else 0) + WorkerSteps(actions[1..])
  }

  /** How many tasks worker i starts in a run. */
  ghost function Starts(s: Pool, actions: seq<Action>, i: nat): nat
    requires Run(s, actions)
    decreases |actions|
  {
    if actions == [] then 0
    else (if actions[0] == Test(i) && s.tasks != [] then 1 else 0) + Starts(Next(s, actions[0]), actions[1..], i)
  }

  lemma DrainStep(s: Pool, a: Action)
    requires Draining(s) && Enabled(s, a)
    ensures Draining(Next(s, a)) && |Next(s, a).workers| == |s.workers|
    ensures if WorkerAction(a) then Measure(Next(s, a)) < Measure(s) else Next(s, a).workers == s.workers
    ensures forall i :: 0 <= i < |s.workers| ==>
              StartsLeft(Next(s, a).workers[i]) + (if a == Test(i) && s.tasks != [] then 1 else 0)
              <= StartsLeft(s.workers[i])
  {
    var t := Next(s, a);
    if WorkerAction(a) {
      TotalUpdate(s.workers, Worker(a), t.workers[Worker(a)], StepsLeft);
    }
  }

  /** Bounded shutdown: whatever is enqueued meanwhile, a draining pool takes at most Measure(s)
      more worker steps, none of which blocks, and every worker starts at most one more task. */
  lemma {:induction false} ShutdownIsBounded(s: Pool, actions: seq<Action>)
    requires Draining(s) && Run(s, actions)
    ensures Draining(After(s, actions)) && |After(s, actions).workers| == |s.workers|
    ensures WorkerSteps(actions) + Measure(After(s, actions)) <= Measure(s)
    ensures forall i :: 0 <= i < |s.workers| ==> Starts(s, actions, i) <= StartsLeft(s.workers[i]) <= 1
    decreases |actions|
  {
    if actions == [] {
    } else {
      DrainStep(s, actions[0]);
      ShutdownIsBounded(Next(s, actions[0]), actions[1..]);
    }
  }

  /** Until all have exited, some worker can take a step, so the join loop does come to its end. */
  lemma ShutdownProgresses(s: Pool)
    requires Draining(s) && !AllExited(s)
    ensures exists a :: WorkerAction(a) && Enabled(s, a)
  {
    var i :| 0 <= i < |s.workers| && s.workers[i] != Exited;
    assert s.workers[i] in s.workers;
    var a := if s.workers[i].Top? then LoopTest(i) else if s.workers[i].Running? then Finish(i) else Test(i);
    assert WorkerAction(a) && Enabled(s, a);
  }

  // ---- What StopAll does to the queue -------------------------------------------------------

  ghost predicate NoPush(actions: seq<Action>) {
    forall a :: a in actions ==> !a.Push?
  }

  ghost function Leftover(s: Pool): int {
    if |s.tasks| <= Budget(s) then 0 else |s.tasks| - Budget(s)
  }

  lemma LeftoverStep(s: Pool, a: Action)
    requires Draining(s) && Enabled(s, a) && !a.Push?
    ensures Leftover(Next(s, a)) == Leftover(s)
  {
    var t := Next(s, a);
    DrainStep(s, a);
    if WorkerAction(a) {
      var i := Worker(a);
      TotalUpdate(s.workers, i, t.workers[i], StartsLeft);
      TotalAtLeast(s.workers, i, StartsLeft);
    }
  }

  /** The number of tasks that StopAll abandons, when nothing is enqueued any more. */
  lemma {:induction false} StopAllAbandons(s: Pool, actions: seq<Action>)
    requires Draining(s) && Run(s, actions) && NoPush(actions) && AllExited(After(s, actions))
    ensures |After(s, actions).tasks| == Leftover(s)
    decreases |actions|
  {
    if actions == [] {
      NoStartsWhenExited(s.workers);
    } else {
      DrainStep(s, actions[0]);
      LeftoverStep(s, actions[0]);
      NoPushTail(actions);
      StopAllAbandons(Next(s, actions[0]), actions[1..]);
    }
  }

  /** After that, a task that is still queued, or enqueued later, never starts. */
  lemma {:induction false} NothingStartsAgain(s: Pool, actions: seq<Action>)
    requires Draining(s) && AllExited(s) && Run(s, actions)
    ensures AllExited(After(s, actions)) && After(s, actions).started == s.started
    ensures s.tasks <= After(s, actions).tasks
    decreases |actions|
  {
    if actions == [] {
    } else {
      DrainStep(s, actions[0]);
      NothingStartsAgain(Next(s, actions[0]), actions[1..]);
    }
  }

  lemma NoStartsWhenExited(workers: seq<Stage>)
    requires forall i :: 0 <= i < |workers| ==> workers[i] == Exited
    ensures Total(workers, StartsLeft) == 0
  {
  }

  /** Once the pool is draining, the queue ends up empty exactly when it holds no more tasks than
      there are workers that have already passed their loop test. */
  lemma DrainingDrainsIff(s: Pool, actions: seq<Action>)
    requires Draining(s) && Run(s, actions) && NoPush(actions) && AllExited(After(s, actions))
    ensures After(s, actions).tasks == [] <==> |s.tasks| <= Budget(s)
  {
    StopAllAbandons(s, actions);
  }

  // ---- What a caller of StopAll can know beforehand -------------------------------------------

  /** A worker that has passed its loop test and holds no task; every other worker leaves at that
      test without looking at the queue. */
  ghost function ReadyWeight(stage: Stage): nat {
    if stage == WantLock || stage == Woken || stage == Blocked then 1 else 0
  }

  ghost function Ready(s: Pool): nat { Total(s.workers, ReadyWeight) }

  lemma OneReady(s: Pool, t: Pool, i: nat)
    requires i < |s.workers| && |t.workers| == |s.workers| && t.workers == s.workers[i := t.workers[i]]
    ensures Ready(t) + ReadyWeight(s.workers[i]) == Ready(s) + ReadyWeight(t.workers[i])
  {
    TotalUpdate(s.workers, i, t.workers[i], ReadyWeight);
  }

  lemma ReadyWakeAll(workers: seq<Stage>)
    ensures Total(WakeAll(workers), ReadyWeight) == Total(workers, ReadyWeight)
  {
    if workers == [] {
    } else {
      assert WakeAll(workers)[1..] == WakeAll(workers[1..]);
      ReadyWakeAll(workers[1..]);
    }
  }

  /** There stay at least as many ready workers as tasks. */
  lemma ReadyStep(s: Pool, a: Action)
    requires s.stop && |s.tasks| <= Ready(s) && Enabled(s, a) && !a.Push?
    ensures Next(s, a).stop && |Next(s, a).tasks| <= Ready(Next(s, a))
  {
    var t := Next(s, a);
    if a.NotifyAll? {
      ReadyWakeAll(s.workers);
    } else if WorkerAction(a) {
      OneReady(s, t, Worker(a));
    } else if a.WakeSpuriously? {
      OneReady(s, t, a.i);
    } else if a.NotifyOne? && a.target.Some? {
      OneReady(s, t, a.target.value);
    }
  }

  lemma {:induction false} ReadyRun(s: Pool, actions: seq<Action>)
    requires s.stop && |s.tasks| <= Ready(s) && Run(s, actions) && NoPush(actions) && AllExited(After(s, actions))
    ensures After(s, actions).tasks == []
    decreases |actions|
  {
    if actions == [] {
      NoneReadyWhenExited(s.workers);
    } else {
      ReadyStep(s, actions[0]);
      NoPushTail(actions);
      ReadyRun(Next(s, actions[0]), actions[1..]);
    }
  }

  lemma NoneReadyWhenExited(workers: seq<Stage>)
    requires forall i :: 0 <= i < |workers| ==> workers[i] == Exited
    ensures Total(workers, ReadyWeight) == 0
  {
    if workers == [] {
    } else {
      NoneReadyWhenExited(workers[1..]);
    }
  }

  lemma NoPushTail(actions: seq<Action>)
    requires actions != [] && NoPush(actions)
    ensures NoPush(actions[1..])
  {
    forall a | a in actions[1..] ensures a in actions {
    }
  }

  /** A shutdown: StopAll gets the mutex, nothing is enqueued any more, and all workers exit. */
  ghost predicate Shutdown(s: Pool, actions: seq<Action>) {
    actions != [] && actions[0] == SetStop && Run(s, actions) && NoPush(actions) && AllExited(After(s, actions))
  }

  /** The comment in StopAll promises that the queue is drained.  Take any state in which StopAll
      gets the mutex: every shutdown from there drains the queue if and only if the queue holds no
      more tasks than there are workers behind their loop test without a task. */
  lemma StopAllDrainsIff(workers: nat, before: seq<Action>)
    requires Run(Init(workers), before) && Enabled(After(Init(workers), before), SetStop)
    ensures var s := After(Init(workers), before);
            (forall actions :: Shutdown(s, actions) ==> After(s, actions).tasks == []) <==> |s.tasks| <= Ready(s)
  {
    InitInv(workers);
    RunInv(Init(workers), before);
    var s := After(Init(workers), before);
    if |s.tasks| <= Ready(s) {
      forall actions | Shutdown(s, actions) ensures After(s, actions).tasks == [] {
        NoPushTail(actions);
        ReadyRun(Next(s, SetStop), actions[1..]);
      }
    } else {
      var actions := AbandoningRun(s);
      assert Shutdown(s, actions);
    }
  }

  /** With more tasks than that, a shutdown that leaves some behind: StopAll does all its
      requests before any worker moves. */
  lemma AbandoningRun(s: Pool) returns (actions: seq<Action>)
    requires Inv(s) && Enabled(s, SetStop) && |s.tasks| > Ready(s)
    ensures Shutdown(s, actions) && After(s, actions).tasks != []
  {
    var t := Next(Next(s, SetStop), NotifyAll);
    StepInv(s, SetStop);
    StepInv(Next(s, SetStop), NotifyAll);
    WokenAreReady(s);
    var requests := RequestAll(t);
    var u := After(t, requests);
    var rest := Complete(u);
    StopAllAbandons(u, rest);
    RunConcat(t, requests, rest);
    actions := [SetStop] + ([NotifyAll] + (requests + rest));
  }

  /** After notify_all every ready worker can start one more task. */
  lemma WokenAreReady(s: Pool)
    requires Enabled(s, SetStop) && MutexInv(s)
    ensures var t := Next(Next(s, SetStop), NotifyAll);
            !AnyBlocked(t) && WillBlock !in t.workers && t.tasks == s.tasks && Budget(t) == Ready(s)
  {
    ReadyIsBudget(s.workers);
  }

  lemma ReadyIsBudget(workers: seq<Stage>)
    ensures Total(WakeAll(workers), StartsLeft) == Total(workers, ReadyWeight)
  {
    if workers == [] {
    } else {
      assert WakeAll(workers)[1..] == WakeAll(workers[1..]);
      ReadyIsBudget(workers[1..]);
    }
  }

  /** The request loop alone. */
  lemma {:induction false} RequestAll(s: Pool) returns (actions: seq<Action>)
    requires Inv(s) && s.stopper.Requesting? && !AnyBlocked(s) && WillBlock !in s.workers && s.holder == None
    ensures Run(s, actions) && NoPush(actions) && Draining(After(s, actions))
    ensures After(s, actions).workers == s.workers && After(s, actions).tasks == s.tasks
    decreases s.handles - s.stopper.next
  {
    StepInv(s, RequestNext);
    var t := Next(s, RequestNext);
    if s.stopper.next < s.handles {
      var rest := RequestAll(t);
      actions := [RequestNext] + rest;
    } else {
      actions := [RequestNext];
      assert actions[1..] == [] && After(s, actions) == t;
    }
  }

  /** A draining pool whose workers go on until all have exited. */
  lemma {:induction false} Complete(s: Pool) returns (actions: seq<Action>)
    requires Draining(s)
    ensures Run(s, actions) && NoPush(actions) && AllExited(After(s, actions))
    decreases Measure(s)
  {
    if AllExited(s) {
      actions := [];
    } else {
      ShutdownProgresses(s);
      var a :| WorkerAction(a) && Enabled(s, a);
      DrainStep(s, a);
      var rest := Complete(Next(s, a));
      actions := [a] + rest;
    }
  }

  lemma {:induction false} RunConcat(s: Pool, first: seq<Action>, second: seq<Action>)
    requires Run(s, first) && Run(After(s, first), second)
    ensures Run(s, first + second) && After(s, first + second) == After(After(s, first), second)
    decreases |first|
  {
    if first == [] {
      assert first + second == second;
    } else {
      assert (first + second)[1..] == first[1..] + second;
      RunConcat(Next(s, first[0]), first[1..], second);
    }
  }

  /** A run that contradicts the comment: one worker, busy with task 7, and task 8 queued. */
  lemma StopAllCanAbandonATask()
    ensures exists actions :: Run(Init(1), actions)
              && After(Init(1), actions).stopper == Stopped && After(Init(1), actions).tasks == [8]
  {
    var waiting := Pool([WantLock], [false], [7], false, None, 1, NotStopping, 1, [7], [], []);
    var actions := GetBusy(waiting);
    var s1 := Next(Init(1), LoopTest(0));
    assert Next(s1, Push(7)) == waiting;
    actions := Unroll(s1, Push(7), actions);
    actions := Unroll(Init(1), LoopTest(0), actions);
  }

  lemma GetBusy(waiting: Pool) returns (actions: seq<Action>)
    requires waiting == Pool([WantLock], [false], [7], false, None, 1, NotStopping, 1, [7], [], [])
    ensures Run(waiting, actions) && After(waiting, actions).stopper == Stopped && After(waiting, actions).tasks == [8]
  {
    var busy := Pool([Running(7)], [false], [8], false, None, 2, NotStopping, 1, [7, 8], [7], []);
    actions := Abandon(busy);
    var s1 := Next(waiting, Test(0));
    assert Next(s1, Push(8)) == busy;
    actions := Unroll(s1, Push(8), actions);
    actions := Unroll(waiting, Test(0), actions);
  }

  lemma Abandon(busy: Pool) returns (actions: seq<Action>)
    requires busy == Pool([Running(7)], [false], [8], false, None, 2, NotStopping, 1, [7, 8], [7], [])
    ensures Run(busy, actions) && After(busy, actions).stopper == Stopped && After(busy, actions).tasks == [8]
  {
    var s1 := Next(busy, SetStop);
    var s2 := Next(s1, NotifyAll);
    var s3 := Next(s2, RequestNext);
    var s4 := Next(s3, RequestNext);
    var s5 := Next(s4, Finish(0));
    var s6 := Next(s5, LoopTest(0));
    var s7 := Next(s6, JoinNext);
    actions := Unroll(s7, JoinNext, []);
    actions := Unroll(s6, JoinNext, actions);
    actions := Unroll(s5, LoopTest(0), actions);
    actions := Unroll(s4, Finish(0), actions);
    actions := Unroll(s3, RequestNext, actions);
    actions := Unroll(s2, RequestNext, actions);
    actions := Unroll(s1, NotifyAll, actions);
    actions := Unroll(busy, SetStop, actions);
  }

  lemma Unroll(s: Pool, a: Action, rest: seq<Action>) returns (actions: seq<Action>)
    requires Enabled(s, a) && Run(Next(s, a), rest)
    ensures Run(s, actions) && After(s, actions) == After(Next(s, a), rest)
  {
    actions := [a] + rest;
  }
}
