/** The thread pool of aerolib/src/aero/core/threads.cpp as a transition system.

    A step is one atomic action of one thread: a critical section of m_QueueMutex, or the code
    between two of them.  Blocking is two steps, because a worker that found nothing to do keeps
    the mutex until the condition variable has put it to sleep, while notifications are sent
    without the mutex and may fall in between. */
module PoolModel {
  import opened StringUtils

  /** The identity of an enqueued function. */
  type Task = nat

  datatype Stage =
    | Top                  // at the loop head, about to ask the stop token
    | WantLock             // about to lock the mutex and test the wait predicate
    | WillBlock            // the predicate was false; still holds the mutex
    | Blocked              // asleep on the condition variable
    | Woken                // notified, about to relock and test again
    | Running(task: Task)
    | Exited

  /** Where the thread that runs StopAll is. */
  datatype Stopper =
    | NotStopping
    | Notifying            // m_Stop is set, notify_all is still to come
    | Requesting(next: nat)
    | Joining(next: nat)
    | Stopped              // m_Threads is cleared

  datatype Pool = Pool(
    workers: seq<Stage>,
    requested: seq<bool>,  // the stop token of each worker
    tasks: seq<Task>,
    stop: bool,
    holder: Option<nat>,   // the worker that sits on the mutex between two steps
    notifications: nat,    // notify_one calls still to be made by Enqueue
    stopper: Stopper,
    handles: nat,          // the size of m_Threads
    enqueued: seq<Task>,   // history: every task ever pushed
    started: seq<Task>,    // history: every task ever taken
    finished: seq<Task>)   // history: every task that returned

  datatype Action =
    | LoopTest(i: nat)
    | Test(i: nat)
    | Block(i: nat)
    | WakeSpuriously(i: nat)
    | Finish(i: nat)
    | Push(task: Task)
    | NotifyOne(target: Option<nat>)
    | SetStop
    | NotifyAll
    | RequestNext
    | JoinNext

  predicate WorkerAction(a: Action) {
    a.LoopTest? || a.Test? || a.Block? || a.Finish?
  }

  function Init(workers: nat): Pool {
    Pool(seq(workers, i => Top), seq(workers, i => false), [], false, None, 0, NotStopping, workers, [], [], [])
  }

  predicate At(s: Pool, i: nat, stage: Stage) {
    i < |s.workers| && s.workers[i] == stage
  }

  predicate AnyBlocked(s: Pool) {
    Blocked in s.workers
  }

  predicate AllExited(s: Pool) {
    forall i :: 0 <= i < |s.workers| ==> s.workers[i] == Exited
  }

  predicate Enabled(s: Pool, a: Action) {
    match a
    case LoopTest(i) => At(s, i, Top) && i < |s.requested|
    case Test(i) => (At(s, i, WantLock) || At(s, i, Woken)) && s.holder == None
    case Block(i) => At(s, i, WillBlock)
    case WakeSpuriously(i) => At(s, i, Blocked)
    case Finish(i) => i < |s.workers| && s.workers[i].Running?
    case Push(_) => s.holder == None
    case NotifyOne(target) =>
      s.notifications > 0 && (if target.Some? then At(s, target.value, Blocked) else !AnyBlocked(s))
    case SetStop => s.holder == None && (s.stopper == NotStopping || s.stopper == Stopped)
    case NotifyAll => s.stopper == Notifying
    case RequestNext => s.stopper.Requesting? && s.handles <= |s.requested|
    case JoinNext => s.stopper.Joining? && (s.stopper.next < s.handles ==> At(s, s.stopper.next, Exited))
  }

  function Become(s: Pool, i: nat, stage: Stage): Pool
    requires i < |s.workers|
  {
    s.(workers := s.workers[i := stage])
  }

  function WakeAll(workers: seq<Stage>): seq<Stage> {
    seq(|workers|, i requires 0 <= i < |workers| => if workers[i] == Blocked then Woken else workers[i])
  }

  function Next(s: Pool, a: Action): Pool
    requires Enabled(s, a)
  {
    match a
    case LoopTest(i) => Become(s, i, if s.requested[i] then Exited else WantLock)
    case Test(i) =>
      if s.tasks != [] then
        Become(s, i, Running(s.tasks[0])).(tasks := s.tasks[1..], started := s.started + [s.tasks[0]])
      else if s.stop then Become(s, i, Exited)
      else Become(s, i, WillBlock).(holder := Some(i))
    case Block(i) => Become(s, i, Blocked).(holder := None)
    case WakeSpuriously(i) => Become(s, i, Woken)
    case Finish(i) => Become(s, i, Top).(finished := s.finished + [s.workers[i].task])
    case Push(t) =>
      s.(tasks := s.tasks + [t], notifications := s.notifications + 1, enqueued := s.enqueued + [t])
    case NotifyOne(target) =>
      (if target.Some? then Become(s, target.value, Woken) else s).(notifications := s.notifications - 1)
    case SetStop => s.(stop := true, stopper := Notifying)
    case NotifyAll => s.(workers := WakeAll(s.workers), stopper := Requesting(0))
    case RequestNext =>
      var next := s.stopper.next;
      if next < s.handles then s.(requested := s.requested[next := true], stopper := Requesting(next + 1))
      else s.(stopper := Joining(0))
    case JoinNext =>
      var next := s.stopper.next;
      if next < s.handles then s.(stopper := Joining(next + 1))
      else s.(handles := 0, stopper := Stopped)
  }

  /** A run is a list of steps, each enabled where it is taken. */
  ghost predicate Run(s: Pool, actions: seq<Action>)
    decreases |actions|
  {
    actions != [] ==> Enabled(s, actions[0]) && Run(Next(s, actions[0]), actions[1..])
  }

  ghost function After(s: Pool, actions: seq<Action>): Pool
    requires Run(s, actions)
    decreases |actions|
  {
    if actions == [] then s else After(Next(s, actions[0]), actions[1..])
  }

  /** A sum over the workers of a weight that depends on the stage. */
  ghost function Total(workers: seq<Stage>, weight: Stage -> nat): nat {
    if workers == [] then 0 else weight(workers[0]) + Total(workers[1..], weight)
  }

  lemma TotalUpdate(workers: seq<Stage>, i: nat, stage: Stage, weight: Stage -> nat)
    requires i < |workers|
    ensures Total(workers[i := stage], weight) + weight(workers[i]) == Total(workers, weight) + weight(stage)
  {
    if i == 0 {
      assert workers[i := stage][1..] == workers[1..];
    } else {
      assert workers[i := stage][1..] == workers[1..][i - 1 := stage];
      TotalUpdate(workers[1..], i - 1, stage, weight);
    }
  }

  lemma TotalAtLeast(workers: seq<Stage>, i: nat, weight: Stage -> nat)
    requires i < |workers|
    ensures Total(workers, weight) >= weight(workers[i])
  {
    if i == 0 {
    } else {
      TotalAtLeast(workers[1..], i - 1, weight);
    }
  }

  /** How many workers are running task t. */
  ghost function Copies(workers: seq<Stage>, t: Task): nat {
    if workers == [] then 0 else (if workers[0] == Running(t) then 1 else 0) + Copies(workers[1..], t)
  }

  lemma CopiesUpdate(workers: seq<Stage>, i: nat, stage: Stage, t: Task)
    requires i < |workers|
    ensures Copies(workers[i := stage], t) + (if workers[i] == Running(t) then 1 else 0) ==
            Copies(workers, t) + (if stage == Running(t) then 1 else 0)
  {
    if i == 0 {
      assert workers[i := stage][1..] == workers[1..];
    } else {
      assert workers[i := stage][1..] == workers[1..][i - 1 := stage];
      CopiesUpdate(workers[1..], i - 1, stage, t);
    }
  }

  lemma CopiesWakeAll(workers: seq<Stage>, t: Task)
    ensures Copies(WakeAll(workers), t) == Copies(workers, t)
  {
    if workers == [] {
    } else {
      assert WakeAll(workers)[1..] == WakeAll(workers[1..]);
      CopiesWakeAll(workers[1..], t);
    }
  }
}
