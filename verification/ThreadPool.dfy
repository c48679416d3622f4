/** aero::ThreadPool as an object.  Each method is one atomic piece of the worker loop, of
    Enqueue or of StopAll; the scheduler decides which one runs next.  The precondition of a
    method is that its thread has reached that piece of code, and its postcondition is the step
    of PoolModel that the piece performs.  Every method keeps what PoolProofs proves of all runs. */
module ThreadPool {
  import opened StringUtils
  import P = PoolModel
  import PoolProofs

  class ThreadPool {
    var workers: seq<P.Stage>
    var requested: seq<bool>
    var tasks: seq<P.Task>
    var stop: bool
    var holder: Option<nat>
    var notifications: nat
    var stopper: P.Stopper
    var handles: nat
    ghost var enqueued: seq<P.Task>
    ghost var started: seq<P.Task>
    ghost var finished: seq<P.Task>

    ghost function View(): P.Pool
      reads this
    {
      P.Pool(workers, requested, tasks, stop, holder, notifications, stopper, handles, enqueued, started, finished)
    }

    /** No wake-up is lost, no task is lost or duplicated, and the stop flag is where StopAll is. */
    ghost predicate Valid()
      reads this
    {
      PoolProofs.Inv(View())
    }

    constructor (n: nat)
      ensures Valid() && View() == P.Init(n)
    {
      workers, requested := seq(n, i => P.Top), seq(n, i => false);
      tasks, stop, holder := [], false, None;
      notifications, stopper, handles := 0, P.NotStopping, n;
      enqueued, started, finished := [], [], [];
      PoolProofs.InitInv(n);
    }

    // ---- The worker loop ----------------------------------------------------------------

    /** `while (!stop.stop_requested())` */
    method LoopTest(i: nat)
      requires Valid() && P.Enabled(View(), P.LoopTest(i))
      modifies this
      ensures Valid() && View() == P.Next(old(View()), P.LoopTest(i))
    {
      PoolProofs.StepInv(View(), P.LoopTest(i));
      if requested[i] {
        workers := workers[i := P.Exited];
      } else {
        workers := workers[i := P.WantLock];
      }
    }

    /** Lock the mutex, test the wait predicate, and take a task, leave, or prepare to sleep. */
    method Test(i: nat)
      requires Valid() && P.Enabled(View(), P.Test(i))
      modifies this
      ensures Valid() && View() == P.Next(old(View()), P.Test(i))
    {
      PoolProofs.StepInv(View(), P.Test(i));
      if tasks == [] && !stop {
        holder := Some(i);
        workers := workers[i := P.WillBlock];
        return;
      }
      if stop && tasks == [] {
        workers := workers[i := P.Exited];
        return;
      }
      var task := tasks[0];
      tasks := tasks[1..];
      started := started + [task];
      workers := workers[i := P.Running(task)];
    }

    /** Fall asleep and release the mutex. */
    method Block(i: nat)
      requires Valid() && P.Enabled(View(), P.Block(i))
      modifies this
      ensures Valid() && View() == P.Next(old(View()), P.Block(i))
    {
      PoolProofs.StepInv(View(), P.Block(i));
      workers := workers[i := P.Blocked];
      holder := None;
    }

    /** The task returns. */
    method Finish(i: nat)
      requires Valid() && P.Enabled(View(), P.Finish(i))
      modifies this
      ensures Valid() && View() == P.Next(old(View()), P.Finish(i))
    {
      PoolProofs.StepInv(View(), P.Finish(i));
      finished := finished + [workers[i].task];
      workers := workers[i := P.Top];
    }

    // ---- Enqueue --------------------------------------------------------------------------

    method Push(task: P.Task)
      requires Valid() && P.Enabled(View(), P.Push(task))
      modifies this
      ensures Valid() && View() == P.Next(old(View()), P.Push(task))
    {
      PoolProofs.StepInv(View(), P.Push(task));
      tasks := tasks + [task];
      enqueued := enqueued + [task];
      notifications := notifications + 1;
    }

    method NotifyOne(target: Option<nat>)
      requires Valid() && P.Enabled(View(), P.NotifyOne(target))
      modifies this
      ensures Valid() && View() == P.Next(old(View()), P.NotifyOne(target))
    {
      PoolProofs.StepInv(View(), P.NotifyOne(target));
      notifications := notifications - 1;
      if target.Some? {
        workers := workers[target.value := P.Woken];
      }
    }

    // ---- StopAll --------------------------------------------------------------------------

    method SetStop()
      requires Valid() && P.Enabled(View(), P.SetStop)
      modifies this
      ensures Valid() && View() == P.Next(old(View()), P.SetStop)
    {
      PoolProofs.StepInv(View(), P.SetStop);
      stop := true;
      stopper := P.Notifying;
    }

    method NotifyAll()
      requires Valid() && P.Enabled(View(), P.NotifyAll)
      modifies this
      ensures Valid() && View() == P.Next(old(View()), P.NotifyAll)
    {
      PoolProofs.StepInv(View(), P.NotifyAll);
      var i := 0;
      ghost var before := workers;
      while i < |workers|
        invariant |workers| == |before| && i <= |before|
        invariant forall k :: 0 <= k < |before| ==>
                    workers[k] == if k < i && before[k] == P.Blocked then P.Woken else before[k]
        invariant View() == old(View()).(workers := workers)
      {
        if workers[i] == P.Blocked {
          workers := workers[i := P.Woken];
        }
        i := i + 1;
      }
      assert workers == P.WakeAll(before);
      stopper := P.Requesting(0);
    }

    method RequestNext()
      requires Valid() && P.Enabled(View(), P.RequestNext)
      modifies this
      ensures Valid() && View() == P.Next(old(View()), P.RequestNext)
    {
      PoolProofs.StepInv(View(), P.RequestNext);
      var next := stopper.next;
      if next < handles {
        requested := requested[next := true];
        stopper := P.Requesting(next + 1);
      } else {
        stopper := P.Joining(0);
      }
    }

    method JoinNext()
      requires Valid() && P.Enabled(View(), P.JoinNext)
      modifies this
      ensures Valid() && View() == P.Next(old(View()), P.JoinNext)
    {
      PoolProofs.StepInv(View(), P.JoinNext);
      var next := stopper.next;
      if next < handles {
        stopper := P.Joining(next + 1);
      } else {
        handles := 0;
        stopper := P.Stopped;
      }
    }
  }
}
