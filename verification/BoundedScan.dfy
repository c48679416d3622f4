/** A scan of n frames produces n frames, numbered 1 to n, and then stops by itself. */
module BoundedScan {
  import opened StringUtils
  import opened Protocol
  import opened Device
  import opened ScanModel
  import opened ScanProofs
  import opened ScanResults

  /** A client neither starts nor stops the scan nor changes the frame limit; it may do anything
      else, CALZ included. */
  predicate Quiet(p: Protocol, e: Engine, a: Action) {
    a.Step? || (Commanded(p, e.dev, a).scanning == e.dev.scanning && Commanded(p, e.dev, a).cfg.fps == e.dev.cfg.fps)
  }

  ghost predicate QuietRun(p: Protocol, e: Engine, actions: seq<Action>)
    requires Run(p, e, actions)
    decreases |actions|
  {
    actions != [] ==> Quiet(p, e, actions[0]) && QuietRun(p, Next(p, e, actions[0]), actions[1..])
  }

  /** 1, 2, ..., k */
  function UpTo(k: nat): seq<nat> {
    seq(k, i requires 0 <= i => i + 1)
  }

  /** How many frames of the scan the thread has finished. */
  function Finished(thread: Thread): int {
    match thread
    case Outer => 0
    case Calibrating => 0
    case Entering => 0
    case Between(_, number) => number - 1
    case Sampling(s) => s.number - 1
    case Delivering(s) => s.number - 1
    case Limiting(_, number) => number
  }

  predicate InRange(thread: Thread, n: nat) {
    && 0 <= Finished(thread) <= n
    && (thread.Limiting? ==> Finished(thread) > 0)
    && (!thread.Limiting? && Inside(thread) ==> Finished(thread) < n)
  }

  /** The scan that began with the log `before` and has the limit n has produced the frames before
      the current one, or is over. */
  ghost predicate InScan(e: Engine, before: seq<nat>, n: nat) {
    && e.dev.cfg.fps == n
    && if e.dev.scanning then InRange(e.thread, n) && e.log == before + UpTo(Finished(e.thread))
       else !e.thread.Sampling? && !e.thread.Delivering? && !e.thread.Limiting? && e.log == before + UpTo(n)
  }

  /** A scan has been started and the thread has not begun its first frame: it sleeps outside the
      loop, finishes a calibration, or is about to enter the loop or the first frame. */
  ghost predicate ScanBegins(e: Engine) {
    e.dev.scanning && (!Inside(e.thread) || (e.thread.Between? && e.thread.number == 1))
  }

  lemma InScanStep(p: Protocol, e: Engine, a: Action, before: seq<nat>, n: nat)
    requires InScan(e, before, n) && 0 < n < COUNTER && Enabled(p, e, a) && Quiet(p, e, a)
    ensures InScan(Next(p, e, a), before, n)
    ensures e.dev.scanning && !Next(p, e, a).dev.scanning ==>
              a.Step? && e.thread.Limiting? && e.thread.number == n && Next(p, e, a).dev.status == READY
  {
    if a.Step? {
      ThreadInScan(p, e, a.drawn, before, n);
      return;
    }
    assert Next(p, e, a).thread == e.thread && Next(p, e, a).log == e.log;
  }

  lemma ThreadInScan(p: Protocol, e: Engine, drawn: seq<real>, before: seq<nat>, n: nat)
    requires InScan(e, before, n) && 0 < n < COUNTER
    requires p.maxCounts > 0 && Sound(e) && |drawn| == MAX_CHANNELS
    ensures var t := ThreadStep(p, e, drawn);
            && InScan(t, before, n)
            && (e.dev.scanning && !t.dev.scanning ==>
                 e.thread.Limiting? && e.thread.number == n && t.dev.status == READY)
  {
    if e.thread.Delivering? {
      OneFrameMore(before, e.thread.s.number);
      return;
    }
    if e.thread.Limiting? {
      return;
    }
    if e.thread.Sampling? {
      return;
    }
  }

  lemma OneFrameMore(before: seq<nat>, k: nat)
    requires k > 0
    ensures before + UpTo(k - 1) + [k] == before + UpTo(k)
  {
    assert UpTo(k) == UpTo(k - 1) + [k];
  }

  lemma {:induction false} InScanRun(p: Protocol, e: Engine, actions: seq<Action>, before: seq<nat>, n: nat)
    requires InScan(e, before, n) && 0 < n < COUNTER && Run(p, e, actions) && QuietRun(p, e, actions)
    ensures InScan(After(p, e, actions), before, n)
    decreases |actions|
  {
    if actions == [] {
    } else {
      InScanStep(p, e, actions[0], before, n);
      InScanRun(p, Next(p, e, actions[0]), actions[1..], before, n);
    }
  }

  /** From the start of a scan of n > 0 frames, wherever the thread is outside the loop, in every run
      that leaves the scan and its limit alone: the frames produced are numbered 1, 2, 3, ..., never
      more than n; the scan is over only when all n are there; and the step that ends it is the thread's
      own, behind frame n, and leaves status READY even if a CALZ has come meanwhile. */
  lemma ScanOfNFrames(p: Protocol, e: Engine, actions: seq<Action>, n: nat, next: Action)
    requires ScanBegins(e) && e.dev.cfg.fps == n && 0 < n < COUNTER
    requires Run(p, e, actions) && QuietRun(p, e, actions)
    requires Enabled(p, After(p, e, actions), next) && Quiet(p, After(p, e, actions), next)
    ensures var t := After(p, e, actions);
            exists k :: 0 <= k <= n && t.log == e.log + UpTo(k) && (!t.dev.scanning ==> k == n)
    ensures var t, u := After(p, e, actions), Next(p, After(p, e, actions), next);
            t.dev.scanning && !u.dev.scanning ==>
              next.Step? && t.log == u.log == e.log + UpTo(n) && u.dev.status == READY
  {
    assert e.log == e.log + [] && UpTo(0) == [];
    InScanRun(p, e, actions, e.log, n);
    var t := After(p, e, actions);
    InScanStep(p, t, next, e.log, n);
    var k := if t.dev.scanning then Finished(t.thread) else n;
    assert t.log == e.log + UpTo(k);
  }

  /** Without a limit the thread never ends the scan. */
  lemma {:induction false} UnlimitedScanGoesOn(p: Protocol, e: Engine, actions: seq<Action>)
    requires Run(p, e, actions) && QuietRun(p, e, actions) && e.dev.scanning && e.dev.cfg.fps == 0
    ensures After(p, e, actions).dev.scanning && After(p, e, actions).dev.cfg.fps == 0
    decreases |actions|
  {
    if actions == [] {
    } else {
      UnlimitedScanGoesOn(p, Next(p, e, actions[0]), actions[1..]);
    }
  }

  // ---- The end is reached -----------------------------------------------------------------------------

  /** The sub-frame count stays within a bound; it may change with every SET RATE. */
  ghost predicate AveragesWithin(p: Protocol, e: Engine, actions: seq<Action>, most: nat)
    requires Run(p, e, actions)
    decreases |actions|
  {
    && e.dev.averages <= most
    && (actions != [] ==> AveragesWithin(p, Next(p, e, actions[0]), actions[1..], most))
  }

  ghost function ThreadSteps(actions: seq<Action>): nat {
    if actions == [] then 0 else (if actions[0].Step? then 1 else 0) + ThreadSteps(actions[1..])
  }

  /** The most thread steps until the scan has ended: every frame takes one for each sub-frame and
      four more. */
  ghost function StepsFrom(thread: Thread, most: nat, n: nat): int {
    var cycle := most + 4;
    match thread
    case Outer => n * cycle + 3
    case Calibrating => n * cycle + 2
    case Entering => n * cycle + 1
    case Between(_, number) => (n - number + 1) * cycle
    case Sampling(s) => (n - s.number) * cycle + (most - s.taken) + 3
    case Delivering(s) => (n - s.number) * cycle + 2
    case Limiting(_, number) => (n - number) * cycle + 1
  }

  ghost predicate TakenOk(e: Engine, most: nat) {
    e.thread.Sampling? ==> e.thread.s.taken <= most
  }

  lemma ThreadStepLeft(p: Protocol, e: Engine, drawn: seq<real>, before: seq<nat>, n: nat, most: nat)
    requires InScan(e, before, n) && 0 < n < COUNTER && TakenOk(e, most) && e.dev.averages <= most
    requires p.maxCounts > 0 && Sound(e) && |drawn| == MAX_CHANNELS
    requires e.dev.scanning && ThreadStep(p, e, drawn).dev.scanning
    ensures StepsFrom(ThreadStep(p, e, drawn).thread, most, n) < StepsFrom(e.thread, most, n)
    ensures TakenOk(ThreadStep(p, e, drawn), most)
  {
    if e.thread.Between? {
      OneCycle(n - e.thread.number, most + 4);
    }
  }

  lemma OneCycle(k: int, cycle: int)
    ensures (k + 1) * cycle == k * cycle + cycle
  {
  }

  lemma StepsFromPositive(e: Engine, before: seq<nat>, n: nat, most: nat)
    requires InScan(e, before, n) && e.dev.scanning && TakenOk(e, most)
    ensures StepsFrom(e.thread, most, n) > 0
  {
    var k := match e.thread {
      case Outer => n
      case Calibrating => n
      case Entering => n
      case Between(_, number) => n - number + 1
      case Sampling(s) => n - s.number
      case Delivering(s) => n - s.number
      case Limiting(_, number) => n - number
    };
    NotNegative(k, most + 4);
  }

  lemma NotNegative(k: nat, cycle: nat)
    ensures k * cycle >= 0 && (k > 0 && cycle > 0 ==> k * cycle > 0)
  {
  }

  lemma {:induction false} StepsCounted(p: Protocol, e: Engine, actions: seq<Action>, before: seq<nat>, n: nat,
          most: nat)
    requires InScan(e, before, n) && 0 < n < COUNTER && TakenOk(e, most)
    requires Run(p, e, actions) && QuietRun(p, e, actions) && AveragesWithin(p, e, actions, most)
    ensures var t := After(p, e, actions);
            t.dev.scanning ==>
              e.dev.scanning && TakenOk(t, most)
              && ThreadSteps(actions) + StepsFrom(t.thread, most, n) <= StepsFrom(e.thread, most, n)
    decreases |actions|
  {
    if actions == [] {
    } else {
      var a, u := actions[0], Next(p, e, actions[0]);
      InScanStep(p, e, a, before, n);
      if !e.dev.scanning || !u.dev.scanning {
        StaysOver(p, u, actions[1..]);
        return;
      }
      if a.Step? {
        ThreadStepLeft(p, e, a.drawn, before, n, most);
      }
      StepsCounted(p, u, actions[1..], before, n, most);
    }
  }

  lemma {:induction false} StaysOver(p: Protocol, e: Engine, actions: seq<Action>)
    requires Run(p, e, actions) && QuietRun(p, e, actions) && !e.dev.scanning
    ensures !After(p, e, actions).dev.scanning
    decreases |actions|
  {
    if actions == [] {
    } else {
      StaysOver(p, Next(p, e, actions[0]), actions[1..]);
    }
  }

  /** While the sub-frame count stays within a bound, the scan of n frames is over once the thread
      has taken that many steps per frame and four more, and three; it has then produced exactly the
      frames 1 to n. */
  lemma ScanEndsWithin(p: Protocol, e: Engine, actions: seq<Action>, n: nat, most: nat)
    requires ScanBegins(e) && e.dev.cfg.fps == n && 0 < n < COUNTER
    requires Run(p, e, actions) && QuietRun(p, e, actions) && AveragesWithin(p, e, actions, most)
    ensures ThreadSteps(actions) >= n * (most + 4) + 3 ==>
              !After(p, e, actions).dev.scanning && After(p, e, actions).log == e.log + UpTo(n)
  {
    assert e.log == e.log + [] && UpTo(0) == [];
    InScanRun(p, e, actions, e.log, n);
    StepsCounted(p, e, actions, e.log, n, most);
    if After(p, e, actions).dev.scanning {
      StepsFromPositive(After(p, e, actions), e.log, n, most);
    }
  }

  lemma {:induction false} AveragesStayWithin(p: Protocol, e: Engine, actions: seq<Action>)
    requires RangeOk(p) && Inv(p, e) && Run(p, e, actions)
    ensures AveragesWithin(p, e, actions, MOST_AVERAGES)
    decreases |actions|
  {
    if actions == [] {
    } else {
      StepInv(p, e, actions[0]);
      AveragesStayWithin(p, Next(p, e, actions[0]), actions[1..]);
    }
  }

  /** A scan of n frames ends, whatever rates are set meanwhile: after a number of thread steps that
      depends on n alone it is over and has produced exactly the frames 1 to n; and the thread can
      always take its next step. */
  lemma ScanEnds(p: Protocol, e: Engine, actions: seq<Action>, n: nat, drawn: seq<real>)
    requires RangeOk(p) && Inv(p, e) && |drawn| == MAX_CHANNELS
    requires ScanBegins(e) && e.dev.cfg.fps == n && 0 < n < COUNTER
    requires Run(p, e, actions) && QuietRun(p, e, actions)
    ensures Enabled(p, After(p, e, actions), Step(drawn))
    ensures ThreadSteps(actions) >= n * (MOST_AVERAGES + 4) + 3 ==>
              !After(p, e, actions).dev.scanning && After(p, e, actions).log == e.log + UpTo(n)
  {
    ThreadCanStep(p, e, actions, drawn);
    AveragesStayWithin(p, e, actions);
    ScanEndsWithin(p, e, actions, n, MOST_AVERAGES);
  }

  lemma ThreadCanStep(p: Protocol, e: Engine, actions: seq<Action>, drawn: seq<real>)
    requires RangeOk(p) && Inv(p, e) && |drawn| == MAX_CHANNELS && Run(p, e, actions)
    ensures Enabled(p, After(p, e, actions), Step(drawn))
  {
    RunInv(p, e, actions);
  }
}
