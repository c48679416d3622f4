/** The newest client is always served, even by a server with a single worker for handlers: a
    handler that stands in its way belongs to a client that has been kicked, and ends. */
module NewestClient {
  import opened StringUtils
  import opened ControlModel
  import opened ControlProofs

  /** The active client's handler is enqueued and not started. */
  ghost predicate Waiting(s: Control) {
    s.active != 0 && s.active in s.queue
  }

  /** Its place in the queue. */
  ghost function Place(queue: seq<Id>, id: Id): nat
    requires id in queue
    ensures Place(queue, id) < |queue| && queue[Place(queue, id)] == id && id !in queue[..Place(queue, id)]
  {
    if queue[0] == id then 0
    else
      assert id in queue[1..] && queue == [queue[0]] + queue[1..];
      assert queue[..1 + Place(queue[1..], id)] == [queue[0]] + queue[1..][..Place(queue[1..], id)];
      1 + Place(queue[1..], id)
  }

  /** Every handler that runs, or is queued ahead of the active client's, serves a client that is
      no longer connected. */
  lemma OnlyDeadAhead(s: Control)
    requires Inv(s) && Waiting(s)
    ensures forall k :: 0 <= k < |s.slots| && s.slots[k].Busy? ==> s.slots[k].id !in s.connections
    ensures forall j :: 0 <= j < Place(s.queue, s.active) ==> s.queue[j] !in s.connections
  {
  }

  /** The steps a handler of a disconnected client can still take. */
  ghost function Weight(slot: Slot): nat {
    match slot
    case Free => 0
    case Busy(_, Kicking) => 1
    case Busy(_, Checking) => 2
    case Busy(_, Receiving) => 2
    case Busy(_, Calling(_)) => 3
  }

  ghost function Load(slots: seq<Slot>): nat {
    if slots == [] then 0 else Weight(slots[0]) + Load(slots[1..])
  }

  /** The handler steps between now and the start of the active client's handler. */
  ghost function Distance(s: Control): nat
    requires Waiting(s)
  {
    3 * Place(s.queue, s.active) + Load(s.slots)
  }

  lemma LoadUpdate(slots: seq<Slot>, k: nat, slot: Slot)
    requires k < |slots|
    ensures Load(slots[k := slot]) + Weight(slots[k]) == Load(slots) + Weight(slot)
  {
    if k == 0 {
      assert slots[k := slot][1..] == slots[1..];
    } else {
      assert slots[k := slot][1..] == slots[1..][k - 1 := slot];
      LoadUpdate(slots[1..], k - 1, slot);
    }
  }

  lemma PlaceOfFirst(queue: seq<Id>, id: Id, more: seq<Id>)
    requires id in queue
    ensures Place(queue + more, id) == Place(queue, id)
    ensures queue[0] != id ==> id in queue[1..] && Place(queue[1..], id) == Place(queue, id) - 1
  {
    if queue[0] != id {
      assert (queue + more)[1..] == queue[1..] + more;
      PlaceOfFirst(queue[1..], id, more);
    }
  }

  /** While the active client waits, a handler step brings its start closer and no other step
      pushes it back, unless an even newer client takes control. */
  lemma StepCloser(s: Control, a: Action)
    requires Inv(s) && Waiting(s) && Enabled(s, a)
    requires Waiting(Next(s, a)) && Next(s, a).active == s.active
    ensures if HandlerAction(a) then Distance(Next(s, a)) < Distance(s) else Distance(Next(s, a)) == Distance(s)
  {
    if a.StartHandler? {
      StartCloser(s, a.k);
    } else if HandlerAction(a) {
      SlotCloser(s, a);
    } else if a.EnqueueHandler? {
      PlaceOfFirst(s.queue, s.active, [s.accepting.id]);
    }
  }

  lemma StartCloser(s: Control, k: nat)
    requires Inv(s) && Waiting(s) && Enabled(s, StartHandler(k)) && Waiting(Next(s, StartHandler(k)))
    ensures Distance(Next(s, StartHandler(k))) < Distance(s)
  {
    LoadUpdate(s.slots, k, Busy(s.queue[0], Checking));
    PlaceOfFirst(s.queue, s.active, []);
  }

  lemma SlotCloser(s: Control, a: Action)
    requires Inv(s) && Waiting(s) && Enabled(s, a) && HandlerAction(a) && !a.StartHandler?
    ensures Next(s, a).queue == s.queue && Next(s, a).active == s.active && Distance(Next(s, a)) < Distance(s)
  {
    var t := Next(s, a);
    SlotLighter(s, a);
    LoadUpdate(s.slots, a.k, t.slots[a.k]);
  }

  /** A dead handler's step moves it on; its own kick is not the active client's. */
  lemma SlotLighter(s: Control, a: Action)
    requires Inv(s) && Waiting(s) && Enabled(s, a) && HandlerAction(a) && !a.StartHandler?
    ensures var t := Next(s, a);
            && t.queue == s.queue && t.active == s.active
            && |t.slots| == |s.slots| && t.slots == s.slots[a.k := t.slots[a.k]]
            && Weight(t.slots[a.k]) < Weight(s.slots[a.k])
  {
  }

  /** A handler step that waits for nobody: recv() fails only where the client is gone. */
  predicate Unaided(s: Control, a: Action) {
    HandlerAction(a) && Enabled(s, a) && (a.ReceiveFails? ==> s.slots[a.k].id !in s.connections)
  }

  /** There is always a handler step to take. */
  lemma HandlerCanStep(s: Control)
    requires Inv(s) && Waiting(s) && s.slots != []
    ensures exists a :: Unaided(s, a)
  {
    OnlyDeadAhead(s);
    var a := match s.slots[0]
      case Free => StartHandler(0)
      case Busy(_, Checking) => CheckConnection(0)
      case Busy(_, Receiving) => ReceiveFails(0)
      case Busy(_, Calling(_)) => DataCallback(0)
      case Busy(_, Kicking) => HandlerKick(0);
    assert Unaided(s, a);
  }

  /** The same client waits all along a run. */
  ghost predicate WaitsThrough(s: Control, actions: seq<Action>)
    requires Run(s, actions)
    decreases |actions|
  {
    && Waiting(s)
    && (actions != [] ==>
          && Next(s, actions[0]).active == s.active
          && WaitsThrough(Next(s, actions[0]), actions[1..]))
  }

  ghost function HandlerSteps(actions: seq<Action>): nat {
    if actions == [] then 0 else (if HandlerAction(actions[0]) then 1 else 0) + HandlerSteps(actions[1..])
  }

  lemma {:induction false} WaitIsBounded(s: Control, actions: seq<Action>)
    requires Inv(s) && Run(s, actions) && WaitsThrough(s, actions)
    ensures Inv(After(s, actions)) && Waiting(After(s, actions)) && |After(s, actions).slots| == |s.slots|
    ensures HandlerSteps(actions) + Distance(After(s, actions)) <= Distance(s)
    decreases |actions|
  {
    if actions == [] {
    } else {
      StepInv(s, actions[0]);
      StepCloser(s, actions[0]);
      WaitIsBounded(Next(s, actions[0]), actions[1..]);
    }
  }

  /** Take any server whose pool leaves at least one worker to the handlers, such as the binary
      server with its two workers.  From any reachable state, the active client's handler cannot
      be kept waiting for more than Distance(s) handler steps, and as long as it waits there is a
      handler step to take that needs no client's help; so it starts, unless a newer client takes over first. */
  lemma NewestClientIsServed(s: Control, actions: seq<Action>, kind: Kind, workers: nat, udp: bool, before: seq<Action>)
    requires FreeWorkers(workers, udp) >= 1
    requires Run(Init(kind, FreeWorkers(workers, udp)), before)
    requires s == After(Init(kind, FreeWorkers(workers, udp)), before)
    requires Run(s, actions) && WaitsThrough(s, actions)
    ensures Waiting(s) && HandlerSteps(actions) <= Distance(s)
    ensures exists a :: Unaided(After(s, actions), a)
  {
    RunInv(Init(kind, FreeWorkers(workers, udp)), before);
    WaitIsBounded(s, actions);
    HandlerCanStep(After(s, actions));
  }
}
