/** The life of server connections across loops (chtho/net/TcpServer.cpp, with
    TcpConnection.cpp, Channel.cpp and EventLoop.cpp where they hand over control).

    The main loop accepts connections and keeps the connection map; each connection lives
    on an I/O loop, or on the main loop when there are no others.  Loops talk only through
    their task queues.  A step is one callback, one queued task, or one move of a loop. */
module TcpServers {
  import opened Common
  import opened ConnStates

  type ConnId = nat

  const MAIN: nat := 0

  datatype Task = EstablishTask(c: ConnId) | RemoveTask(c: ConnId) | DestroyTask(c: ConnId) | CloseTask(c: ConnId)

  datatype Phase = Polling | Dispatching | Running

  /** A loop: its queue, the rest of the swapped batch, and the channels poll returned that
      are not handled yet. */
  datatype Loop = Loop(phase: Phase, active: seq<ConnId>, batch: seq<Task>, pending: seq<Task>) {
    function Tasks(): seq<Task> { batch + pending }

    function Count(t: Task): nat { multiset(Tasks())[t] }
  }

  /** A connection, with counts of handleClose, erasure from the map, and connDestroyed. */
  datatype Info = Info(
    loop: nat, state: ConnState, reading: bool, writing: bool, closes: nat, erased: nat, destroyed: nat)
  {
    predicate Live() { state.Connected? || state.Disconnecting? }

    predicate NoEvents() { !reading && !writing }
  }

  datatype State = State(
    loops: seq<Loop>,             // the main loop first
    nxt: nat,                     // round robin over the I/O loops
    nextId: ConnId,               // nxtConnID_
    conns: set<ConnId>,           // keys of conns_
    info: map<ConnId, Info>)

  datatype Step =
    | NewConn                               // the acceptor's callback on the main loop
    | Poll(l: nat, active: seq<ConnId>)
    | CloseEvent(l: nat)                    // the next active channel ends in handleClose
    | OtherEvent(l: nat)                    // ... or not
    | SetWriting(c: ConnId, on: bool)       // enableWrite, disableWrite
    | ShutDown(c: ConnId)
    | ForceClose(c: ConnId)
    | EndDispatch(l: nat)
    | RunTask(l: nat)
    | EndBatch(l: nat)

  function Initial(ioLoops: nat): State {
    State(seq(ioLoops + 1, _ => Loop(Polling, [], [], [])), 0, 1, {}, map[])
  }

  /** The user's callbacks run on the connection's loop, outside poll. */
  predicate OnLoop(s: State, c: ConnId) {
    c in s.info && s.info[c].loop < |s.loops| && !s.loops[s.info[c].loop].phase.Polling?
  }

  predicate Enabled(s: State, a: Step) {
    match a
    case NewConn => s.loops != [] && s.loops[MAIN].phase.Dispatching?
    case Poll(l, active) =>
      l < |s.loops| && s.loops[l].phase.Polling? && Distinct(active)
      && (forall c :: c in active ==> c in s.info && s.info[c].loop == l && !s.info[c].NoEvents())
    case CloseEvent(l) => l < |s.loops| && s.loops[l].phase.Dispatching? && s.loops[l].active != []
    case OtherEvent(l) => l < |s.loops| && s.loops[l].phase.Dispatching? && s.loops[l].active != []
    case SetWriting(c, _) => OnLoop(s, c) && s.info[c].Live()
    case ShutDown(c) => OnLoop(s, c)
    case ForceClose(c) => OnLoop(s, c)
    case EndDispatch(l) => l < |s.loops| && s.loops[l].phase.Dispatching? && s.loops[l].active == []
    case RunTask(l) => l < |s.loops| && s.loops[l].phase.Running? && s.loops[l].batch != []
    case EndBatch(l) => l < |s.loops| && s.loops[l].phase.Running? && s.loops[l].batch == []
  }

  // ---------------------------------------------------------------- operations

  function SetLoop(s: State, l: nat, loop: Loop): State
    requires l < |s.loops|
  {
    s.(loops := s.loops[l := loop])
  }

  function SetInfo(s: State, c: ConnId, i: Info): State { s.(info := s.info[c := i]) }

  /** `queueInLoop`. */
  function Queue(s: State, l: nat, t: Task): State
    requires l < |s.loops|
  {
    SetLoop(s, l, s.loops[l].(pending := s.loops[l].pending + [t]))
  }

  /** `connEstablished`. */
  function Establish(s: State, c: ConnId): State
    requires c in s.info
  {
    SetInfo(s, c, s.info[c].(state := Connected, reading := true))
  }

  /** `rmConnInLoop`: erase from the map, then queue connDestroyed on the connection's loop. */
  function RemoveInLoop(s: State, c: ConnId): State
    requires c in s.info && s.info[c].loop < |s.loops|
  {
    Queue(SetInfo(s.(conns := s.conns - {c}), c, s.info[c].(erased := s.info[c].erased + 1)),
          s.info[c].loop, DestroyTask(c))
  }

  /** `handleClose` on loop l, ending in `rmConn`: at once on the main loop, else queued there. */
  function Close(s: State, l: nat, c: ConnId): State
    requires c in s.info && s.info[c].loop < |s.loops|
  {
    var i := s.info[c];
    var s1 := SetInfo(s, c, i.(state := Disconnected, reading := false, writing := false, closes := i.closes + 1));
    if l == MAIN then RemoveInLoop(s1, c) else Queue(s1, MAIN, RemoveTask(c))
  }

  /** `connDestroyed`. */
  function Destroy(s: State, c: ConnId): State
    requires c in s.info
  {
    var i := s.info[c];
    var i1 := if i.state.Connected? then i.(state := Disconnected, reading := false, writing := false) else i;
    SetInfo(s, c, i1.(destroyed := i1.destroyed + 1))
  }

  /** `getNextLoop`. */
  function NextLoop(s: State): nat { if |s.loops| <= 1 then MAIN else 1 + s.nxt }

  /** The turn after the current one. */
  function NextTurn(s: State): nat {
    if |s.loops| <= 1 then s.nxt else if s.nxt + 1 >= |s.loops| - 1 then 0 else s.nxt + 1
  }

  /** `newConn` up to its hand-over: the connection is in the map and known. */
  function Admitted(s: State): State
    requires s.loops != []
  {
    s.(nxt := NextTurn(s), nextId := s.nextId + 1, conns := s.conns + {s.nextId},
       info := s.info[s.nextId := Info(NextLoop(s), Connecting, false, false, 0, 0, 0)])
  }

  /** `newConn`: runInLoop establishes at once on the main loop itself, else it queues. */
  function Accept(s: State): State
    requires NextLoop(s) < |s.loops|
  {
    var c, l := s.nextId, NextLoop(s);
    if l == MAIN then Establish(Admitted(s), c) else Queue(Admitted(s), l, EstablishTask(c))
  }

  function RunOne(s: State, l: nat, t: Task): State
    requires t.c in s.info && s.info[t.c].loop < |s.loops|
  {
    match t
    case EstablishTask(c) => Establish(s, c)
    case RemoveTask(c) => RemoveInLoop(s, c)
    case DestroyTask(c) => Destroy(s, c)
    case CloseTask(c) => if s.info[c].Live() then Close(s, l, c) else s
  }

  /** Assertions of a queued task: its connection exists and is where the task needs it,
      `conns_.erase` finds one entry, and a channel is removed with no events while its
      loop is not dispatching. */
  predicate TaskAsserted(s: State, l: nat, t: Task) {
    && l < |s.loops| && t.c in s.info && s.info[t.c].loop < |s.loops|
    && (match t
        case EstablishTask(c) => s.info[c].loop == l && s.info[c].state.Connecting?
        case RemoveTask(c) => l == MAIN && c in s.conns
        case DestroyTask(c) =>
          s.info[c].loop == l && Destroy(s, c).info[c].NoEvents() && !s.loops[l].phase.Dispatching?
        case CloseTask(c) => s.info[c].loop == l && (l == MAIN && s.info[c].Live() ==> c in s.conns))
  }

  /** The assertions of the source along a step. */
  predicate Asserted(s: State, a: Step) {
    match a
    case NewConn => s.nextId !in s.conns && s.nextId !in s.info && NextLoop(s) < |s.loops|
    case CloseEvent(l) =>
      && l < |s.loops| && s.loops[l].active != []
      && var c := s.loops[l].active[0];
         c in s.info && s.info[c].loop == l && s.info[c].Live() && (l == MAIN ==> c in s.conns)
    case RunTask(l) => l < |s.loops| && s.loops[l].batch != [] && TaskAsserted(s, l, s.loops[l].batch[0])
    case _ => true
  }

  function Apply(s: State, a: Step): State
    requires Enabled(s, a) && Asserted(s, a)
  {
    match a
    case NewConn => Accept(s)
    case Poll(l, active) => SetLoop(s, l, s.loops[l].(phase := Dispatching, active := active))
    case CloseEvent(l) =>
      var c := s.loops[l].active[0];
      Close(SetLoop(s, l, s.loops[l].(active := s.loops[l].active[1..])), l, c)
    case OtherEvent(l) => SetLoop(s, l, s.loops[l].(active := s.loops[l].active[1..]))
    case SetWriting(c, on) => SetInfo(s, c, s.info[c].(writing := on))
    case ShutDown(c) =>
      if s.info[c].state.Connected? then SetInfo(s, c, s.info[c].(state := Disconnecting)) else s
    case ForceClose(c) =>
      if s.info[c].Live() then
        Queue(SetInfo(s, c, s.info[c].(state := Disconnecting)), s.info[c].loop, CloseTask(c))
      else s
    case EndDispatch(l) =>
      SetLoop(s, l, s.loops[l].(phase := Running, batch := s.loops[l].pending, pending := []))
    case RunTask(l) =>
      RunOne(SetLoop(s, l, s.loops[l].(batch := s.loops[l].batch[1..])), l, s.loops[l].batch[0])
    case EndBatch(l) => SetLoop(s, l, s.loops[l].(phase := Polling))
  }

  predicate CanRun(s: State, run: seq<Step>)
    decreases |run|
  {
    run == [] ||
    (Enabled(s, run[0]) && Asserted(s, run[0]) && CanRun(Apply(s, run[0]), run[1..]))
  }

  function Exec(s: State, run: seq<Step>): State
    requires CanRun(s, run)
    decreases |run|
  {
    if run == [] then s else Exec(Apply(s, run[0]), run[1..])
  }

  // ---------------------------------------------------------------- the invariant

  ghost function One(b: bool): nat { if b then 1 else 0 }

  /** The task belongs to a known connection and is on the loop that may run it. */
  ghost predicate Placed(s: State, l: nat, t: Task) {
    t.c in s.info && (if t.RemoveTask? then l == MAIN else s.info[t.c].loop == l)
  }

  ghost predicate LoopOk(s: State, l: nat)
    requires l < |s.loops|
  {
    var loop := s.loops[l];
    && (loop.active != [] ==> loop.phase.Dispatching?)
    && (loop.batch != [] ==> loop.phase.Running?)
    && Distinct(loop.active)
    && (forall c :: c in loop.active ==> c in s.info && s.info[c].loop == l && s.info[c].Live())
    && (forall t :: t in loop.batch ==> Placed(s, l, t))
    && (forall t :: t in loop.pending ==> Placed(s, l, t))
  }

  /** A connection's stage, told by its state and the map, is also told by the one task it
      has in the queues: to establish it, to remove it, to destroy it, or none. */
  ghost predicate ConnOk(s: State, c: ConnId)
    requires c in s.info
  {
    var i := s.info[c];
    && i.loop < |s.loops|
    && (i.Live() <==> i.reading) && (i.writing ==> i.Live())
    && s.loops[i.loop].Count(EstablishTask(c)) == One(i.state.Connecting?)
    && s.loops[MAIN].Count(RemoveTask(c)) == One(i.state.Disconnected? && c in s.conns && i.loop != MAIN)
    && (i.state.Disconnected? && c in s.conns ==> i.loop != MAIN)
    && s.loops[i.loop].Count(DestroyTask(c)) == One(c !in s.conns && i.destroyed == 0)
    && (c !in s.conns ==> i.state.Disconnected?)
    && i.closes == One(i.state.Disconnected?)
    && i.erased == One(c !in s.conns)
    && i.destroyed <= i.erased
  }

  ghost predicate Inv(s: State) {
    InvBut(s, 0) && (0 in s.info ==> ConnOk(s, 0))
  }

  /** The invariant for all connections but c. */
  ghost predicate InvBut(s: State, c: ConnId) {
    && s.loops != [] && s.nextId > 0 && NextLoop(s) < |s.loops|
    && (forall l :: 0 <= l < |s.loops| ==> LoopOk(s, l))
    && (forall d {:trigger ConnOk(s, d)} :: d in s.info && d != c ==> ConnOk(s, d))
    && (forall d :: d in s.conns ==> d in s.info)
    && (forall d :: d in s.info ==> 0 < d < s.nextId)
  }

  lemma CountQueue(loop: Loop, t: Task, u: Task)
    ensures loop.(pending := loop.pending + [t]).Count(u) == loop.Count(u) + One(t == u)
  {
    assert loop.batch + (loop.pending + [t]) == loop.batch + loop.pending + [t];
  }

  lemma CountPop(loop: Loop, u: Task)
    requires loop.batch != []
    ensures loop.Count(u) == loop.(batch := loop.batch[1..]).Count(u) + One(loop.batch[0] == u)
  {
    assert loop.batch + loop.pending == [loop.batch[0]] + (loop.batch[1..] + loop.pending);
  }

  lemma CountIn(loop: Loop, t: Task)
    ensures loop.Count(t) > 0 <==> t in loop.batch || t in loop.pending
  {
  }

  lemma QueueCounts(s: State, l: nat, t: Task, k: nat, u: Task)
    requires l < |s.loops| && k < |s.loops|
    ensures Queue(s, l, t).loops[k].Count(u) == s.loops[k].Count(u) + One(k == l && t == u)
  {
    CountQueue(s.loops[l], t, u);
  }

  function Popped(s: State, l: nat): State
    requires l < |s.loops| && s.loops[l].batch != []
  {
    SetLoop(s, l, s.loops[l].(batch := s.loops[l].batch[1..]))
  }

  lemma PopCounts(s: State, l: nat, k: nat, u: Task)
    requires l < |s.loops| && k < |s.loops| && s.loops[l].batch != []
    ensures s.loops[k].Count(u) == Popped(s, l).loops[k].Count(u) + One(k == l && s.loops[l].batch[0] == u)
  {
    CountPop(s.loops[l], u);
  }

  // ---------------------------------------------------------------- frames

  /** Nothing about connection d changed, its tasks included. */
  ghost predicate SameFor(s: State, s': State, d: ConnId) {
    && d in s.info && d in s'.info && s'.info[d] == s.info[d]
    && (d in s'.conns <==> d in s.conns)
    && |s'.loops| == |s.loops|
    && (forall k :: 0 <= k < |s.loops| ==> SameTasks(s.loops[k], s'.loops[k], d))
  }

  ghost predicate SameTasks(a: Loop, b: Loop, d: ConnId) {
    && a.Count(EstablishTask(d)) == b.Count(EstablishTask(d))
    && a.Count(RemoveTask(d)) == b.Count(RemoveTask(d))
    && a.Count(DestroyTask(d)) == b.Count(DestroyTask(d))
  }

  lemma SameKeeps(s: State, s': State, d: ConnId)
    requires d in s.info && ConnOk(s, d) && SameFor(s, s', d) && s.loops != []
    ensures ConnOk(s', d)
  {
    assert SameTasks(s.loops[MAIN], s'.loops[MAIN], d);
    assert SameTasks(s.loops[s.info[d].loop], s'.loops[s.info[d].loop], d);
  }

  /** Every loop stays in order when no known connection moves, no active one dies, and the
      tasks are still those of before or newly placed ones. */
  ghost predicate LoopKept(s: State, s': State, l: nat)
    requires l < |s.loops| && l < |s'.loops|
  {
    var a, b := s.loops[l], s'.loops[l];
    && (forall d :: d in s.info ==> d in s'.info && s'.info[d].loop == s.info[d].loop)
    && (b.active != [] ==> b.phase.Dispatching?) && (b.batch != [] ==> b.phase.Running?)
    && Distinct(b.active)
    && (forall d :: d in b.active ==> d in s'.info && s'.info[d].loop == l && s'.info[d].Live())
    && (forall t :: t in b.batch ==> t in a.batch || t in a.pending || Placed(s', l, t))
    && (forall t :: t in b.pending ==> t in a.pending || Placed(s', l, t))
  }

  lemma KeptOk(s: State, s': State, l: nat)
    requires l < |s.loops| && l < |s'.loops| && LoopOk(s, l) && LoopKept(s, s', l)
    ensures LoopOk(s', l)
  {
  }

  lemma AllKept(s: State, s': State, c: ConnId)
    requires InvBut(s, c) && |s'.loops| == |s.loops|
    requires forall l :: 0 <= l < |s.loops| ==> LoopKept(s, s', l)
    requires forall d :: d in s'.info && d != c ==> SameFor(s, s', d)
    requires forall d :: d in s'.conns ==> d in s'.info
    requires NextLoop(s') < |s'.loops|
    requires s'.nextId > 0 && forall d :: d in s'.info ==> 0 < d < s'.nextId
    ensures InvBut(s', c)
  {
    forall l | 0 <= l < |s'.loops| ensures LoopOk(s', l) { KeptOk(s, s', l); }
    forall d | d in s'.info && d != c ensures ConnOk(s', d) { SameKeeps(s, s', d); }
  }

  lemma Whole(s: State, c: ConnId)
    requires InvBut(s, c) && c in s.info && ConnOk(s, c)
    ensures Inv(s)
  {
  }

  // ---------------------------------------------------------------- operations keep the invariant

  lemma PopKeeps(s: State, l: nat)
    requires Inv(s) && l < |s.loops| && s.loops[l].batch != []
    ensures InvBut(Popped(s, l), s.loops[l].batch[0].c)
  {
    var s', t := Popped(s, l), s.loops[l].batch[0];
    forall k | 0 <= k < |s.loops| ensures LoopKept(s, s', k) { assert LoopOk(s, k); }
    forall d | d in s'.info && d != t.c
      ensures SameFor(s, s', d)
    {
      forall k | 0 <= k < |s.loops| ensures SameTasks(s.loops[k], s'.loops[k], d) {
        PopCounts(s, l, k, EstablishTask(d));
        PopCounts(s, l, k, RemoveTask(d));
        PopCounts(s, l, k, DestroyTask(d));
      }
    }
    AllKept(s, s', t.c);
  }

  lemma QueueKeeps(s: State, l: nat, t: Task)
    requires InvBut(s, t.c) && l < |s.loops| && Placed(s, l, t)
    ensures InvBut(Queue(s, l, t), t.c)
  {
    hide ConnOk, LoopOk, LoopKept;
    var s' := Queue(s, l, t);
    forall k | 0 <= k < |s.loops| ensures LoopKept(s, s', k) { QueueLoopKept(s, l, t, k); }
    forall d | d in s'.info && d != t.c ensures SameFor(s, s', d) { QueueSameFor(s, l, t, d); }
    AllKept(s, s', t.c);
  }

  lemma QueueLoopKept(s: State, l: nat, t: Task, k: nat)
    requires l < |s.loops| && Placed(s, l, t) && k < |s.loops| && LoopOk(s, k)
    ensures LoopKept(s, Queue(s, l, t), k)
  {
  }

  lemma QueueSameFor(s: State, l: nat, t: Task, d: ConnId)
    requires l < |s.loops| && d in s.info && d != t.c
    ensures SameFor(s, Queue(s, l, t), d)
  {
    forall k | 0 <= k < |s.loops| ensures SameTasks(s.loops[k], Queue(s, l, t).loops[k], d) {
      QueueCounts(s, l, t, k, EstablishTask(d));
      QueueCounts(s, l, t, k, RemoveTask(d));
      QueueCounts(s, l, t, k, DestroyTask(d));
    }
  }

  /** A connection may change on its own as long as it stays on its loop and, if active, live. */
  lemma InfoKeeps(s: State, c: ConnId, i: Info, conns: set<ConnId>)
    requires InvBut(s, c) && c in s.info && i.loop == s.info[c].loop
    requires i.Live() || forall k :: 0 <= k < |s.loops| ==> c !in s.loops[k].active
    requires conns == s.conns || conns == s.conns - {c}
    ensures InvBut(SetInfo(s.(conns := conns), c, i), c)
  {
    var s' := SetInfo(s.(conns := conns), c, i);
    forall k | 0 <= k < |s.loops| ensures LoopKept(s, s', k) { assert LoopOk(s, k); }
    AllKept(s, s', c);
  }

  /** Closed, still in the map, and without a task of its own. */
  ghost predicate Closing(s: State, c: ConnId)
    requires c in s.info
  {
    var i := s.info[c];
    && i.state.Disconnected? && i.NoEvents() && i.closes == 1 && i.erased == 0 && i.destroyed == 0
    && c in s.conns && i.loop < |s.loops|
    && s.loops != [] && s.loops[i.loop].Count(EstablishTask(c)) == 0
    && s.loops[MAIN].Count(RemoveTask(c)) == 0 && s.loops[i.loop].Count(DestroyTask(c)) == 0
  }

  lemma DeadNotActive(s: State, c: ConnId)
    requires InvBut(s, c) && c in s.info && !s.info[c].Live()
    ensures forall k :: 0 <= k < |s.loops| ==> c !in s.loops[k].active
  {
    forall k | 0 <= k < |s.loops| ensures c !in s.loops[k].active { assert LoopOk(s, k); }
  }

  lemma RemoveKeeps(s: State, c: ConnId)
    requires InvBut(s, c) && c in s.info && Closing(s, c)
    ensures Inv(RemoveInLoop(s, c))
  {
    hide LoopOk, InvBut;
    var i := s.info[c];
    DeadNotActive(s, c);
    InfoKeeps(s, c, i.(erased := i.erased + 1), s.conns - {c});
    var s1 := SetInfo(s.(conns := s.conns - {c}), c, i.(erased := i.erased + 1));
    var t := DestroyTask(c);
    QueueKeeps(s1, i.loop, t);
    QueueCounts(s1, i.loop, t, i.loop, EstablishTask(c));
    QueueCounts(s1, i.loop, t, MAIN, RemoveTask(c));
    QueueCounts(s1, i.loop, t, i.loop, t);
    Whole(Queue(s1, i.loop, t), c);
  }

  lemma CloseKeeps(s: State, l: nat, c: ConnId)
    requires Inv(s) && c in s.info && s.info[c].loop == l < |s.loops| && s.info[c].Live()
    requires forall k :: 0 <= k < |s.loops| ==> c !in s.loops[k].active
    ensures Inv(Close(s, l, c))
  {
    CloseReady(s, c);
    var i := s.info[c];
    var s1 := SetInfo(s, c, i.(state := Disconnected, reading := false, writing := false, closes := i.closes + 1));
    if l == MAIN {
      RemoveKeeps(s1, c);
    } else {
      HandOver(s1, l, c);
    }
  }

  lemma CloseReady(s: State, c: ConnId)
    requires Inv(s) && c in s.info && s.info[c].Live()
    requires forall k :: 0 <= k < |s.loops| ==> c !in s.loops[k].active
    ensures var i := s.info[c];
            var s1 := SetInfo(s, c, i.(state := Disconnected, reading := false, writing := false, closes := i.closes + 1));
            InvBut(s1, c) && Closing(s1, c)
  {
    hide LoopOk, InvBut;
    var i := s.info[c];
    var i1 := i.(state := Disconnected, reading := false, writing := false, closes := i.closes + 1);
    KnownOk(s, c);
    InfoKeeps(s, c, i1, s.conns);
    assert SetInfo(s, c, i1) == SetInfo(s.(conns := s.conns), c, i1);
  }

  lemma KnownOk(s: State, c: ConnId)
    requires Inv(s) && c in s.info
    ensures ConnOk(s, c) && InvBut(s, c) && s.loops != []
  {
  }

  /** A closed connection of another loop is handed over to the main loop. */
  lemma HandOver(s: State, l: nat, c: ConnId)
    requires InvBut(s, c) && c in s.info && Closing(s, c) && s.info[c].loop == l != MAIN
    ensures Inv(Queue(s, MAIN, RemoveTask(c)))
  {
    hide LoopOk, InvBut;
    var t := RemoveTask(c);
    QueueKeeps(s, MAIN, t);
    QueueCounts(s, MAIN, t, l, EstablishTask(c));
    QueueCounts(s, MAIN, t, MAIN, t);
    QueueCounts(s, MAIN, t, l, DestroyTask(c));
    Whole(Queue(s, MAIN, t), c);
  }

  /** A move of one loop that leaves its tasks as they are. */
  lemma LoopMoveKeeps(s: State, l: nat, loop: Loop)
    requires Inv(s) && l < |s.loops| && loop.Tasks() == s.loops[l].Tasks()
    requires LoopKept(s, SetLoop(s, l, loop), l)
    ensures Inv(SetLoop(s, l, loop))
  {
    var s' := SetLoop(s, l, loop);
    forall k | 0 <= k < |s.loops| ensures LoopKept(s, s', k) { assert LoopOk(s, k); }
    forall d | d in s'.info
      ensures SameFor(s, s', d)
    {
      forall k | 0 <= k < |s.loops| ensures SameTasks(s.loops[k], s'.loops[k], d) {}
    }
    AllKept(s, s', 0);
  }

  lemma UnknownHasNoTasks(s: State, c: ConnId, k: nat, t: Task)
    requires Inv(s) && c !in s.info && k < |s.loops| && t.c == c
    ensures s.loops[k].Count(t) == 0
  {
    assert LoopOk(s, k);
    CountIn(s.loops[k], t);
  }

  lemma AdmitKeeps(s: State)
    requires Inv(s)
    ensures InvBut(Admitted(s), s.nextId)
  {
    var c, s1 := s.nextId, Admitted(s);
    AcceptIds(s);
    forall k | 0 <= k < |s.loops| ensures LoopKept(s, s1, k) { assert LoopOk(s, k); }
    forall d | d in s1.info && d != c
      ensures SameFor(s, s1, d)
    {
      forall k | 0 <= k < |s.loops| ensures SameTasks(s.loops[k], s1.loops[k], d) {}
    }
    AllKept(s, s1, c);
  }

  lemma AcceptKeeps(s: State)
    requires Inv(s)
    ensures Asserted(s, NewConn) && Inv(Accept(s))
  {
    hide LoopOk;
    var c, l, s1 := s.nextId, NextLoop(s), Admitted(s);
    AcceptIds(s);
    AdmitKeeps(s);
    UnknownHasNoTasks(s, c, l, EstablishTask(c));
    UnknownHasNoTasks(s, c, MAIN, RemoveTask(c));
    UnknownHasNoTasks(s, c, l, DestroyTask(c));
    if l == MAIN {
      var i := s1.info[c].(state := Connected, reading := true);
      InfoKeeps(s1, c, i, s1.conns);
      assert Accept(s) == SetInfo(s1.(conns := s1.conns), c, i);
    } else {
      var t := EstablishTask(c);
      QueueKeeps(s1, l, t);
      QueueCounts(s1, l, t, l, t);
      QueueCounts(s1, l, t, MAIN, RemoveTask(c));
      QueueCounts(s1, l, t, l, DestroyTask(c));
    }
    Whole(Accept(s), c);
  }

  lemma AcceptIds(s: State)
    requires Inv(s)
    ensures s.nextId !in s.info && s.nextId !in s.conns && NextLoop(s) < |s.loops|
  {
    if s.nextId in s.info { assert false; }
  }

  lemma PollKeeps(s: State, l: nat, active: seq<ConnId>)
    requires Inv(s) && Enabled(s, Poll(l, active))
    ensures Inv(Apply(s, Poll(l, active)))
  {
    forall c | c in active ensures s.info[c].Live() { assert ConnOk(s, c); }
    assert LoopOk(s, l);
    LoopMoveKeeps(s, l, s.loops[l].(phase := Dispatching, active := active));
  }

  lemma EventKeeps(s: State, l: nat)
    requires Inv(s) && Enabled(s, OtherEvent(l))
    ensures Inv(Apply(s, OtherEvent(l)))
    ensures var c := s.loops[l].active[0];
            c in s.info && s.info[c].loop == l && s.info[c].Live()
            && forall k :: 0 <= k < |s.loops| ==> c !in Apply(s, OtherEvent(l)).loops[k].active
  {
    assert LoopOk(s, l);
    var active := s.loops[l].active;
    assert forall d :: d in active[1..] ==> d in active && d != active[0];
    LoopMoveKeeps(s, l, s.loops[l].(active := active[1..]));
    forall k | 0 <= k < |s.loops|
      ensures active[0] !in Apply(s, OtherEvent(l)).loops[k].active
    {
      assert LoopOk(s, k);
    }
  }

  lemma SwapKeeps(s: State, l: nat)
    requires Inv(s) && Enabled(s, EndDispatch(l))
    ensures Inv(Apply(s, EndDispatch(l)))
  {
    assert LoopOk(s, l);
    assert s.loops[l].batch == [] && s.loops[l].pending + [] == [] + s.loops[l].pending;
    LoopMoveKeeps(s, l, s.loops[l].(phase := Running, batch := s.loops[l].pending, pending := []));
  }

  lemma ForceCloseKeeps(s: State, c: ConnId)
    requires Inv(s) && Enabled(s, ForceClose(c))
    ensures Inv(Apply(s, ForceClose(c)))
  {
    assert ConnOk(s, c);
    if s.info[c].Live() {
      var i := s.info[c].(state := Disconnecting);
      SelfKeeps(s, c, i);
      AskCloseKeeps(SetInfo(s, c, i), i.loop, c);
    }
  }

  lemma AskCloseKeeps(s: State, l: nat, c: ConnId)
    requires Inv(s) && c in s.info && s.info[c].loop == l
    ensures l < |s.loops| && Inv(Queue(s, l, CloseTask(c)))
  {
    assert ConnOk(s, c);
    var t := CloseTask(c);
    QueueKeeps(s, l, t);
    QueueCounts(s, l, t, l, EstablishTask(c));
    QueueCounts(s, l, t, MAIN, RemoveTask(c));
    QueueCounts(s, l, t, l, DestroyTask(c));
    Whole(Queue(s, l, t), c);
  }

  lemma SelfKeeps(s: State, c: ConnId, i: Info)
    requires Inv(s) && c in s.info && s.info[c].Live() && i.Live()
    requires i == s.info[c].(state := i.state, writing := i.writing)
    ensures Inv(SetInfo(s, c, i))
  {
    assert ConnOk(s, c);
    InfoKeeps(s, c, i, s.conns);
    assert SetInfo(s, c, i) == SetInfo(s.(conns := s.conns), c, i);
    Whole(SetInfo(s, c, i), c);
  }

  /** The loop l is about to run t, and t is right for its connection. */
  ghost predicate Ready(s: State, l: nat, t: Task) {
    && l < |s.loops| && s.loops[l].phase.Running? && s.loops[l].batch != [] && s.loops[l].batch[0] == t
    && t.c in s.info && s.info[t.c].loop < |s.loops| && Placed(s, l, t)
  }

  lemma ReadyCounts(s: State, l: nat, t: Task)
    requires Inv(s) && Ready(s, l, t)
    ensures var s1, k := Popped(s, l), s.info[t.c].loop;
            InvBut(s1, t.c) && ConnOk(s, t.c)
            && s.loops[k].Count(EstablishTask(t.c)) == s1.loops[k].Count(EstablishTask(t.c)) + One(t.EstablishTask? && k == l)
            && s.loops[MAIN].Count(RemoveTask(t.c)) == s1.loops[MAIN].Count(RemoveTask(t.c)) + One(t.RemoveTask? && l == MAIN)
            && s.loops[k].Count(DestroyTask(t.c)) == s1.loops[k].Count(DestroyTask(t.c)) + One(t.DestroyTask? && k == l)
    ensures s.loops[l].Count(t) > 0
  {
    var k := s.info[t.c].loop;
    PopKeeps(s, l);
    PopCounts(s, l, k, EstablishTask(t.c));
    PopCounts(s, l, MAIN, RemoveTask(t.c));
    PopCounts(s, l, k, DestroyTask(t.c));
    CountIn(s.loops[l], t);
  }

  lemma EstablishKeeps(s: State, l: nat, t: Task)
    requires Inv(s) && Ready(s, l, t) && t.EstablishTask?
    ensures TaskAsserted(s, l, t) && Inv(Establish(Popped(s, l), t.c))
  {
    ReadyCounts(s, l, t);
    var s1, i := Popped(s, l), s.info[t.c].(state := Connected, reading := true);
    InfoKeeps(s1, t.c, i, s1.conns);
    assert Establish(s1, t.c) == SetInfo(s1.(conns := s1.conns), t.c, i);
    Whole(Establish(s1, t.c), t.c);
  }

  lemma RemoveTaskKeeps(s: State, l: nat, t: Task)
    requires Inv(s) && Ready(s, l, t) && t.RemoveTask?
    ensures TaskAsserted(s, l, t) && Inv(RemoveInLoop(Popped(s, l), t.c))
  {
    ReadyCounts(s, l, t);
    assert Closing(Popped(s, l), t.c);
    RemoveKeeps(Popped(s, l), t.c);
  }

  lemma DestroyKeeps(s: State, l: nat, t: Task)
    requires Inv(s) && Ready(s, l, t) && t.DestroyTask?
    ensures TaskAsserted(s, l, t) && Inv(Destroy(Popped(s, l), t.c))
  {
    hide LoopOk, InvBut;
    ReadyCounts(s, l, t);
    var s1, i := Popped(s, l), s.info[t.c].(destroyed := s.info[t.c].destroyed + 1);
    DeadNotActive(s1, t.c);
    InfoKeeps(s1, t.c, i, s1.conns);
    assert Destroy(s1, t.c) == SetInfo(s1.(conns := s1.conns), t.c, i);
    Whole(Destroy(s1, t.c), t.c);
  }

  lemma CloseTaskKeeps(s: State, l: nat, t: Task)
    requires Inv(s) && Ready(s, l, t) && t.CloseTask?
    ensures TaskAsserted(s, l, t) && Inv(RunOne(Popped(s, l), l, t))
  {
    ReadyCounts(s, l, t);
    var s1 := Popped(s, l);
    assert ConnOk(s1, t.c);
    Whole(s1, t.c);
    if s.info[t.c].Live() {
      OnlyOnItsLoop(s, l, t.c);
      CloseKeeps(s1, l, t.c);
    }
  }

  /** A loop that runs tasks dispatches no channel, and no other loop has this one. */
  lemma OnlyOnItsLoop(s: State, l: nat, c: ConnId)
    requires Inv(s) && l < |s.loops| && s.loops[l].phase.Running? && c in s.info && s.info[c].loop == l
    ensures forall k :: 0 <= k < |s.loops| ==> c !in s.loops[k].active
  {
    forall k | 0 <= k < |s.loops| ensures c !in s.loops[k].active { assert LoopOk(s, k); }
  }

  /** A queued task finds its connection as it needs it, and hands it on in order. */
  lemma TaskKeeps(s: State, l: nat)
    requires Inv(s) && Enabled(s, RunTask(l))
    ensures Asserted(s, RunTask(l)) && Inv(Apply(s, RunTask(l)))
  {
    var t := s.loops[l].batch[0];
    assert LoopOk(s, l) && t in s.loops[l].batch && ConnOk(s, t.c);
    match t
    case EstablishTask(_) => EstablishKeeps(s, l, t);
    case RemoveTask(_) => RemoveTaskKeeps(s, l, t);
    case DestroyTask(_) => DestroyKeeps(s, l, t);
    case CloseTask(_) => CloseTaskKeeps(s, l, t);
  }

  lemma StepKeepsInv(s: State, a: Step)
    requires Inv(s) && Enabled(s, a)
    ensures Asserted(s, a) && Inv(Apply(s, a))
  {
    match a
    case NewConn => AcceptKeeps(s);
    case Poll(l, active) => PollKeeps(s, l, active);
    case CloseEvent(l) =>
      EventKeeps(s, l);
      var c := s.loops[l].active[0];
      assert ConnOk(s, c);
      CloseKeeps(Apply(s, OtherEvent(l)), l, c);
    case OtherEvent(l) => EventKeeps(s, l);
    case SetWriting(c, on) => SelfKeeps(s, c, s.info[c].(writing := on));
    case ShutDown(c) =>
      if s.info[c].state.Connected? { SelfKeeps(s, c, s.info[c].(state := Disconnecting)); }
    case ForceClose(c) => ForceCloseKeeps(s, c);
    case EndDispatch(l) => SwapKeeps(s, l);
    case RunTask(l) => TaskKeeps(s, l);
    case EndBatch(l) =>
      assert LoopOk(s, l);
      LoopMoveKeeps(s, l, s.loops[l].(phase := Polling));
  }

  lemma {:induction false} RunKeepsInv(s: State, run: seq<Step>)
    requires Inv(s) && CanRun(s, run)
    ensures Inv(Exec(s, run))
    decreases |run|
  {
    if run != [] {
      StepKeepsInv(s, run[0]);
      RunKeepsInv(Apply(s, run[0]), run[1..]);
    }
  }

  // ---------------------------------------------------------------- main results

  lemma InvInitial(ioLoops: nat)
    ensures Inv(Initial(ioLoops))
  {
  }

  /** In every interleaving every assertion holds: connNames are new, `erase` finds exactly
      one entry, handleClose and connEstablished find the state they need, and a channel is
      removed with no events while its loop is not dispatching. */
  lemma AssertionsHold(ioLoops: nat, run: seq<Step>, a: Step)
    requires CanRun(Initial(ioLoops), run) && Enabled(Exec(Initial(ioLoops), run), a)
    ensures Asserted(Exec(Initial(ioLoops), run), a)
  {
    InvInitial(ioLoops);
    RunKeepsInv(Initial(ioLoops), run);
    StepKeepsInv(Exec(Initial(ioLoops), run), a);
  }

  /** Each connection is closed, erased and destroyed at most once, in that order; it is out
      of the map exactly when it was erased; and from closing to destruction exactly one
      task carries it on: its removal on the main loop, then its destruction on its own. */
  lemma ExactlyOnceInOrder(ioLoops: nat, run: seq<Step>, c: ConnId)
    requires CanRun(Initial(ioLoops), run) && c in Exec(Initial(ioLoops), run).info
    ensures var s := Exec(Initial(ioLoops), run);
            var i := s.info[c];
            i.destroyed <= i.erased <= i.closes <= 1
            && (i.closes == 1 <==> i.state.Disconnected?)
            && (i.erased == 1 <==> c !in s.conns)
            && s.loops != [] && i.loop < |s.loops|
            && i.closes - i.destroyed == s.loops[MAIN].Count(RemoveTask(c)) + s.loops[i.loop].Count(DestroyTask(c))
            && (s.loops[MAIN].Count(RemoveTask(c)) == 1 <==> i.closes == 1 && i.erased == 0)
  {
    InvInitial(ioLoops);
    RunKeepsInv(Initial(ioLoops), run);
    assert ConnOk(Exec(Initial(ioLoops), run), c);
  }

  /** When the queues of the main loop and of its own loop have run dry, a closed connection
      has been erased and destroyed, however busy the other loops are. */
  lemma QuiescentMeansDone(ioLoops: nat, run: seq<Step>, c: ConnId)
    requires CanRun(Initial(ioLoops), run) && c in Exec(Initial(ioLoops), run).info
    requires var s := Exec(Initial(ioLoops), run);
             s.loops != [] && s.loops[MAIN].Tasks() == []
             && (s.info[c].loop < |s.loops| ==> s.loops[s.info[c].loop].Tasks() == [])
    ensures var i := Exec(Initial(ioLoops), run).info[c];
            i.destroyed == i.erased == i.closes && !i.state.Connecting?
  {
    ExactlyOnceInOrder(ioLoops, run, c);
    var s := Exec(Initial(ioLoops), run);
    RunKeepsInv(Initial(ioLoops), run);
    assert ConnOk(s, c);
    assert s.loops[MAIN].Tasks() == [] && s.loops[s.info[c].loop].Tasks() == [];
  }

  /** A closed connection stays closed, is not put back, and is not un-destroyed. */
  ghost predicate StaysClosed(s: State, s': State, c: ConnId)
    requires c in s.info
  {
    && c in s'.info && s'.info[c].state.Disconnected?
    && s'.info[c].destroyed >= s.info[c].destroyed && (c in s'.conns ==> c in s.conns)
  }

  lemma TaskKeepsClosed(s: State, l: nat, t: Task, c: ConnId)
    requires c in s.info && s.info[c].state.Disconnected? && TaskAsserted(s, l, t)
    ensures StaysClosed(s, RunOne(s, l, t), c)
  {
    match t
    case EstablishTask(d) => assert d != c;
    case RemoveTask(_) =>
    case DestroyTask(_) =>
    case CloseTask(d) => if d == c { assert !s.info[d].Live(); }
  }

  lemma EventKeepsClosed(s: State, l: nat, d: ConnId, c: ConnId)
    requires c in s.info && s.info[c].state.Disconnected?
    requires d in s.info && s.info[d].loop < |s.loops| && s.info[d].Live()
    ensures StaysClosed(s, Close(s, l, d), c)
  {
    assert d != c;
  }

  /** A closed connection changes in nothing but its erasure and destruction. */
  lemma StepKeepsClosed(s: State, a: Step, c: ConnId)
    requires Inv(s) && Enabled(s, a) && Asserted(s, a) && c in s.info && s.info[c].state.Disconnected?
    ensures StaysClosed(s, Apply(s, a), c)
  {
    match a
    case CloseEvent(l) =>
      var d := s.loops[l].active[0];
      assert ConnOk(s, d);
      EventKeepsClosed(SetLoop(s, l, s.loops[l].(active := s.loops[l].active[1..])), l, d, c);
    case RunTask(l) => TaskKeepsClosed(Popped(s, l), l, s.loops[l].batch[0], c);
    case _ =>
  }

  /** After handleClose, and so after connDestroyed, no later step enables the channel or
      puts the connection back, and connDestroyed does not run again. */
  lemma {:induction false} ClosedForGood(s: State, run: seq<Step>, c: ConnId)
    requires Inv(s) && CanRun(s, run) && c in s.info && s.info[c].state.Disconnected?
    ensures var s' := Exec(s, run);
            c in s'.info && s'.info[c].state.Disconnected? && s'.info[c].NoEvents()
            && (c !in s.conns ==> c !in s'.conns)
            && s.info[c].destroyed <= s'.info[c].destroyed <= 1
    decreases |run|
  {
    assert ConnOk(s, c);
    if run != [] {
      StepKeepsInv(s, run[0]);
      StepKeepsClosed(s, run[0], c);
      assert StaysClosed(s, Apply(s, run[0]), c);
      ClosedForGood(Apply(s, run[0]), run[1..], c);
    }
  }

  predicate HasTask(loop: Loop, t: Task) { t in loop.batch || t in loop.pending }

  /** A forced close is still to come, or the connection is closed. */
  ghost predicate Forced(s: State, c: ConnId) {
    && c in s.info && s.info[c].loop < |s.loops|
    && (s.info[c].state.Disconnected?
        || (s.info[c].Live() && HasTask(s.loops[s.info[c].loop], CloseTask(c))))
  }

  /** No task of the kind is lost, and c keeps its loop and stays live or is closed. */
  ghost predicate ForceKept(s: State, s': State, c: ConnId)
    requires c in s.info && s.info[c].loop < |s.loops|
  {
    && |s'.loops| == |s.loops| && c in s'.info && s'.info[c].loop == s.info[c].loop
    && (s'.info[c].Live() || s'.info[c].state.Disconnected?)
    && (HasTask(s.loops[s.info[c].loop], CloseTask(c)) ==> HasTask(s'.loops[s.info[c].loop], CloseTask(c)))
  }

  lemma CloseKeepsForce(s: State, l: nat, d: ConnId, c: ConnId)
    requires d in s.info && s.info[d].loop < |s.loops| && l < |s.loops|
    requires c in s.info && s.info[c].loop < |s.loops| && s.info[c].Live()
    ensures ForceKept(s, Close(s, l, d), c)
  {
  }

  lemma TaskKeepsForce(s: State, l: nat, t: Task, c: ConnId)
    requires TaskAsserted(s, l, t) && c in s.info && s.info[c].loop < |s.loops| && s.info[c].Live()
    ensures ForceKept(s, RunOne(s, l, t), c)
    ensures t == CloseTask(c) ==> RunOne(s, l, t).info[c].state.Disconnected?
  {
    match t
    case EstablishTask(_) =>
    case RemoveTask(_) =>
    case DestroyTask(_) =>
    case CloseTask(d) => if s.info[d].Live() { CloseKeepsForce(s, l, d, c); }
  }

  lemma StepKeepsForced(s: State, a: Step, c: ConnId)
    requires Inv(s) && Enabled(s, a) && Asserted(s, a) && Forced(s, c)
    ensures Forced(Apply(s, a), c)
  {
    assert ConnOk(s, c);
    if s.info[c].state.Disconnected? {
      StepKeepsClosed(s, a, c);
      StepKeepsInv(s, a);
      assert ConnOk(Apply(s, a), c);
    } else {
      LiveKeepsForced(s, a, c);
    }
  }

  lemma LiveKeepsForced(s: State, a: Step, c: ConnId)
    requires Inv(s) && Enabled(s, a) && Asserted(s, a) && Forced(s, c) && s.info[c].Live()
    ensures Forced(Apply(s, a), c)
  {
    match a
    case CloseEvent(l) =>
      var s1 := SetLoop(s, l, s.loops[l].(active := s.loops[l].active[1..]));
      CloseKeepsForce(s1, l, s.loops[l].active[0], c);
    case RunTask(l) =>
      var s1, t := Popped(s, l), s.loops[l].batch[0];
      assert s.loops[l].batch == [t] + s1.loops[l].batch;
      TaskKeepsForce(s1, l, t, c);
    case EndDispatch(l) => assert LoopOk(s, l);
    case _ =>
  }

  lemma {:induction false} RunKeepsForced(s: State, run: seq<Step>, c: ConnId)
    requires Inv(s) && CanRun(s, run) && Forced(s, c)
    ensures Forced(Exec(s, run), c)
    decreases |run|
  {
    if run != [] {
      StepKeepsInv(s, run[0]);
      StepKeepsForced(s, run[0], c);
      RunKeepsForced(Apply(s, run[0]), run[1..], c);
    }
  }

  /** A forced close is carried out: after forceClose on a live connection, whatever
      follows, once its loop's queue is empty the connection is closed. */
  lemma ForcedCloseHappens(s: State, c: ConnId, run: seq<Step>)
    requires Inv(s) && Enabled(s, ForceClose(c)) && s.info[c].Live()
    requires CanRun(Apply(s, ForceClose(c)), run)
    ensures var s' := Exec(Apply(s, ForceClose(c)), run);
            c in s'.info && s'.info[c].loop < |s'.loops|
            && (s'.loops[s'.info[c].loop].Tasks() == [] ==> s'.info[c].state.Disconnected?)
  {
    StepKeepsInv(s, ForceClose(c));
    RunKeepsForced(Apply(s, ForceClose(c)), run, c);
  }

  /** connDestroyed runs only after handleClose and erasure, with no events on the channel. */
  lemma DestroyedOnlyClosed(s: State, l: nat)
    requires Inv(s) && Enabled(s, RunTask(l)) && s.loops[l].batch[0].DestroyTask?
    ensures var c := s.loops[l].batch[0].c;
            c in s.info && s.info[c].loop == l && s.info[c].state.Disconnected? && s.info[c].NoEvents()
            && s.info[c].closes == 1 && s.info[c].erased == 1 && s.info[c].destroyed == 0
            && c !in s.conns && !s.loops[l].phase.Dispatching? && s.loops[l].active == []
  {
    var t := s.loops[l].batch[0];
    assert LoopOk(s, l) && t in s.loops[l].batch && Placed(s, l, t) && ConnOk(s, t.c);
    CountIn(s.loops[l], t);
  }

  // ---------------------------------------------------------------- what each step does

  /** The loop is about to run this task. */
  predicate RunsNow(s: State, a: Step, t: Task) {
    a.RunTask? && a.l < |s.loops| && s.loops[a.l].batch != [] && s.loops[a.l].batch[0] == t
  }

  /** The step is handleClose of c: its channel closes, or a forced close of it, while live,
      comes up in the queue. */
  predicate ClosesNow(s: State, a: Step, c: ConnId) {
    (a.CloseEvent? && a.l < |s.loops| && s.loops[a.l].active != [] && s.loops[a.l].active[0] == c)
    || (RunsNow(s, a, CloseTask(c)) && c in s.info && s.info[c].Live())
  }

  /** The step erases c: its removal comes up, or it closes on the main loop itself. */
  predicate ErasesNow(s: State, a: Step, c: ConnId) {
    RunsNow(s, a, RemoveTask(c)) || (ClosesNow(s, a, c) && (a.CloseEvent? || a.RunTask?) && a.l == MAIN)
  }

  /** The user asks for the end of c. */
  predicate AsksNow(s: State, a: Step, c: ConnId) {
    c in s.info && ((a == ShutDown(c) && s.info[c].state.Connected?) || (a == ForceClose(c) && s.info[c].Live()))
  }

  /** What any step does to a known connection. */
  ghost predicate Effect(s: State, a: Step, s': State, c: ConnId)
    requires c in s.info
  {
    c in s'.info
    && var i, i' := s.info[c], s'.info[c];
       && i'.loop == i.loop
       && i'.state == (if ClosesNow(s, a, c) then Disconnected
                       else if RunsNow(s, a, EstablishTask(c)) then Connected
                       else if AsksNow(s, a, c) then Disconnecting else i.state)
       && i'.closes == i.closes + One(ClosesNow(s, a, c))
       && i'.erased == i.erased + One(ErasesNow(s, a, c))
       && i'.destroyed == i.destroyed + One(RunsNow(s, a, DestroyTask(c)))
       && i'.writing == (if ClosesNow(s, a, c) then false
                         else if a.SetWriting? && a.c == c then a.on else i.writing)
       && (c in s'.conns <==> c in s.conns && !ErasesNow(s, a, c))
  }

  lemma CloseEffect(s: State, l: nat, a: Step, c: ConnId)
    requires Inv(s) && c in s.info && a == CloseEvent(l) && Enabled(s, a) && Asserted(s, a)
    ensures Effect(s, a, Apply(s, a), c)
  {
  }

  lemma TaskEffect(s: State, l: nat, c: ConnId)
    requires Inv(s) && c in s.info && Enabled(s, RunTask(l)) && Asserted(s, RunTask(l))
    ensures Effect(s, RunTask(l), Apply(s, RunTask(l)), c)
  {
    if s.loops[l].batch[0].DestroyTask? { DestroyedOnlyClosed(s, l); }
    hide Inv;
  }

  /** In every state a run can reach, every step has exactly this effect on every connection. */
  lemma StepOnConnection(s: State, a: Step, c: ConnId)
    requires Inv(s) && Enabled(s, a) && Asserted(s, a) && c in s.info
    ensures Effect(s, a, Apply(s, a), c)
  {
    AcceptIds(s);
    match a
    case CloseEvent(l) => CloseEffect(s, l, a, c);
    case RunTask(l) => TaskEffect(s, l, c);
    case _ => hide Inv;
  }

  /** A close event closes: the connection has no events any more, and on the main loop it is
      out of the map with its destruction queued, elsewhere its removal is on its way. */
  lemma CloseEventCloses(s: State, l: nat)
    requires Inv(s) && Enabled(s, CloseEvent(l))
    ensures Asserted(s, CloseEvent(l))
    ensures var c, s' := s.loops[l].active[0], Apply(s, CloseEvent(l));
            c in s'.info && s'.info[c].state.Disconnected? && s'.info[c].NoEvents() && s'.info[c].closes == 1
            && s'.loops != []
            && (if l == MAIN then c !in s'.conns && s'.info[c].erased == 1 && DestroyTask(c) in s'.loops[MAIN].pending
                else c in s'.conns && RemoveTask(c) in s'.loops[MAIN].pending)
  {
    var c := s.loops[l].active[0];
    StepKeepsInv(s, CloseEvent(l));
    assert LoopOk(s, l) && ConnOk(s, c) && ConnOk(Apply(s, CloseEvent(l)), c);
    StepOnConnection(s, CloseEvent(l), c);
  }

  /** Accepting makes one connection, under the next id and on the loop whose turn it is:
      established at once on the main loop, else with that queued. */
  lemma NewConnAdmits(s: State)
    requires Inv(s) && Enabled(s, NewConn)
    ensures Asserted(s, NewConn)
    ensures var c, l, s' := s.nextId, NextLoop(s), Apply(s, NewConn);
            c !in s.info && s'.nextId == c + 1 && c in s'.info && s'.info[c].loop == l < |s.loops|
            && s'.conns == s.conns + {c} && c !in s.conns && s'.info - {c} == s.info
            && (if l == MAIN then s'.info[c].state.Connected? && s'.loops == s.loops
                else s'.info[c].state.Connecting? && s'.loops[l].pending == s.loops[l].pending + [EstablishTask(c)])
  {
    AcceptIds(s);
  }

  /** Only accepting makes connections. */
  lemma OthersAdmitNone(s: State, a: Step)
    requires Inv(s) && Enabled(s, a) && Asserted(s, a) && !a.NewConn?
    ensures Apply(s, a).info.Keys == s.info.Keys && Apply(s, a).nextId == s.nextId && Apply(s, a).nxt == s.nxt
  {
  }

  // ---------------------------------------------------------------- the queues

  /** What handleClose of c on loop l queues on loop k. */
  function CloseQueues(s: State, l: nat, c: ConnId, k: nat): seq<Task> {
    if l != MAIN then (if k == MAIN then [RemoveTask(c)] else [])
    else if c in s.info && s.info[c].loop == k then [DestroyTask(c)] else []
  }

  /** What a step queues on loop k. */
  function QueuesOn(s: State, a: Step, k: nat): seq<Task>
    requires Enabled(s, a) && Asserted(s, a)
  {
    match a
    case NewConn => if k == NextLoop(s) && k != MAIN then [EstablishTask(s.nextId)] else []
    case CloseEvent(l) => CloseQueues(s, l, s.loops[l].active[0], k)
    case ForceClose(c) => if s.info[c].Live() && s.info[c].loop == k then [CloseTask(c)] else []
    case RunTask(l) =>
      (match s.loops[l].batch[0]
       case RemoveTask(c) => if s.info[c].loop == k then [DestroyTask(c)] else []
       case CloseTask(c) => if s.info[c].Live() then CloseQueues(s, l, c, k) else []
       case _ => [])
    case _ => []
  }

  function RunsOn(s: State, a: Step, k: nat): seq<Task>
    requires Enabled(s, a)
  {
    if a == RunTask(k) then [s.loops[k].batch[0]] else []
  }

  function QueuedOn(s: State, run: seq<Step>, k: nat): seq<Task>
    requires CanRun(s, run)
    decreases |run|
  {
    if run == [] then [] else QueuesOn(s, run[0], k) + QueuedOn(Apply(s, run[0]), run[1..], k)
  }

  function RanOn(s: State, run: seq<Step>, k: nat): seq<Task>
    requires CanRun(s, run)
    decreases |run|
  {
    if run == [] then [] else RunsOn(s, run[0], k) + RanOn(Apply(s, run[0]), run[1..], k)
  }

  lemma Chain(a: seq<Task>, b: seq<Task>, c: seq<Task>)
    ensures a + b + c == a + (b + c) && [] + a == a && a + [] == a
  {
  }

  lemma QueueFlow(s: State, l: nat, t: Task, k: nat)
    requires l < |s.loops| && k < |s.loops|
    ensures Queue(s, l, t).loops[k].Tasks() == s.loops[k].Tasks() + if k == l then [t] else []
  {
    Chain(s.loops[k].batch, s.loops[k].pending, [t]);
    Chain(s.loops[k].Tasks(), [], []);
  }

  lemma CloseFlow(s: State, l: nat, c: ConnId, k: nat)
    requires c in s.info && s.info[c].loop < |s.loops| && l < |s.loops| && k < |s.loops|
    ensures Close(s, l, c).loops[k].Tasks() == s.loops[k].Tasks() + CloseQueues(s, l, c, k)
  {
    var i := s.info[c];
    var s1 := SetInfo(s, c, i.(state := Disconnected, reading := false, writing := false, closes := i.closes + 1));
    if l == MAIN {
      var s2 := SetInfo(s1.(conns := s1.conns - {c}), c, s1.info[c].(erased := s1.info[c].erased + 1));
      QueueFlow(s2, i.loop, DestroyTask(c), k);
    } else {
      QueueFlow(s1, MAIN, RemoveTask(c), k);
    }
  }

  lemma PopFlow(s: State, l: nat, k: nat)
    requires l < |s.loops| && k < |s.loops| && s.loops[l].batch != []
    ensures s.loops[k].Tasks() == (if k == l then [s.loops[l].batch[0]] else []) + Popped(s, l).loops[k].Tasks()
  {
    var batch := s.loops[l].batch;
    if k == l {
      assert batch == [batch[0]] + batch[1..];
      Chain([batch[0]], batch[1..], s.loops[l].pending);
    }
  }

  lemma TaskFlow(s: State, l: nat, t: Task, k: nat)
    requires TaskAsserted(s, l, t) && k < |s.loops|
    ensures RunOne(s, l, t).loops[k].Tasks() == s.loops[k].Tasks() +
            (match t
             case RemoveTask(c) => if s.info[c].loop == k then [DestroyTask(c)] else []
             case CloseTask(c) => if s.info[c].Live() then CloseQueues(s, l, c, k) else []
             case _ => [])
  {
    Chain(s.loops[k].Tasks(), [], []);
    match t
    case RemoveTask(c) =>
      var s1 := SetInfo(s.(conns := s.conns - {c}), c, s.info[c].(erased := s.info[c].erased + 1));
      QueueFlow(s1, s.info[c].loop, DestroyTask(c), k);
    case CloseTask(c) => if s.info[c].Live() { CloseFlow(s, l, c, k); }
    case _ =>
  }

  /** A loop's tasks before a step and what the step queues on it are what it runs and the
      loop's tasks after it. */
  lemma StepFlow(s: State, a: Step, k: nat)
    requires Inv(s) && Enabled(s, a) && Asserted(s, a) && k < |s.loops|
    ensures |Apply(s, a).loops| == |s.loops|
    ensures s.loops[k].Tasks() + QueuesOn(s, a, k) == RunsOn(s, a, k) + Apply(s, a).loops[k].Tasks()
  {
    Chain(s.loops[k].Tasks(), [], []);
    Chain(Apply(s, a).loops[k].Tasks(), [], []);
    match a
    case NewConn => AcceptFlow(s, k);
    case CloseEvent(l) =>
      var s1 := SetLoop(s, l, s.loops[l].(active := s.loops[l].active[1..]));
      CloseFlow(s1, l, s.loops[l].active[0], k);
    case ForceClose(c) => ForceFlow(s, c, k);
    case RunTask(l) => RunFlow(s, l, k);
    case EndDispatch(l) =>
      assert LoopOk(s, l);
      Chain(s.loops[l].pending, [], []);
    case _ =>
  }

  lemma AcceptFlow(s: State, k: nat)
    requires Inv(s) && Enabled(s, NewConn) && Asserted(s, NewConn) && k < |s.loops|
    ensures Apply(s, NewConn).loops[k].Tasks() == s.loops[k].Tasks() + QueuesOn(s, NewConn, k)
  {
    Chain(s.loops[k].Tasks(), [], []);
    if NextLoop(s) != MAIN { QueueFlow(Admitted(s), NextLoop(s), EstablishTask(s.nextId), k); }
  }

  lemma ForceFlow(s: State, c: ConnId, k: nat)
    requires Enabled(s, ForceClose(c)) && k < |s.loops|
    ensures Apply(s, ForceClose(c)).loops[k].Tasks() == s.loops[k].Tasks() + QueuesOn(s, ForceClose(c), k)
  {
    Chain(s.loops[k].Tasks(), [], []);
    if s.info[c].Live() {
      QueueFlow(SetInfo(s, c, s.info[c].(state := Disconnecting)), s.info[c].loop, CloseTask(c), k);
    }
  }

  lemma RunFlow(s: State, l: nat, k: nat)
    requires Enabled(s, RunTask(l)) && Asserted(s, RunTask(l)) && k < |s.loops|
    ensures s.loops[k].Tasks() + QueuesOn(s, RunTask(l), k) == RunsOn(s, RunTask(l), k) + Apply(s, RunTask(l)).loops[k].Tasks()
  {
    var t, s1 := s.loops[l].batch[0], Popped(s, l);
    PopFlow(s, l, k);
    TaskFlow(s1, l, t, k);
    Chain(RunsOn(s, RunTask(l), k), s1.loops[k].Tasks(), QueuesOn(s, RunTask(l), k));
  }

  lemma {:induction false} RunQueues(s: State, run: seq<Step>, k: nat)
    requires Inv(s) && CanRun(s, run) && k < |s.loops|
    ensures |Exec(s, run).loops| == |s.loops|
    ensures s.loops[k].Tasks() + QueuedOn(s, run, k) == RanOn(s, run, k) + Exec(s, run).loops[k].Tasks()
    decreases |run|
  {
    Chain(s.loops[k].Tasks(), [], []);
    if run != [] {
      var a, s1 := run[0], Apply(s, run[0]);
      StepKeepsInv(s, a);
      StepFlow(s, a, k);
      hide Inv, Apply, Enabled, Asserted, QueuesOn, RunsOn;
      RunQueues(s1, run[1..], k);
      Chain(s.loops[k].Tasks(), QueuesOn(s, a, k), QueuedOn(s1, run[1..], k));
      Chain(RunsOn(s, a, k), s1.loops[k].Tasks(), QueuedOn(s1, run[1..], k));
      Chain(RunsOn(s, a, k), RanOn(s1, run[1..], k), Exec(s, run).loops[k].Tasks());
    }
  }

  /** Every loop runs its tasks in the order in which they were queued, by whatever loop, and
      none is lost: in every run, what was queued on it is what it ran followed by what it
      still has. */
  lemma QueuesFifo(ioLoops: nat, run: seq<Step>, k: nat)
    requires CanRun(Initial(ioLoops), run) && k <= ioLoops
    ensures k < |Exec(Initial(ioLoops), run).loops|
    ensures QueuedOn(Initial(ioLoops), run, k)
            == RanOn(Initial(ioLoops), run, k) + Exec(Initial(ioLoops), run).loops[k].Tasks()
  {
    InvInitial(ioLoops);
    RunQueues(Initial(ioLoops), run, k);
    Chain(QueuedOn(Initial(ioLoops), run, k), [], []);
  }

  /** The loop that a step is a move of. */
  predicate Moves(a: Step, k: nat) {
    (a.Poll? || a.CloseEvent? || a.OtherEvent? || a.EndDispatch? || a.EndBatch? || a.RunTask?) && a.l == k
  }

  /** How a step moves a loop: poll fills the active channels, each event takes the first of
      them, the end of dispatch swaps all that is queued into the batch, and the batch's end
      leads back to poll. */
  lemma LoopMovesExactly(s: State, a: Step, k: nat)
    requires Inv(s) && Enabled(s, a) && Asserted(s, a) && Moves(a, k)
    ensures k < |s.loops| && k < |Apply(s, a).loops|
    ensures var b, b' := s.loops[k], Apply(s, a).loops[k];
            match a
            case Poll(_, active) => b'.phase.Dispatching? && b'.active == active
            case EndDispatch(_) => b'.phase.Running? && b'.batch == b.pending && b'.pending == []
            case EndBatch(_) => b'.phase.Polling?
            case RunTask(_) => b'.phase == b.phase && b.batch == [b.batch[0]] + b'.batch
            case CloseEvent(_) => b'.phase == b.phase && b.active == [b.active[0]] + b'.active
            case OtherEvent(_) => b'.phase == b.phase && b.active == [b.active[0]] + b'.active
            case _ => true
  {
    hide Inv;
  }

  /** And no step moves another loop. */
  lemma OthersStay(s: State, a: Step, k: nat)
    requires Inv(s) && Enabled(s, a) && Asserted(s, a) && k < |s.loops| && !Moves(a, k)
    ensures k < |Apply(s, a).loops|
    ensures var b, b' := s.loops[k], Apply(s, a).loops[k];
            b'.phase == b.phase && b'.active == b.active && b'.batch == b.batch
  {
    hide Inv;
  }

  // ---------------------------------------------------------------- round robin

  /** The loop the c-th connection is given. */
  function LoopOf(c: ConnId, ioLoops: nat): nat
    requires c > 0
  {
    if ioLoops == 0 then MAIN else 1 + (c - 1) % ioLoops
  }

  ghost predicate Dealt(s: State, ioLoops: nat) {
    && |s.loops| == ioLoops + 1 && s.nextId > 0
    && NextLoop(s) == LoopOf(s.nextId, ioLoops)
    && (forall c :: c in s.info ==> c > 0 && s.info[c].loop == LoopOf(c, ioLoops))
  }

  lemma Remainder(q: int, r: int, n: int)
    requires 0 <= r < n
    ensures (q * n + r) % n == r
  {
    var a := q * n + r;
    var d := q - a / n;
    Multiples(d, n);
    assert d * n == a % n - r;
  }

  lemma Multiples(d: int, n: int)
    requires n > 0
    ensures (d > 0 ==> d * n >= n) && (d < 0 ==> d * n <= -n)
  {
  }

  /** The next connection gets the next loop, and the first after the last. */
  lemma NextInTurn(c: ConnId, n: nat)
    requires c > 0 && n > 0
    ensures LoopOf(c + 1, n) == if LoopOf(c, n) >= n then 1 else LoopOf(c, n) + 1
  {
    var k := c - 1;
    var q, r := k / n, k % n;
    assert k == q * n + r;
    if r + 1 == n {
      assert c == (q + 1) * n + 0;
      Remainder(q + 1, 0, n);
    } else {
      Remainder(q, r + 1, n);
    }
  }

  lemma DealAccept(s: State, ioLoops: nat)
    requires Dealt(s, ioLoops)
    ensures Dealt(Admitted(s), ioLoops)
  {
    if ioLoops > 0 { NextInTurn(s.nextId, ioLoops); }
  }

  /** Neither loops added nor removed, nor connections moved. */
  ghost predicate SameDeal(s: State, s': State) {
    && |s'.loops| == |s.loops| && s'.nxt == s.nxt && s'.nextId == s.nextId
    && (forall c :: c in s'.info ==> c in s.info && s'.info[c].loop == s.info[c].loop)
  }

  lemma DealKept(s: State, s': State, ioLoops: nat)
    requires Dealt(s, ioLoops) && SameDeal(s, s')
    ensures Dealt(s', ioLoops)
  {
  }

  lemma StepDeals(s: State, a: Step, ioLoops: nat)
    requires Dealt(s, ioLoops) && Enabled(s, a) && Asserted(s, a)
    ensures Dealt(Apply(s, a), ioLoops)
  {
    if a.NewConn? {
      DealAccept(s, ioLoops);
      assert SameDeal(Admitted(s), Accept(s));
      DealKept(Admitted(s), Accept(s), ioLoops);
    } else {
      StepSameDeal(s, a);
      DealKept(s, Apply(s, a), ioLoops);
    }
  }

  lemma StepSameDeal(s: State, a: Step)
    requires Enabled(s, a) && Asserted(s, a) && !a.NewConn?
    ensures SameDeal(s, Apply(s, a))
  {
  }

  lemma {:induction false} RunDeals(s: State, run: seq<Step>, ioLoops: nat)
    requires Dealt(s, ioLoops) && CanRun(s, run)
    ensures Dealt(Exec(s, run), ioLoops)
    decreases |run|
  {
    if run != [] {
      StepDeals(s, run[0], ioLoops);
      RunDeals(Apply(s, run[0]), run[1..], ioLoops);
    }
  }

  /** In every run the I/O loops take the connections in turn, whatever closes meanwhile,
      and the main loop has them only when there are no others. */
  lemma RoundRobin(ioLoops: nat, run: seq<Step>, c: ConnId)
    requires CanRun(Initial(ioLoops), run) && c in Exec(Initial(ioLoops), run).info
    ensures c > 0 && Exec(Initial(ioLoops), run).info[c].loop == LoopOf(c, ioLoops)
  {
    RunDeals(Initial(ioLoops), run, ioLoops);
  }

  // ---------------------------------------------------------------- the class

  /** The server with its loops. */
  class TcpServer {
    var loops: seq<Loop>
    var nxt: nat
    var nxtConnID: nat
    var conns: set<ConnId>
    var info: map<ConnId, Info>

    ghost function View(): State
      reads this
    {
      State(loops, nxt, nxtConnID, conns, info)
    }

    ghost predicate Valid()
      reads this
    {
      Inv(View())
    }

    constructor (ioLoops: nat)
      ensures Valid() && View() == Initial(ioLoops)
    {
      loops := seq(ioLoops + 1, _ => Loop(Polling, [], [], []));
      nxt, nxtConnID, conns, info := 0, 1, {}, map[];
      new;
      InvInitial(ioLoops);
    }

    method QueueInLoop(l: nat, t: Task)
      requires l < |loops|
      modifies `loops
      ensures View() == Queue(old(View()), l, t)
    {
      loops := loops[l := loops[l].(pending := loops[l].pending + [t])];
    }

    method GetNextLoop() returns (l: nat)
      requires NextLoop(View()) < |loops|
      modifies `nxt
      ensures l == NextLoop(old(View())) && l < |loops|
      ensures nxt == old(NextTurn(View()))
    {
      l := MAIN;
      if |loops| > 1 {
        l := 1 + nxt;
        nxt := nxt + 1;
        if nxt >= |loops| - 1 { nxt := 0; }
      }
    }

    /** `newConn`. */
    method AcceptConnection()
      requires Valid() && Enabled(View(), NewConn)
      modifies this
      ensures old(Asserted(View(), NewConn)) && Valid() && View() == Apply(old(View()), NewConn)
    {
      StepKeepsInv(View(), NewConn);
      ghost var next := Apply(View(), NewConn);
      var l := GetNextLoop();
      var c := nxtConnID;
      nxtConnID := nxtConnID + 1;
      assert c !in conns;
      conns := conns + {c};
      info := info[c := Info(l, Connecting, false, false, 0, 0, 0)];
      if l == MAIN {
        info := info[c := info[c].(state := Connected, reading := true)];
      } else {
        QueueInLoop(l, EstablishTask(c));
      }
      assert View() == next;
    }

    /** `rmConnInLoop`. */
    method RmConnInLoop(c: ConnId)
      requires c in conns && c in info && info[c].loop < |loops|
      modifies `conns, `info, `loops
      ensures View() == RemoveInLoop(old(View()), c)
    {
      conns := conns - {c};
      info := info[c := info[c].(erased := info[c].erased + 1)];
      QueueInLoop(info[c].loop, DestroyTask(c));
    }

    /** `handleClose` on loop l, with `rmConn` as its close callback. */
    method HandleCloseOn(l: nat, c: ConnId)
      requires c in info && info[c].loop < |loops| && info[c].Live() && (l == MAIN ==> c in conns)
      modifies `conns, `info, `loops
      ensures View() == Close(old(View()), l, c)
    {
      var i := info[c];
      info := info[c := i.(state := Disconnected, reading := false, writing := false, closes := i.closes + 1)];
      if l == MAIN { RmConnInLoop(c); } else { QueueInLoop(MAIN, RemoveTask(c)); }
    }

    /** The next active channel reads end-of-file or hangs up. */
    method HandleCloseEvent(l: nat)
      requires Valid() && Enabled(View(), CloseEvent(l))
      modifies this
      ensures old(Asserted(View(), CloseEvent(l))) && Valid() && View() == Apply(old(View()), CloseEvent(l))
    {
      StepKeepsInv(View(), CloseEvent(l));
      var c := loops[l].active[0];
      assert info[c].Live();
      loops := loops[l := loops[l].(active := loops[l].active[1..])];
      HandleCloseOn(l, c);
    }

    /** The next task of the batch of loop l. */
    method RunNextTask(l: nat)
      requires Valid() && Enabled(View(), RunTask(l))
      modifies this
      ensures old(Asserted(View(), RunTask(l))) && Valid() && View() == Apply(old(View()), RunTask(l))
    {
      StepKeepsInv(View(), RunTask(l));
      var t := loops[l].batch[0];
      loops := loops[l := loops[l].(batch := loops[l].batch[1..])];
      match t
      case EstablishTask(c) =>
        assert info[c].state.Connecting?;
        info := info[c := info[c].(state := Connected, reading := true)];
      case RemoveTask(c) =>
        RmConnInLoop(c);
      case DestroyTask(c) =>
        var i := info[c];
        if i.state.Connected? { i := i.(state := Disconnected, reading := false, writing := false); }
        assert i.NoEvents() && !loops[l].phase.Dispatching?;
        info := info[c := i.(destroyed := i.destroyed + 1)];
      case CloseTask(c) =>
        if info[c].Live() { HandleCloseOn(l, c); }
    }

    method EndOfDispatch(l: nat)
      requires Valid() && Enabled(View(), EndDispatch(l))
      modifies this
      ensures Valid() && View() == Apply(old(View()), EndDispatch(l))
    {
      StepKeepsInv(View(), EndDispatch(l));
      var loop := loops[l];
      loops := loops[l := Loop(Running, loop.active, loop.pending, [])];
    }

    method RequestForceClose(c: ConnId)
      requires Valid() && Enabled(View(), ForceClose(c))
      modifies this
      ensures Valid() && View() == Apply(old(View()), ForceClose(c))
    {
      StepKeepsInv(View(), ForceClose(c));
      if info[c].Live() {
        info := info[c := info[c].(state := Disconnecting)];
        QueueInLoop(info[c].loop, CloseTask(c));
      }
    }
  }
}
