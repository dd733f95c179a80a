/** The states of a TCP connection (chtho/net/TcpConnection.h), in the order they are left. */
module ConnStates {

  datatype ConnState = Connecting | Connected | Disconnecting | Disconnected {
    function Rank(): nat {
      match this case Connecting => 0 case Connected => 1 case Disconnecting => 2 case Disconnected => 3
    }
  }
}

/** One TCP connection as its loop thread sees it: the state machine and the outgoing byte
    stream (chtho/net/TcpConnection.cpp), and the dispatch of its channel's events
    (chtho/net/Channel.cpp).

    System calls are parameters: what a write accepted, what a read returned. */
module TcpConnections {
  import opened ConnStates

  /** Result of a write: a count, or an error. Broken is EPIPE or ECONNRESET. */
  datatype WriteResult = Wrote(n: nat) | WouldBlock | Broken | OtherError

  predicate Fits(r: WriteResult, len: nat) { r.Wrote? ==> r.n <= len }

  /** Callbacks put on the loop's queue. */
  datatype Queued = WriteComplete | HighWater(size: nat) | ForceCloseTask

  /** Which optional callbacks are set, and the mark. */
  datatype Config = Config(onComplete: bool, onHighWater: bool, mark: nat)

  datatype Conn = Conn(
    state: ConnState,
    reading: bool, writing: bool,  // the channel's events
    outputBuf: string,
    wire: string,                  // bytes the kernel took
    shutdowns: nat,                // shutdownWrite calls
    queued: seq<Queued>,
    accepted: string)              // history: accepted messages, concatenated

  datatype Step =
    | Establish
    | Send(msg: string, r: WriteResult)        // send(), in the loop thread
    | SendInLoop(msg: string, r: WriteResult)  // sendInLoop() called directly or from the queue
    | HandleWrite(r: WriteResult)
    | HandleClose
    | ShutDown
    | ForceClose
    | ForceCloseInLoop
    | Destroy

  const Initial := Conn(Connecting, false, false, "", "", 0, [], "")

  predicate Enabled(c: Conn, a: Step) {
    match a
    case Establish => c.state.Connecting?
    case Send(msg, r) => Fits(r, |msg|)
    case SendInLoop(msg, r) => Fits(r, |msg|)
    case HandleWrite(r) => Fits(r, |c.outputBuf|)
    case HandleClose => c.state.Connected? || c.state.Disconnecting?
    case Destroy => c.state.Connected? || c.state.Disconnected?
    case _ => true
  }

  // ---------------------------------------------------------------- operations

  function WhenSet(on: bool, q: Queued): seq<Queued> { if on then [q] else [] }

  /** Whether `sendInLoop` keeps the message: not when disconnected, and not when its own
      direct write finds the connection broken. */
  predicate Accepts(c: Conn, r: WriteResult) {
    !c.state.Disconnected? && !(!c.writing && c.outputBuf == "" && r.Broken?)
  }

  function SentInLoop(cfg: Config, c: Conn, msg: string, r: WriteResult): Conn
    requires Fits(r, |msg|)
  {
    if c.state.Disconnected? then c
    else
      var direct := !c.writing && c.outputBuf == "";
      var n := if direct && r.Wrote? then r.n else 0;
      var rest := msg[n..];
      if direct && r.Broken? then c
      else
        var size := |c.outputBuf| + |rest|;
        var high := rest != "" && size >= cfg.mark && |c.outputBuf| < cfg.mark && cfg.onHighWater;
        c.(wire := c.wire + msg[..n],
           outputBuf := c.outputBuf + rest,
           writing := c.writing || rest != "",
           accepted := c.accepted + msg,
           queued := c.queued + (WhenSet(direct && r.Wrote? && rest == "" && cfg.onComplete, WriteComplete)
                                 + WhenSet(high, HighWater(size))))
  }

  function ShutInLoop(c: Conn): Conn { if c.writing then c else c.(shutdowns := c.shutdowns + 1) }

  function WriteHandled(cfg: Config, c: Conn, r: WriteResult): Conn
    requires Fits(r, |c.outputBuf|)
  {
    if !c.writing || !r.Wrote? || r.n == 0 then c
    else
      var c1 := c.(wire := c.wire + c.outputBuf[..r.n], outputBuf := c.outputBuf[r.n..]);
      if c1.outputBuf != "" then c1
      else
        var c2 := c1.(writing := false, queued := c1.queued + WhenSet(cfg.onComplete, WriteComplete));
        if c2.state.Disconnecting? then ShutInLoop(c2) else c2
  }

  function Closed(c: Conn): Conn { c.(state := Disconnected, reading := false, writing := false) }

  /** `connDestroyed` up to the removal of the channel. */
  function Destroyed(c: Conn): Conn { if c.state.Connected? then Closed(c) else c }

  function Apply(cfg: Config, c: Conn, a: Step): Conn
    requires Enabled(c, a)
  {
    match a
    case Establish => c.(state := Connected, reading := true)
    case Send(msg, r) => if c.state.Connected? then SentInLoop(cfg, c, msg, r) else c
    case SendInLoop(msg, r) => SentInLoop(cfg, c, msg, r)
    case HandleWrite(r) => WriteHandled(cfg, c, r)
    case HandleClose => Closed(c)
    case ShutDown => if c.state.Connected? then ShutInLoop(c.(state := Disconnecting)) else c
    case ForceClose =>
      if c.state.Connected? || c.state.Disconnecting? then
        c.(state := Disconnecting, queued := c.queued + [ForceCloseTask])
      else c
    case ForceCloseInLoop => if c.state.Connected? || c.state.Disconnecting? then Closed(c) else c
    case Destroy => Destroyed(c)
  }

  predicate CanRun(cfg: Config, c: Conn, run: seq<Step>)
    decreases |run|
  {
    run == [] || (Enabled(c, run[0]) && CanRun(cfg, Apply(cfg, c, run[0]), run[1..]))
  }

  function Exec(cfg: Config, c: Conn, run: seq<Step>): Conn
    requires CanRun(cfg, c, run)
    decreases |run|
  {
    if run == [] then c else Exec(cfg, Apply(cfg, c, run[0]), run[1..])
  }

  // ---------------------------------------------------------------- the byte stream

  ghost predicate Inv(c: Conn) {
    && c.wire + c.outputBuf == c.accepted
    && (!c.state.Disconnected? ==> (c.writing <==> c.outputBuf != ""))
    && (c.state.Disconnected? ==> !c.writing)
    && (c.reading <==> c.state.Connected? || c.state.Disconnecting?)
    && (c.shutdowns > 0 ==> c.state.Disconnecting? || c.state.Disconnected?)
  }

  lemma SendKeepsInv(cfg: Config, c: Conn, msg: string, r: WriteResult)
    requires Inv(c) && Fits(r, |msg|)
    ensures Inv(SentInLoop(cfg, c, msg, r))
  {
    if c.writing || c.outputBuf != "" || !r.Wrote? {
      Splice(c.wire, c.outputBuf, msg, 0);
    } else {
      Splice(c.wire, "", msg, r.n);
    }
  }

  /** A message cut at n, around bytes that wait only when nothing was written directly. */
  lemma Splice(wire: string, waiting: string, msg: string, n: nat)
    requires n <= |msg| && (n == 0 || waiting == "")
    ensures wire + msg[..n] + (waiting + msg[n..]) == wire + waiting + msg
    ensures |msg[n..]| == |msg| - n
  {
    if n == 0 { assert wire + msg[..n] == wire && msg[n..] == msg; }
  }

  lemma WriteKeepsInv(cfg: Config, c: Conn, r: WriteResult)
    requires Inv(c) && Fits(r, |c.outputBuf|)
    ensures Inv(WriteHandled(cfg, c, r))
  {
    if r.Wrote? { assert c.outputBuf == c.outputBuf[..r.n] + c.outputBuf[r.n..]; }
  }

  lemma StepKeepsInv(cfg: Config, c: Conn, a: Step)
    requires Inv(c) && Enabled(c, a)
    ensures Inv(Apply(cfg, c, a))
  {
    match a
    case Send(msg, r) => SendKeepsInv(cfg, c, msg, r);
    case SendInLoop(msg, r) => SendKeepsInv(cfg, c, msg, r);
    case HandleWrite(r) => WriteKeepsInv(cfg, c, r);
    case _ =>
  }

  lemma {:induction false} RunKeepsInv(cfg: Config, c: Conn, run: seq<Step>)
    requires Inv(c) && CanRun(cfg, c, run)
    ensures Inv(Exec(cfg, c, run))
    decreases |run|
  {
    if run != [] {
      StepKeepsInv(cfg, c, run[0]);
      RunKeepsInv(cfg, Apply(cfg, c, run[0]), run[1..]);
    }
  }

  /** What a step contributes to the stream: a whole message or nothing. */
  function Contribution(c: Conn, a: Step): string {
    match a
    case Send(msg, r) => if c.state.Connected? && Accepts(c, r) then msg else ""
    case SendInLoop(msg, r) => if Accepts(c, r) then msg else ""
    case _ => ""
  }

  function AcceptedIn(cfg: Config, c: Conn, run: seq<Step>): string
    requires CanRun(cfg, c, run)
    decreases |run|
  {
    if run == [] then "" else Contribution(c, run[0]) + AcceptedIn(cfg, Apply(cfg, c, run[0]), run[1..])
  }

  lemma StepContributes(cfg: Config, c: Conn, a: Step)
    requires Enabled(c, a)
    ensures Apply(cfg, c, a).accepted == c.accepted + Contribution(c, a)
  {
  }

  lemma {:induction false} RunContributes(cfg: Config, c: Conn, run: seq<Step>)
    requires CanRun(cfg, c, run)
    ensures Exec(cfg, c, run).accepted == c.accepted + AcceptedIn(cfg, c, run)
    decreases |run|
  {
    if run != [] {
      StepContributes(cfg, c, run[0]);
      RunContributes(cfg, Apply(cfg, c, run[0]), run[1..]);
    }
  }

  /** How many bytes the kernel takes in a step, told by the result of the write alone; with
      bytes waiting there is no direct write. */
  function Took(c: Conn, a: Step): nat {
    match a
    case Send(_, r) => if c.state.Connected? && c.outputBuf == "" && r.Wrote? then r.n else 0
    case SendInLoop(_, r) => if !c.state.Disconnected? && c.outputBuf == "" && r.Wrote? then r.n else 0
    case HandleWrite(r) => if !c.state.Disconnected? && c.outputBuf != "" && r.Wrote? then r.n else 0
    case _ => 0
  }

  function TookIn(cfg: Config, c: Conn, run: seq<Step>): nat
    requires CanRun(cfg, c, run)
    decreases |run|
  {
    if run == [] then 0 else Took(c, run[0]) + TookIn(cfg, Apply(cfg, c, run[0]), run[1..])
  }

  /** The wire only grows, by exactly the bytes the kernel took. */
  lemma StepTakes(cfg: Config, c: Conn, a: Step)
    requires Inv(c) && Enabled(c, a)
    ensures var c' := Apply(cfg, c, a); c.wire <= c'.wire && |c'.wire| == |c.wire| + Took(c, a)
  {
  }

  lemma {:induction false} RunTakes(cfg: Config, c: Conn, run: seq<Step>)
    requires Inv(c) && CanRun(cfg, c, run)
    ensures var c' := Exec(cfg, c, run); c.wire <= c'.wire && |c'.wire| == |c.wire| + TookIn(cfg, c, run)
    decreases |run|
  {
    if run != [] {
      StepTakes(cfg, c, run[0]);
      StepKeepsInv(cfg, c, run[0]);
      RunTakes(cfg, Apply(cfg, c, run[0]), run[1..]);
    }
  }

  /** So in every run the wire holds exactly as much of the accepted messages, from their
      beginning, as the kernel took in all, and the output buffer the rest. */
  lemma WireExactly(cfg: Config, run: seq<Step>)
    requires CanRun(cfg, Initial, run)
    ensures var c, all, n := Exec(cfg, Initial, run), AcceptedIn(cfg, Initial, run), TookIn(cfg, Initial, run);
            n <= |all| && c.wire == all[..n] && c.outputBuf == all[n..]
  {
    StreamConserved(cfg, run);
    RunKeepsInv(cfg, Initial, run);
    RunTakes(cfg, Initial, run);
    var c := Exec(cfg, Initial, run);
    assert (c.wire + c.outputBuf)[..|c.wire|] == c.wire && (c.wire + c.outputBuf)[|c.wire|..] == c.outputBuf;
  }

  /** The byte stream, for every run of sends and writable events with any short writes and
      errors: wire and output buffer together are the accepted messages, each whole and in
      order; until disconnection the channel asks to write exactly when bytes wait, and
      once established it asks to read. */
  lemma StreamConserved(cfg: Config, run: seq<Step>)
    requires CanRun(cfg, Initial, run)
    ensures var c := Exec(cfg, Initial, run);
            c.wire + c.outputBuf == AcceptedIn(cfg, Initial, run)
            && (!c.state.Disconnected? ==> (c.writing <==> c.outputBuf != ""))
            && (c.state.Disconnected? ==> !c.writing && !c.reading)
            && (c.state.Connected? || c.state.Disconnecting? ==> c.reading)
  {
    RunKeepsInv(cfg, Initial, run);
    RunContributes(cfg, Initial, run);
  }

  // ---------------------------------------------------------------- state and shutdown

  /** No step of the run enters sendInLoop behind send's back while the connection closes. */
  predicate NoLateSend(cfg: Config, c: Conn, run: seq<Step>)
    requires CanRun(cfg, c, run)
    decreases |run|
  {
    run == [] ||
    ((run[0].SendInLoop? ==> !c.state.Disconnecting?) && NoLateSend(cfg, Apply(cfg, c, run[0]), run[1..]))
  }

  /** A shutdown has been issued at most once, after everything was written, and for good. */
  ghost predicate ShutOnce(c: Conn) {
    c.shutdowns == 0 ||
    (c.shutdowns == 1 && c.outputBuf == "" && !c.writing && c.state.Rank() >= 2)
  }

  lemma StepShutsOnce(cfg: Config, c: Conn, a: Step)
    requires Inv(c) && ShutOnce(c) && Enabled(c, a)
    requires a.SendInLoop? ==> !c.state.Disconnecting?
    ensures var c' := Apply(cfg, c, a);
            ShutOnce(c') && c.state.Rank() <= c'.state.Rank()
            && (c.shutdowns == 1 ==> c'.wire == c.wire && c'.accepted == c.accepted && c'.shutdowns == 1)
            && (c'.shutdowns > c.shutdowns ==> c'.wire == c'.accepted)
  {
  }

  lemma {:induction false} RunShutsOnce(cfg: Config, c: Conn, run: seq<Step>)
    requires Inv(c) && ShutOnce(c) && CanRun(cfg, c, run) && NoLateSend(cfg, c, run)
    ensures var c' := Exec(cfg, c, run);
            ShutOnce(c') && c.state.Rank() <= c'.state.Rank()
            && (c.shutdowns == 1 ==> c'.wire == c.wire && c'.accepted == c.accepted && c'.shutdowns == 1)
    decreases |run|
  {
    if run != [] {
      StepKeepsInv(cfg, c, run[0]);
      StepShutsOnce(cfg, c, run[0]);
      RunShutsOnce(cfg, Apply(cfg, c, run[0]), run[1..]);
    }
  }

  /** In every run whose sends go through send(), split anywhere: the state only moves
      forward, the write side is shut down at most once and only when every accepted byte
      has been written, and from then on nothing is written or accepted. */
  lemma ShutdownIsLast(cfg: Config, before: seq<Step>, after: seq<Step>)
    requires CanRun(cfg, Initial, before) && NoLateSend(cfg, Initial, before)
    requires CanRun(cfg, Exec(cfg, Initial, before), after)
    requires NoLateSend(cfg, Exec(cfg, Initial, before), after)
    ensures var c := Exec(cfg, Initial, before);
            var c' := Exec(cfg, c, after);
            c.state.Rank() <= c'.state.Rank() && c'.shutdowns <= 1
            && (c.shutdowns == 1 ==> c.wire == c.accepted && c'.wire == c.wire && c'.accepted == c.accepted)
  {
    RunKeepsInv(cfg, Initial, before);
    RunShutsOnce(cfg, Initial, before);
    RunShutsOnce(cfg, Exec(cfg, Initial, before), after);
    var c := Exec(cfg, Initial, before);
    if c.shutdowns == 1 { assert c.wire + "" == c.wire; }
  }

  /** The step puts bytes on the wire of a disconnecting connection: a late sendInLoop whose
      direct write takes some, or a writable event with bytes waiting. */
  predicate LateWrite(c: Conn, a: Step) {
    c.state.Disconnecting?
    && ((a.SendInLoop? && c.outputBuf == "") || (a.HandleWrite? && c.outputBuf != ""))
    && a.r.Wrote? && a.r.n > 0
  }

  /** Exactly which steps write after a shutdown. */
  lemma WritesAfterShutdownExactly(cfg: Config, c: Conn, a: Step)
    requires Inv(c) && c.shutdowns >= 1 && Enabled(c, a)
    ensures var c' := Apply(cfg, c, a);
            |c.wire| <= |c'.wire| && (c'.wire != c.wire <==> LateWrite(c, a))
  {
    var c' := Apply(cfg, c, a);
    if LateWrite(c, a) {
      assert |c'.wire| == |c.wire| + a.r.n;
    } else if a.SendInLoop? && !c.state.Disconnected? {
      assert a.msg[..0] == "" && c.wire + "" == c.wire;
    }
  }

  predicate NoLateWrite(cfg: Config, c: Conn, run: seq<Step>)
    requires CanRun(cfg, c, run)
    decreases |run|
  {
    run == [] || (!LateWrite(c, run[0]) && NoLateWrite(cfg, Apply(cfg, c, run[0]), run[1..]))
  }

  /** And over runs: after a shutdown nothing more is written if and only if no step is one
      of these. */
  lemma {:induction false} SilentExactly(cfg: Config, c: Conn, run: seq<Step>)
    requires Inv(c) && c.shutdowns >= 1 && CanRun(cfg, c, run)
    ensures |c.wire| <= |Exec(cfg, c, run).wire|
    ensures Exec(cfg, c, run).wire == c.wire <==> NoLateWrite(cfg, c, run)
    decreases |run|
  {
    if run != [] {
      var c1 := Apply(cfg, c, run[0]);
      StepKeepsInv(cfg, c, run[0]);
      WritesAfterShutdownExactly(cfg, c, run[0]);
      ShutsAgainExactly(cfg, c, run[0]);
      SilentExactly(cfg, c1, run[1..]);
      if LateWrite(c, run[0]) { assert |c1.wire| > |c.wire|; }
    }
  }

  /** The step writes all the bytes waiting on a disconnecting connection. */
  predicate Drains(c: Conn, a: Step) {
    a.HandleWrite? && c.state.Disconnecting? && c.outputBuf != "" && a.r == Wrote(|c.outputBuf|)
  }

  /** After a first shutdown, a second one is issued by exactly one kind of step: a writable
      event of a still disconnecting connection that writes all the bytes waiting. */
  lemma ShutsAgainExactly(cfg: Config, c: Conn, a: Step)
    requires Inv(c) && c.shutdowns >= 1 && Enabled(c, a)
    ensures Apply(cfg, c, a).shutdowns == c.shutdowns + if Drains(c, a) then 1 else 0
  {
  }

  function DrainsIn(cfg: Config, c: Conn, run: seq<Step>): nat
    requires CanRun(cfg, c, run)
    decreases |run|
  {
    if run == [] then 0
    else (if Drains(c, run[0]) then 1 else 0) + DrainsIn(cfg, Apply(cfg, c, run[0]), run[1..])
  }

  /** And over runs: the later shutdowns are counted by these steps. */
  lemma {:induction false} ShutdownsCounted(cfg: Config, c: Conn, run: seq<Step>)
    requires Inv(c) && c.shutdowns >= 1 && CanRun(cfg, c, run)
    ensures Exec(cfg, c, run).shutdowns == c.shutdowns + DrainsIn(cfg, c, run)
    decreases |run|
  {
    if run != [] {
      StepKeepsInv(cfg, c, run[0]);
      ShutsAgainExactly(cfg, c, run[0]);
      ShutdownsCounted(cfg, Apply(cfg, c, run[0]), run[1..]);
    }
  }

  /** A late sendInLoop that the kernel does not take all of. */
  predicate LeavesRest(c: Conn, a: Step) {
    a.SendInLoop? && c.state.Disconnecting? && !a.r.Broken?
    && (if a.r.Wrote? then a.r.n < |a.msg| else a.msg != "")
  }

  /** With nothing waiting, bytes come to wait after a shutdown by exactly one kind of step,
      such a send. */
  lemma WaitsAgainExactly(cfg: Config, c: Conn, a: Step)
    requires Inv(c) && c.shutdowns >= 1 && c.outputBuf == "" && Enabled(c, a)
    ensures Apply(cfg, c, a).outputBuf != "" <==> LeavesRest(c, a)
  {
    if a.SendInLoop? && a.r.Wrote? { assert |a.msg[a.r.n..]| == |a.msg| - a.r.n; }
  }

  /** Such a send once the write side is shut down; before that it is harmless. */
  predicate Spoils(c: Conn, a: Step) { c.shutdowns >= 1 && LeavesRest(c, a) }

  lemma SpoiledExactly(cfg: Config, c: Conn, a: Step)
    requires Inv(c) && ShutOnce(c) && Enabled(c, a)
    ensures ShutOnce(Apply(cfg, c, a)) <==> !Spoils(c, a)
  {
    StepKeepsInv(cfg, c, a);
    if c.shutdowns == 1 {
      ShutsAgainExactly(cfg, c, a);
      WaitsAgainExactly(cfg, c, a);
    }
  }

  predicate NoSpoiler(cfg: Config, c: Conn, run: seq<Step>)
    requires CanRun(cfg, c, run)
    decreases |run|
  {
    run == [] || (!Spoils(c, run[0]) && NoSpoiler(cfg, Apply(cfg, c, run[0]), run[1..]))
  }

  /** One shutdown, with nothing waiting behind it, at every point of the run. */
  ghost predicate ShutOnceThroughout(cfg: Config, c: Conn, run: seq<Step>)
    requires CanRun(cfg, c, run)
    decreases |run|
  {
    ShutOnce(c) && (run == [] || ShutOnceThroughout(cfg, Apply(cfg, c, run[0]), run[1..]))
  }

  /** So, over runs: the write side is shut down at most once and for good throughout if and
      only if no sendInLoop after the shutdown leaves a rest. */
  lemma {:induction false} OneShutdown(cfg: Config, c: Conn, run: seq<Step>)
    requires Inv(c) && ShutOnce(c) && CanRun(cfg, c, run)
    ensures ShutOnceThroughout(cfg, c, run) <==> NoSpoiler(cfg, c, run)
    decreases |run|
  {
    if run != [] {
      var c1 := Apply(cfg, c, run[0]);
      StepKeepsInv(cfg, c, run[0]);
      SpoiledExactly(cfg, c, run[0]);
      if ShutOnce(c1) {
        OneShutdown(cfg, c1, run[1..]);
      } else {
        assert !ShutOnceThroughout(cfg, c1, run[1..]);
      }
    }
  }

  /** Every send that does leave a rest is followed by another shutdown: in any continuation,
      written at once or in pieces, the rest gone means that it was issued, unless the
      connection was closed first. */
  lemma LateSendShutsAgain(cfg: Config, c: Conn, a: Step, run: seq<Step>)
    requires Inv(c) && LeavesRest(c, a) && Enabled(c, a) && CanRun(cfg, Apply(cfg, c, a), run)
    ensures var c' := Exec(cfg, Apply(cfg, c, a), run);
            c'.state.Disconnected? || c'.shutdowns > c.shutdowns || c'.outputBuf != ""
  {
    var c1 := Apply(cfg, c, a);
    StepKeepsInv(cfg, c, a);
    RestWaits(cfg, c, a);
    RunKeepsShutdown(cfg, c1, run, c.shutdowns);
    RunKeepsInv(cfg, c1, run);
  }

  lemma RestWaits(cfg: Config, c: Conn, a: Step)
    requires Inv(c) && LeavesRest(c, a) && Enabled(c, a)
    ensures var c1 := Apply(cfg, c, a);
            c1.outputBuf != "" && c1.writing && c1.state.Disconnecting? && c1.shutdowns == c.shutdowns
  {
    if a.r.Wrote? { assert |a.msg[a.r.n..]| == |a.msg| - a.r.n; }
    assert a.msg[0..] == a.msg;
  }

  /** And one event that writes the rest is such a continuation: everything is then on the
      wire and one more shutdown issued. */
  lemma RestWritten(cfg: Config, c: Conn, a: Step)
    requires Inv(c) && LeavesRest(c, a) && Enabled(c, a)
    ensures var c1 := Apply(cfg, c, a);
            var c2 := Apply(cfg, c1, HandleWrite(Wrote(|c1.outputBuf|)));
            c2.shutdowns == c.shutdowns + 1 && c2.wire == c2.accepted == c.accepted + a.msg
  {
    var c1 := Apply(cfg, c, a);
    var last := HandleWrite(Wrote(|c1.outputBuf|));
    var c2 := Apply(cfg, c1, last);
    StepKeepsInv(cfg, c, a);
    RestWaits(cfg, c, a);
    StepKeepsInv(cfg, c1, last);
    StepContributes(cfg, c, a);
    assert c2.outputBuf == "" && c2.wire + "" == c2.wire;
  }

  /** The connection it takes is an ordinary one: established, shut down, nothing sent. */
  lemma ShutAtOnce(cfg: Config)
    ensures var c := Apply(cfg, Apply(cfg, Initial, Establish), ShutDown);
            Inv(c) && ShutOnce(c) && c.shutdowns == 1 && c.state.Disconnecting?
  {
  }

  /** A shutdown that was asked for: issued since, or still waiting for bytes to be
      written, unless the connection was closed first. */
  ghost predicate ShutdownUnderWay(before: nat, c: Conn) {
    c.shutdowns >= before
    && (c.state.Disconnected? || (c.state.Disconnecting? && (c.shutdowns > before || c.writing)))
  }

  lemma StepKeepsShutdown(cfg: Config, c: Conn, a: Step, before: nat)
    requires ShutdownUnderWay(before, c) && Enabled(c, a)
    ensures ShutdownUnderWay(before, Apply(cfg, c, a))
  {
  }

  lemma {:induction false} RunKeepsShutdown(cfg: Config, c: Conn, run: seq<Step>, before: nat)
    requires ShutdownUnderWay(before, c) && CanRun(cfg, c, run)
    ensures ShutdownUnderWay(before, Exec(cfg, c, run))
    decreases |run|
  {
    if run != [] {
      StepKeepsShutdown(cfg, c, run[0], before);
      RunKeepsShutdown(cfg, Apply(cfg, c, run[0]), run[1..], before);
    }
  }

  /** A shutdown is not forgotten: after shutdown() on a connected connection, whatever
      follows, once no bytes wait the write side has been shut down, unless the connection
      was closed first. */
  lemma ShutdownNotForgotten(cfg: Config, c: Conn, run: seq<Step>)
    requires Inv(c) && c.state.Connected? && CanRun(cfg, Apply(cfg, c, ShutDown), run)
    ensures var c' := Exec(cfg, Apply(cfg, c, ShutDown), run);
            c'.state.Disconnected? || c'.shutdowns > c.shutdowns || c'.outputBuf != ""
  {
    var c1 := Apply(cfg, c, ShutDown);
    StepKeepsInv(cfg, c, ShutDown);
    RunKeepsShutdown(cfg, c1, run, c.shutdowns);
    RunKeepsInv(cfg, c1, run);
  }

  /** The step closes the connection: handleClose, a forced close of a live connection, or
      connDestroyed while connected. */
  predicate Closes(c: Conn, a: Step) {
    a.HandleClose? || (a.ForceCloseInLoop? && (c.state.Connected? || c.state.Disconnecting?))
    || (a.Destroy? && c.state.Connected?)
  }

  /** Exactly which steps lead into which state. */
  lemma StateMovesExactly(cfg: Config, c: Conn, a: Step)
    requires Enabled(c, a)
    ensures var c' := Apply(cfg, c, a);
            (c'.state.Disconnected? <==> c.state.Disconnected? || Closes(c, a))
            && (c'.state.Disconnecting? <==>
                  !Closes(c, a) && (c.state.Disconnecting? || (c.state.Connected? && (a.ShutDown? || a.ForceClose?))))
            && (c'.state.Connected? <==>
                  a.Establish? || (c.state.Connected? && !Closes(c, a) && !a.ShutDown? && !a.ForceClose?))
            && (c'.state.Connecting? <==> c.state.Connecting? && !a.Establish?)
  {
  }

  // ---------------------------------------------------------------- queued callbacks

  /** What a step put on the queue. */
  function NewlyQueued(c: Conn, c': Conn): seq<Queued>
    requires |c.queued| <= |c'.queued|
  {
    c'.queued[|c.queued|..]
  }

  lemma QueueGrows(cfg: Config, c: Conn, a: Step)
    requires Enabled(c, a)
    ensures |c.queued| <= |Apply(cfg, c, a).queued| && c.queued == Apply(cfg, c, a).queued[..|c.queued|]
  {
  }

  predicate Crosses(cfg: Config, c: Conn, c': Conn) { |c.outputBuf| < cfg.mark <= |c'.outputBuf| }

  /** A send whose direct write takes the whole message. */
  predicate Completes(cfg: Config, c: Conn, msg: string, r: WriteResult) {
    !c.state.Disconnected? && !c.writing && c.outputBuf == "" && r == Wrote(|msg|) && cfg.onComplete
  }

  function SendAdds(cfg: Config, c: Conn, msg: string, r: WriteResult): seq<Queued>
    requires Fits(r, |msg|)
  {
    var c' := SentInLoop(cfg, c, msg, r);
    WhenSet(Completes(cfg, c, msg, r), WriteComplete)
    + WhenSet(Crosses(cfg, c, c') && cfg.onHighWater, HighWater(|c'.outputBuf|))
  }

  lemma Chain<T>(a: seq<T>, b: seq<T>, c: seq<T>)
    ensures a + b + c == a + (b + c)
    ensures a + [] == a && [] + c == c && (a + b)[|a|..] == b
  {
  }

  lemma NotSent(cfg: Config, c: Conn, msg: string, r: WriteResult)
    requires Fits(r, |msg|) && !Accepts(c, r)
    ensures SentInLoop(cfg, c, msg, r) == c
  {
  }

  /** The send put together from the direct write of n bytes and what it leaves. */
  lemma SentParts(cfg: Config, c: Conn, msg: string, r: WriteResult, n: nat, c': Conn)
    requires Fits(r, |msg|) && Accepts(c, r)
    requires n == if !c.writing && c.outputBuf == "" && r.Wrote? then r.n else 0
    requires var complete := !c.writing && c.outputBuf == "" && r.Wrote? && n == |msg| && cfg.onComplete;
             var size := |c.outputBuf| + |msg[n..]|;
             var high := n < |msg| && size >= cfg.mark && |c.outputBuf| < cfg.mark && cfg.onHighWater;
             c' == c.(wire := c.wire + msg[..n], accepted := c.accepted + msg,
                      outputBuf := if n < |msg| then c.outputBuf + msg[n..] else c.outputBuf,
                      writing := c.writing || n < |msg|,
                      queued := if n < |msg| then
                                  c.queued + WhenSet(complete, WriteComplete) + WhenSet(high, HighWater(size))
                                else c.queued + WhenSet(complete, WriteComplete))
    ensures SentInLoop(cfg, c, msg, r) == c'
  {
    var complete := !c.writing && c.outputBuf == "" && r.Wrote? && n == |msg| && cfg.onComplete;
    var size := |c.outputBuf| + |msg[n..]|;
    var high := n < |msg| && size >= cfg.mark && |c.outputBuf| < cfg.mark && cfg.onHighWater;
    assert n == |msg| ==> msg[n..] == "" && c.outputBuf + msg[n..] == c.outputBuf;
    Chain(c.queued, WhenSet(complete, WriteComplete), WhenSet(high, HighWater(size)));
    Chain(WhenSet(complete, WriteComplete), [], []);
  }

  lemma SendQueues(cfg: Config, c: Conn, msg: string, r: WriteResult)
    requires Fits(r, |msg|)
    ensures SentInLoop(cfg, c, msg, r).queued == c.queued + SendAdds(cfg, c, msg, r)
  {
    var direct := !c.writing && c.outputBuf == "";
    var n := if direct && r.Wrote? then r.n else 0;
    assert |msg[n..]| == |msg| - n;
    Chain(c.queued, [], []);
  }

  lemma SendAddsHighWater(cfg: Config, c: Conn, msg: string, r: WriteResult, n: nat)
    requires Fits(r, |msg|)
    ensures var c' := SentInLoop(cfg, c, msg, r);
            HighWater(n) in SendAdds(cfg, c, msg, r) <==>
            cfg.onHighWater && n == |c'.outputBuf| && Crosses(cfg, c, c')
  {
    hide SentInLoop;
  }

  lemma SendAddsComplete(cfg: Config, c: Conn, msg: string, r: WriteResult)
    requires Fits(r, |msg|)
    ensures WriteComplete in SendAdds(cfg, c, msg, r) <==> Completes(cfg, c, msg, r)
  {
    hide SentInLoop;
  }

  predicate Sends(c: Conn, a: Step) { (a.Send? && c.state.Connected?) || a.SendInLoop? }

  /** A step that is no send queues neither callback but a completed write. */
  lemma OthersQueue(cfg: Config, c: Conn, a: Step)
    requires Enabled(c, a) && !Sends(c, a)
    ensures var c' := Apply(cfg, c, a);
            |c'.outputBuf| <= |c.outputBuf| && |c.queued| <= |c'.queued|
            && (forall n :: HighWater(n) !in NewlyQueued(c, c'))
            && (WriteComplete in NewlyQueued(c, c') <==>
                  cfg.onComplete && a.HandleWrite? && c.writing && a.r.Wrote? && 0 < a.r.n == |c.outputBuf|)
  {
  }

  /** A high-water callback is queued exactly when a step takes the output buffer from
      below the mark to the mark or past it, and carries the size reached. */
  lemma HighWaterExactly(cfg: Config, c: Conn, a: Step, n: nat)
    requires Enabled(c, a)
    ensures var c' := Apply(cfg, c, a);
            |c.queued| <= |c'.queued| &&
            (HighWater(n) in NewlyQueued(c, c') <==>
              cfg.onHighWater && n == |c'.outputBuf| && Crosses(cfg, c, c'))
  {
    hide SentInLoop, SendAdds;
    if Sends(c, a) {
      SendQueues(cfg, c, a.msg, a.r);
      SendAddsHighWater(cfg, c, a.msg, a.r, n);
      Chain(c.queued, SendAdds(cfg, c, a.msg, a.r), []);
    } else {
      OthersQueue(cfg, c, a);
    }
  }

  /** The step is a send that wrote, or a writable event that found bytes waiting. */
  predicate Writes(c: Conn, a: Step) {
    match a
    case Send(_, r) => c.state.Connected? && Accepts(c, r) && r.Wrote?
    case SendInLoop(_, r) => Accepts(c, r) && r.Wrote?
    case HandleWrite(_) => c.outputBuf != ""
    case _ => false
  }

  /** A write-complete callback is queued exactly when a step that writes leaves nothing to
      write, and every accepted byte is on the wire then. */
  lemma CompleteExactly(cfg: Config, c: Conn, a: Step)
    requires Inv(c) && Enabled(c, a)
    ensures var c' := Apply(cfg, c, a);
            |c.queued| <= |c'.queued|
            && (WriteComplete in NewlyQueued(c, c') <==> cfg.onComplete && Writes(c, a) && c'.outputBuf == "")
            && (WriteComplete in NewlyQueued(c, c') ==> c'.wire == c'.accepted)
  {
    hide SentInLoop, SendAdds, Completes;
    StepKeepsInv(cfg, c, a);
    NothingWaits(Apply(cfg, c, a));
    if Sends(c, a) {
      SendQueues(cfg, c, a.msg, a.r);
      SendAddsComplete(cfg, c, a.msg, a.r);
      SendCompletes(cfg, c, a.msg, a.r);
      Chain(c.queued, SendAdds(cfg, c, a.msg, a.r), []);
    } else {
      OthersQueue(cfg, c, a);
    }
  }

  lemma NothingWaits(c: Conn)
    requires Inv(c)
    ensures c.outputBuf == "" ==> c.wire == c.accepted
  {
    if c.outputBuf == "" { assert c.wire + c.outputBuf == c.wire; }
  }

  lemma SendCompletes(cfg: Config, c: Conn, msg: string, r: WriteResult)
    requires Inv(c) && Fits(r, |msg|)
    ensures Completes(cfg, c, msg, r) <==>
            cfg.onComplete && Accepts(c, r) && r.Wrote? && SentInLoop(cfg, c, msg, r).outputBuf == ""
  {
    if r.Wrote? { assert |msg[r.n..]| == |msg| - r.n; }
  }

  lemma OthersForce(cfg: Config, c: Conn, a: Step)
    requires Enabled(c, a) && !Sends(c, a)
    ensures var c' := Apply(cfg, c, a);
            |c.queued| <= |c'.queued|
            && (ForceCloseTask in NewlyQueued(c, c') <==>
                  a.ForceClose? && (c.state.Connected? || c.state.Disconnecting?))
            && (a.ForceClose? ==> |NewlyQueued(c, c')| <= 1)
  {
  }

  /** A forced close is queued exactly for a live connection, once per request. */
  lemma ForceCloseQueuesExactly(cfg: Config, c: Conn, a: Step)
    requires Enabled(c, a)
    ensures var c' := Apply(cfg, c, a);
            |c.queued| <= |c'.queued|
            && (ForceCloseTask in NewlyQueued(c, c') <==>
                  a.ForceClose? && (c.state.Connected? || c.state.Disconnecting?))
            && (a.ForceClose? ==> |NewlyQueued(c, c')| <= 1)
  {
    if Sends(c, a) {
      hide SentInLoop;
      SendQueues(cfg, c, a.msg, a.r);
      assert ForceCloseTask !in SendAdds(cfg, c, a.msg, a.r);
      hide SendAdds;
      Chain(c.queued, SendAdds(cfg, c, a.msg, a.r), []);
    } else {
      hide SentInLoop, WriteHandled;
      OthersForce(cfg, c, a);
    }
  }

  /** And the queued task closes the connection, whatever came before it. */
  lemma ForceCloseCloses(cfg: Config, c: Conn, run: seq<Step>)
    requires Inv(c) && (c.state.Connected? || c.state.Disconnecting?)
    requires CanRun(cfg, Apply(cfg, c, ForceClose), run)
    ensures Apply(cfg, Exec(cfg, Apply(cfg, c, ForceClose), run), ForceCloseInLoop).state.Disconnected?
  {
    var c1 := Apply(cfg, c, ForceClose);
    NeverBack(cfg, c1, run);
  }

  lemma {:induction false} NeverBack(cfg: Config, c: Conn, run: seq<Step>)
    requires (c.state.Disconnecting? || c.state.Disconnected?) && CanRun(cfg, c, run)
    ensures var c' := Exec(cfg, c, run); c'.state.Disconnecting? || c'.state.Disconnected?
    decreases |run|
  {
    if run != [] {
      hide SentInLoop, WriteHandled;
      StateMovesExactly(cfg, c, run[0]);
      NeverBack(cfg, Apply(cfg, c, run[0]), run[1..]);
    }
  }

  /** connDestroyed ends with a channel that asks for no events, as removing it asserts, in
      every state but Disconnecting: there it leaves the channel as it is. */
  lemma DestroyAssertsExactly(c: Conn)
    requires Inv(c) && !c.state.Connecting?
    ensures var c' := Destroyed(c); (!c'.reading && !c'.writing) <==> !c.state.Disconnecting?
  {
  }

  // ---------------------------------------------------------------- event dispatch

  /** Events poll returned for the channel; ERR and NVAL only cause a log entry. */
  datatype Revents = Revents(inn: bool, pri: bool, out: bool, hup: bool, rdhup: bool)

  /** One pass of `handleEventWithGuard`, as the operations it calls in order: close, read,
      write.  `count` is what the read returns; a positive count runs the message callback,
      which is not part of the pass. */
  function PassOf(e: Revents, count: int, r: WriteResult): seq<Step> {
    (if e.hup && !e.inn then [HandleClose] else [])
    + (if (e.inn || e.pri || e.rdhup) && count == 0 then [HandleClose] else [])
    + (if e.out then [HandleWrite(r)] else [])
  }

  /** A pass on a live connection meets handleClose's assertion exactly when it does not
      both close and read end-of-file: HUP without IN together with PRI or RDHUP. */
  lemma PassAssertsExactly(cfg: Config, c: Conn, e: Revents, count: int, r: WriteResult)
    requires (c.state.Connected? || c.state.Disconnecting?) && Fits(r, |c.outputBuf|)
    ensures CanRun(cfg, c, PassOf(e, count, r)) <==>
            !(e.hup && !e.inn && (e.pri || e.rdhup) && count == 0)
  {
    var pass := PassOf(e, count, r);
    var w := if e.out then [HandleWrite(r)] else [];
    var d := Closed(c);
    assert w == [] || w[1..] == [];
    assert CanRun(cfg, d, w) && CanRun(cfg, c, w);
    if e.hup && !e.inn {
      assert pass[0] == HandleClose;
      if (e.pri || e.rdhup) && count == 0 {
        assert pass[1..][0] == HandleClose;
      } else {
        assert pass[1..] == w;
      }
    } else if (e.inn || e.pri || e.rdhup) && count == 0 {
      assert pass[0] == HandleClose && pass[1..] == w;
    } else {
      assert pass == w;
    }
  }

  // ---------------------------------------------------------------- the class

  class TcpConnection {
    const cfg: Config
    var state: ConnState
    var reading: bool
    var writing: bool
    var outputBuf: string
    var wire: string
    var shutdowns: nat
    var queued: seq<Queued>
    ghost var accepted: string

    ghost function View(): Conn
      reads this
    {
      Conn(state, reading, writing, outputBuf, wire, shutdowns, queued, accepted)
    }

    ghost predicate Valid()
      reads this
    {
      Inv(View())
    }

    constructor (cfg: Config)
      ensures Valid() && View() == Initial && this.cfg == cfg
    {
      this.cfg := cfg;
      state, reading, writing := Connecting, false, false;
      outputBuf, wire, shutdowns, queued, accepted := "", "", 0, [], "";
    }

    method ConnEstablished()
      requires Valid() && state.Connecting?
      modifies this
      ensures Valid() && View() == Apply(cfg, old(View()), Establish)
    {
      StepKeepsInv(cfg, View(), Establish);
      state, reading := Connected, true;
    }

    /** `sendInLoop`: a direct write if nothing waits, then the rest to the output buffer. */
    method DoSendInLoop(msg: string, r: WriteResult)
      requires Valid() && Fits(r, |msg|)
      modifies this
      ensures Valid() && View() == SentInLoop(cfg, old(View()), msg, r)
    {
      ghost var c := View();
      SendKeepsInv(cfg, c, msg, r);
      hide SentInLoop, Inv;
      if state.Disconnected? {
        NotSent(cfg, c, msg, r);
        return;
      }
      var nwritten, faulterr := WriteDirectly(msg, r);
      if faulterr {
        NotSent(cfg, c, msg, r);
        assert msg[..0] == "" && wire == c.wire && queued == c.queued;
        return;
      }
      accepted := accepted + msg;
      if nwritten < |msg| { BufferRest(msg, nwritten); }
      SentParts(cfg, c, msg, r, nwritten, View());
    }

    /** The direct write, when nothing waits to be written before it. */
    method WriteDirectly(msg: string, r: WriteResult) returns (nwritten: nat, faulterr: bool)
      requires Fits(r, |msg|)
      modifies `wire, `queued
      ensures var direct := !writing && outputBuf == "";
              nwritten == (if direct && r.Wrote? then r.n else 0) && faulterr == (direct && r.Broken?)
              && wire == old(wire) + msg[..nwritten]
              && queued == old(queued)
                 + WhenSet(direct && r.Wrote? && nwritten == |msg| && cfg.onComplete, WriteComplete)
    {
      nwritten, faulterr := 0, false;
      if !writing && |outputBuf| == 0 {
        match r
        case Wrote(n) =>
          nwritten := n;
          wire := wire + msg[..n];
          var remaining := |msg| - nwritten;
          if remaining == 0 && cfg.onComplete { queued := queued + [WriteComplete]; }
        case Broken => faulterr := true;
        case _ =>
      }
    }

    /** What was not written waits in the output buffer. */
    method BufferRest(msg: string, nwritten: nat)
      requires nwritten < |msg|
      modifies `outputBuf, `writing, `queued
      ensures var size := |old(outputBuf)| + |msg[nwritten..]|;
              outputBuf == old(outputBuf) + msg[nwritten..] && writing
              && queued == old(queued)
                 + WhenSet(size >= cfg.mark && |old(outputBuf)| < cfg.mark && cfg.onHighWater, HighWater(size))
    {
      var remaining, oldLen := |msg| - nwritten, |outputBuf|;
      if oldLen + remaining >= cfg.mark && oldLen < cfg.mark && cfg.onHighWater {
        queued := queued + [HighWater(oldLen + remaining)];
      }
      outputBuf := outputBuf + msg[nwritten..];
      if !writing { writing := true; }
    }

    method DoSend(msg: string, r: WriteResult)
      requires Valid() && Fits(r, |msg|)
      modifies this
      ensures Valid() && View() == Apply(cfg, old(View()), Send(msg, r))
    {
      if state.Connected? { DoSendInLoop(msg, r); }
    }

    method ShutdownInLoop()
      modifies this
      ensures View() == ShutInLoop(old(View()))
    {
      if !writing { shutdowns := shutdowns + 1; }
    }

    /** `handleWrite`. */
    method DoHandleWrite(r: WriteResult)
      requires Valid() && Fits(r, |outputBuf|)
      modifies this
      ensures Valid() && View() == Apply(cfg, old(View()), HandleWrite(r))
    {
      WriteKeepsInv(cfg, View(), r);
      if writing {
        if r.Wrote? && r.n > 0 {
          wire := wire + outputBuf[..r.n];
          outputBuf := outputBuf[r.n..];
          if |outputBuf| == 0 {
            writing := false;
            if cfg.onComplete { queued := queued + [WriteComplete]; }
            if state.Disconnecting? { ShutdownInLoop(); }
          }
        }
      }
    }

    method DoHandleClose()
      requires Valid() && (state.Connected? || state.Disconnecting?)
      modifies this
      ensures Valid() && View() == Apply(cfg, old(View()), HandleClose)
    {
      state, reading, writing := Disconnected, false, false;
    }

    method Shutdown()
      requires Valid()
      modifies this
      ensures Valid() && View() == Apply(cfg, old(View()), ShutDown)
    {
      if state.Connected? {
        state := Disconnecting;
        ShutdownInLoop();
      }
    }

    method DoForceClose()
      requires Valid()
      modifies this
      ensures Valid() && View() == Apply(cfg, old(View()), ForceClose)
    {
      if state.Connected? || state.Disconnecting? {
        state := Disconnecting;
        queued := queued + [ForceCloseTask];
      }
    }

    method DoForceCloseInLoop()
      requires Valid()
      modifies this
      ensures Valid() && View() == Apply(cfg, old(View()), ForceCloseInLoop)
    {
      if state.Connected? || state.Disconnecting? { DoHandleClose(); }
    }

    /** `connDestroyed` removes the channel, which must ask for no events. */
    method ConnDestroyed()
      requires Valid() && Enabled(View(), Destroy)
      modifies this
      ensures Valid() && View() == Apply(cfg, old(View()), Destroy)
      ensures !reading && !writing
    {
      if state.Connected? { state, reading, writing := Disconnected, false, false; }
    }
  }
}
