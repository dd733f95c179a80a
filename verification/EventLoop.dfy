/** The task queue and wakeup protocol of the event loop (chtho/net/EventLoop.cpp).

    One loop thread and any number of other threads share a mutex-protected vector and an
    eventfd.  A run is a sequence of atomic steps: a critical section, a system call, or a
    piece of the loop thread's own code that no other thread can observe halfway. */
module EventLoops {

  type ThreadId = nat

  /** A queued callback; `early` marks one queued by the loop's own thread while the loop
      is not running, the one case in which `queueInLoop` neither wakes the loop nor runs
      before the next `poll`. */
  datatype Task = Task(id: nat, early: bool)

  /** Where the loop thread is in `loop()`. */
  datatype Pc =
    | Idle                        // before loop() or after it returned
    | Entering                    // loop() has cleared quit_, its first test is yet to come
    | Polling(first: bool)        // inside poll; first: no batch was swapped since loop() began
    | Dispatching(woken: bool)    // handling events; woken: the eventfd is yet to be read
    | Running                     // inside doPendingFuncs, after the swap

  datatype State = State(
    pc: Pc,
    pending: seq<Task>,           // pendingCBs_
    batch: seq<Task>,             // rest of the swapped vector
    eventfd: nat,
    waking: set<ThreadId>,        // other threads between push (or quit_ = true) and wakeup
    ownWaking: bool,              // the loop thread is between push and wakeup
    quit: bool,
    executed: seq<Task>,          // history: tasks run
    pushed: seq<Task>)            // history: tasks queued
  {
    /** The loop's own thread is in code that may call back into the loop. */
    predicate Calling() { !pc.Polling? && !pc.Entering? }
  }

  datatype Step =
    | OtherPush(t: ThreadId, id: nat)   // queueInLoop by another thread, critical section
    | OtherQuit(t: ThreadId)            // quit by another thread, the flag
    | OtherWakeup(t: ThreadId)          // its write to the eventfd
    | OwnPush(id: nat)                  // queueInLoop by the loop thread, critical section
    | OwnWakeup                         // its write to the eventfd, when it does one
    | OwnQuit
    | Start                             // loop() is entered and clears quit_
    | FirstTest                         // its while test before the first poll
    | PollReturn(woken: bool)           // with or without the eventfd among the events
    | Drain                             // handleRead of the wakeup channel
    | Swap                              // end of dispatch; doPendingFuncs up to the swap
    | RunTask
    | EndBatch                          // end of doPendingFuncs and the loop test

  /** Largest value an eventfd counter holds; a write past it fails and leaves it. */
  const EVENTFD_MAX: nat := 0xffff_ffff_ffff_fffe

  function Written(counter: nat): nat { if counter < EVENTFD_MAX then counter + 1 else counter }

  const Initial := State(Idle, [], [], 0, {}, false, false, [], [])

  predicate Enabled(s: State, a: Step) {
    match a
    case OtherPush(t, _) => t !in s.waking
    case OtherQuit(t) => t !in s.waking
    case OtherWakeup(t) => t in s.waking
    case OwnPush(_) => s.Calling() && !s.ownWaking
    case OwnWakeup => s.ownWaking
    case OwnQuit => s.Calling() && !s.ownWaking
    case Start => s.pc.Idle?
    case FirstTest => s.pc.Entering?
    case PollReturn(woken) => s.pc.Polling? && (woken ==> s.eventfd > 0)
    case Drain => s.pc.Dispatching? && s.pc.woken
    case Swap => s.pc == Dispatching(false)
    case RunTask => s.pc.Running? && !s.ownWaking && s.batch != []
    case EndBatch => s.pc.Running? && !s.ownWaking && s.batch == []
  }

  function Apply(s: State, a: Step): State
    requires Enabled(s, a)
  {
    match a
    case OtherPush(t, id) =>
      var task := Task(id, false);
      s.(pending := s.pending + [task], pushed := s.pushed + [task], waking := s.waking + {t})
    case OtherQuit(t) => s.(quit := true, waking := s.waking + {t})
    case OtherWakeup(t) => s.(eventfd := Written(s.eventfd), waking := s.waking - {t})
    case OwnPush(id) =>
      var task := Task(id, s.pc.Idle?);
      s.(pending := s.pending + [task], pushed := s.pushed + [task], ownWaking := s.pc.Running?)
    case OwnWakeup => s.(eventfd := Written(s.eventfd), ownWaking := false)
    case OwnQuit => s.(quit := true)
    case Start => s.(pc := Entering, quit := false)
    case FirstTest => s.(pc := if s.quit then Idle else Polling(true))
    case PollReturn(woken) => s.(pc := Dispatching(woken))
    case Drain => s.(pc := Dispatching(false), eventfd := 0)
    case Swap => s.(pc := Running, batch := s.pending, pending := [])
    case RunTask => s.(batch := s.batch[1..], executed := s.executed + [s.batch[0]])
    case EndBatch => s.(pc := if s.quit then Idle else Polling(false))
  }

  // ---------------------------------------------------------------- runs

  predicate CanRun(s: State, run: seq<Step>)
    decreases |run|
  {
    run == [] || (Enabled(s, run[0]) && CanRun(Apply(s, run[0]), run[1..]))
  }

  function Exec(s: State, run: seq<Step>): State
    requires CanRun(s, run)
    decreases |run|
  {
    if run == [] then s else Exec(Apply(s, run[0]), run[1..])
  }

  /** The loop will not block in poll: the counter is up, or some thread is about to write it. */
  predicate Signalled(s: State) { s.eventfd > 0 || s.waking != {} || s.ownWaking }

  predicate Urgent(tasks: seq<Task>) { exists t :: t in tasks && !t.early }

  predicate NoneEarly(tasks: seq<Task>) { forall t :: t in tasks ==> !t.early }

  predicate AllEarly(tasks: seq<Task>) { forall t :: t in tasks ==> t.early }

  /** Blocked in poll with work queued and nobody about to wake it. */
  predicate Stuck(s: State) {
    s.pc.Polling? && s.pending != [] && s.eventfd == 0 && s.waking == {}
  }

  ghost predicate Inv(s: State) {
    // nothing is lost, duplicated or reordered
    && s.executed + s.batch + s.pending == s.pushed
    && (s.batch != [] ==> s.pc.Running?)
    && (s.ownWaking ==> s.pc.Running?)
    // outside dispatch, a queued task that is not early has its wakeup under way
    && (!s.pc.Dispatching? && Urgent(s.pending) ==> Signalled(s))
    // a quit seen while polling has its wakeup under way
    && (s.pc.Polling? && s.quit ==> Signalled(s))
    // early tasks do not outlast the first swap
    && (s.pc.Running? || s.pc == Polling(false) ==> NoneEarly(s.pending))
  }

  lemma InvInitial()
    ensures Inv(Initial)
  {
  }

  lemma StepKeepsInv(s: State, a: Step)
    requires Inv(s) && Enabled(s, a)
    ensures Inv(Apply(s, a))
  {
    StepConserves(s, a);
    StepKeepsUrgent(s, a);
  }

  lemma StepConserves(s: State, a: Step)
    requires Enabled(s, a) && s.executed + s.batch + s.pending == s.pushed && (s.batch != [] ==> s.pc.Running?)
    ensures var s' := Apply(s, a); s'.executed + s'.batch + s'.pending == s'.pushed
  {
    var s' := Apply(s, a);
    match a
    case RunTask =>
      assert s.batch == [s.batch[0]] + s.batch[1..];
      assert s'.executed + s'.batch == s.executed + s.batch;
    case OwnPush(id) =>
      assert s'.executed + s'.batch + s'.pending == s.executed + s.batch + s.pending + [Task(id, s.pc.Idle?)];
    case OtherPush(_, id) =>
      assert s'.executed + s'.batch + s'.pending == s.executed + s.batch + s.pending + [Task(id, false)];
    case _ =>
  }

  lemma StepKeepsUrgent(s: State, a: Step)
    requires Inv(s) && Enabled(s, a)
    ensures var s' := Apply(s, a);
            (!s'.pc.Dispatching? && Urgent(s'.pending) ==> Signalled(s'))
            && (s'.pc.Running? || s'.pc == Polling(false) ==> NoneEarly(s'.pending))
  {
    if a.OwnPush? && s.pc.Idle? && Urgent(Apply(s, a).pending) {
      var t :| t in Apply(s, a).pending && !t.early;
      assert t in s.pending;
    }
  }

  lemma {:induction false} RunKeepsInv(s: State, run: seq<Step>)
    requires Inv(s) && CanRun(s, run)
    ensures Inv(Exec(s, run))
    decreases |run|
  {
    if run != [] {
      StepKeepsInv(s, run[0]);
      RunKeepsInv(Apply(s, run[0]), run[1..]);
    }
  }

  /** The tasks that the pushes of a run name, in order; a push of the loop's own thread
      outside loop() is early. */
  function QueuedIn(s: State, run: seq<Step>): seq<Task>
    requires CanRun(s, run)
    decreases |run|
  {
    if run == [] then [] else Queues(s, run[0]) + QueuedIn(Apply(s, run[0]), run[1..])
  }

  function Queues(s: State, a: Step): seq<Task> {
    match a
    case OtherPush(_, id) => [Task(id, false)]
    case OwnPush(id) => [Task(id, s.pc.Idle?)]
    case _ => []
  }

  /** And the tasks its RunTask steps execute, each the oldest of the batch. */
  function RanIn(s: State, run: seq<Step>): seq<Task>
    requires CanRun(s, run)
    decreases |run|
  {
    if run == [] then []
    else (if run[0].RunTask? then [s.batch[0]] else []) + RanIn(Apply(s, run[0]), run[1..])
  }

  lemma StepHistories(s: State, a: Step)
    requires Enabled(s, a)
    ensures Apply(s, a).pushed == s.pushed + Queues(s, a)
    ensures Apply(s, a).executed == s.executed + if a.RunTask? then [s.batch[0]] else []
  {
  }

  lemma {:induction false} RunHistories(s: State, run: seq<Step>)
    requires CanRun(s, run)
    ensures Exec(s, run).pushed == s.pushed + QueuedIn(s, run)
    ensures Exec(s, run).executed == s.executed + RanIn(s, run)
    decreases |run|
  {
    if run != [] {
      StepHistories(s, run[0]);
      RunHistories(Apply(s, run[0]), run[1..]);
    }
  }

  /** In every interleaving, the tasks executed, the rest of the swapped batch and what is
      queued are together exactly the tasks pushed, by whatever threads, in order. */
  lemma TasksConserved(run: seq<Step>)
    requires CanRun(Initial, run)
    ensures var s := Exec(Initial, run);
            s.executed + s.batch + s.pending == QueuedIn(Initial, run) && s.executed == RanIn(Initial, run)
  {
    RunKeepsInv(Initial, run);
    RunHistories(Initial, run);
    assert [] + QueuedIn(Initial, run) == QueuedIn(Initial, run);
    assert [] + RanIn(Initial, run) == RanIn(Initial, run);
  }

  /** No step of the run queues a task from the loop's own thread outside loop(). */
  predicate NoEarlyPush(s: State, run: seq<Step>)
    requires CanRun(s, run)
    decreases |run|
  {
    run == [] ||
    ((run[0].OwnPush? ==> !s.pc.Idle?) && NoEarlyPush(Apply(s, run[0]), run[1..]))
  }

  lemma {:induction false} NoEarlyTasks(s: State, run: seq<Step>)
    requires CanRun(s, run) && NoEarlyPush(s, run) && NoneEarly(s.pushed)
    ensures NoneEarly(Exec(s, run).pushed)
    decreases |run|
  {
    if run != [] {
      NoEarlyTasks(Apply(s, run[0]), run[1..]);
    }
  }

  /** No lost wakeup: unless the loop's own thread queued a task before loop(), the loop is
      never in poll with work queued, the eventfd at zero and nobody about to write it. */
  lemma NoLostWakeup(run: seq<Step>)
    requires CanRun(Initial, run) && NoEarlyPush(Initial, run)
    ensures !Stuck(Exec(Initial, run))
  {
    var s := Exec(Initial, run);
    RunKeepsInv(Initial, run);
    NoEarlyTasks(Initial, run);
    assert forall t :: t in s.pending ==> t in s.pushed;
    if s.pending != [] { assert s.pending[0] in s.pending; }
  }

  /** A quit flag that is set while the loop polls has its wakeup there or coming. */
  lemma NoLostQuit(run: seq<Step>)
    requires CanRun(Initial, run)
    ensures var s := Exec(Initial, run);
            s.pc.Polling? && s.quit ==> s.eventfd > 0 || s.waking != {}
  {
    RunKeepsInv(Initial, run);
  }

  // ---------------------------------------------------------------- sleeping on queued work

  /** Entering loop() without anybody interfering. */
  function Entered(s: State): State
    requires s.pc.Idle?
  {
    Apply(Apply(s, Start), FirstTest)
  }

  /** When loop() goes to sleep on queued work, told before the call: exactly when something
      is queued while the eventfd is at zero and nobody is about to write it.  All that is
      queued was then queued early. */
  lemma StuckExactly(run: seq<Step>)
    requires CanRun(Initial, run) && Exec(Initial, run).pc.Idle?
    ensures var s := Exec(Initial, run);
            (Stuck(Entered(s)) <==> s.pending != [] && s.eventfd == 0 && s.waking == {})
            && (Stuck(Entered(s)) ==> AllEarly(s.pending))
  {
    RunKeepsInv(Initial, run);
  }

  /** And nothing else brings it about: of all steps of all runs, only the first test of a
      loop() call does, on a queue of early tasks that nobody announces. */
  lemma StuckArises(run: seq<Step>, a: Step)
    requires CanRun(Initial, run) && Enabled(Exec(Initial, run), a) && !Stuck(Exec(Initial, run))
    ensures var s := Exec(Initial, run);
            (Stuck(Apply(s, a)) <==>
               a.FirstTest? && !s.quit && s.pending != [] && s.eventfd == 0 && s.waking == {})
            && (Stuck(Apply(s, a)) ==> AllEarly(s.pending))
  {
    var s := Exec(Initial, run);
    RunKeepsInv(Initial, run);
    StepKeepsInv(s, a);
    if s.pending != [] { assert s.pending[0] in s.pending; }
    if a.OtherWakeup? { assert Apply(s, a).eventfd > 0; }
  }

  /** Whatever ran before: a task the loop's own thread queues outside loop() puts the next
      call to sleep exactly when no wakeup is there or coming from elsewhere. */
  lemma EarlyPushSticks(run: seq<Step>, id: nat)
    requires CanRun(Initial, run) && Exec(Initial, run).pc.Idle?
    ensures var s := Exec(Initial, run);
            Enabled(s, OwnPush(id))
            && (Stuck(Entered(Apply(s, OwnPush(id)))) <==> s.eventfd == 0 && s.waking == {})
  {
    RunKeepsInv(Initial, run);
  }

  // ---------------------------------------------------------------- quit

  predicate IsQuit(a: Step) { a.OtherQuit? || a.OwnQuit? }

  predicate IsTest(a: Step) { a.FirstTest? || a.EndBatch? }

  /** Neither a test of quit_ nor another quit. */
  predicate Quiet(run: seq<Step>) { forall a :: a in run ==> !IsQuit(a) && !IsTest(a) }

  /** Inside loop() the flag keeps its value up to the next test. */
  lemma {:induction false} QuitKept(s: State, run: seq<Step>)
    requires CanRun(s, run) && Quiet(run) && !s.pc.Idle?
    ensures Exec(s, run).quit == s.quit && !Exec(s, run).pc.Idle?
    decreases |run|
  {
    if run != [] {
      assert run[0] in run;
      assert forall a :: a in run[1..] ==> a in run;
      QuitKept(Apply(s, run[0]), run[1..]);
    }
  }

  /** Outside loop() it does not: the next test finds it cleared. */
  lemma {:induction false} QuitCleared(s: State, run: seq<Step>)
    requires CanRun(s, run) && Quiet(run) && s.pc.Idle?
    ensures Exec(s, run).pc.Idle? || !Exec(s, run).quit
    decreases |run|
  {
    if run != [] {
      assert run[0] in run;
      assert forall a :: a in run[1..] ==> a in run;
      if run[0].Start? {
        QuitKept(Apply(s, run[0]), run[1..]);
      } else {
        QuitCleared(Apply(s, run[0]), run[1..]);
      }
    }
  }

  /** Exactly which quits are heeded: the next test of the loop after a quit, with no other
      quit in between, ends the loop if and only if the quit was issued inside loop(); one
      issued before is cleared by the call. */
  lemma QuitHeededExactly(s: State, quit: Step, between: seq<Step>, test: Step)
    requires Enabled(s, quit) && IsQuit(quit) && IsTest(test)
    requires CanRun(Apply(s, quit), between) && Quiet(between)
    requires Enabled(Exec(Apply(s, quit), between), test)
    ensures Apply(Exec(Apply(s, quit), between), test).pc.Idle? <==> !s.pc.Idle?
  {
    var s1 := Apply(s, quit);
    if s.pc.Idle? { QuitCleared(s1, between); } else { QuitKept(s1, between); }
  }

  /** A quit by another thread before loop() is lost for good: after its wakeup was used up
      by one turn of the loop, the loop polls with the flag down and nothing to wake it. */
  lemma EarlyQuitIsLost(s: State, t: ThreadId)
    requires Inv(s) && s.pc.Idle? && s.waking == {}
    ensures var s1 := Apply(Apply(s, OtherQuit(t)), OtherWakeup(t));
            var s2 := Entered(s1);
            var turn := [PollReturn(true), Drain, Swap] + (RunTasks(|s2.pending|) + [EndBatch]);
            CanRun(s2, turn) && var s3 := Exec(s2, turn);
            s3.pc.Polling? && !s3.quit && s3.eventfd == 0 && s3.waking == {} && s3.pending == []
  {
    var s0 := Apply(s, OtherQuit(t));
    var s1 := Apply(s0, OtherWakeup(t));
    StepKeepsInv(s, OtherQuit(t));
    StepKeepsInv(s0, OtherWakeup(t));
    StepKeepsInv(s1, Start);
    StepKeepsInv(Apply(s1, Start), FirstTest);
    WakeupRunsAll(Entered(s1));
  }

  // ---------------------------------------------------------------- progress

  function RunTasks(n: nat): seq<Step> { seq(n, _ => RunTask) }

  /** The rest of a batch runs in order, and then quit decides whether the loop goes on. */
  lemma {:induction false} BatchRuns(s: State)
    requires s.pc.Running? && !s.ownWaking
    ensures var run := RunTasks(|s.batch|) + [EndBatch];
            CanRun(s, run)
            && Exec(s, run) == s.(batch := [], executed := s.executed + s.batch,
                                  pc := if s.quit then Idle else Polling(false))
    decreases |s.batch|
  {
    var run := RunTasks(|s.batch|) + [EndBatch];
    if s.batch != [] {
      var s' := Apply(s, RunTask);
      assert run[1..] == RunTasks(|s'.batch|) + [EndBatch];
      assert s.executed + s.batch == s'.executed + s'.batch;
      BatchRuns(s');
    } else {
      assert run == [EndBatch] && run[1..] == [];
      assert CanRun(Apply(s, EndBatch), []);
      assert s.executed + s.batch == s.executed;
    }
  }

  /** One turn of the loop after a wakeup: the eventfd is drained, every queued task runs,
      in the order queued, and the loop ends exactly when it was told to quit. */
  lemma WakeupRunsAll(s: State)
    requires Inv(s) && s.pc.Polling? && s.eventfd > 0
    ensures var run := [PollReturn(true), Drain, Swap] + (RunTasks(|s.pending|) + [EndBatch]);
            CanRun(s, run) && Exec(s, run).executed == s.executed + s.pending
            && Exec(s, run).pending == [] && Exec(s, run).eventfd == 0
            && Exec(s, run).quit == s.quit && Exec(s, run).waking == s.waking
            && Exec(s, run).pc == if s.quit then Idle else Polling(false)
  {
    var tail := RunTasks(|s.pending|) + [EndBatch];
    var run := [PollReturn(true), Drain, Swap] + tail;
    var s1 := Apply(s, PollReturn(true));
    var s2 := Apply(s1, Drain);
    var s3 := Apply(s2, Swap);
    assert run[1..] == [Drain, Swap] + tail;
    assert run[1..][1..] == [Swap] + tail;
    assert run[1..][1..][1..] == tail;
    BatchRuns(s3);
    assert CanRun(s2, run[1..][1..]) && CanRun(s1, run[1..]);
    assert Exec(s2, run[1..][1..]) == Exec(s3, tail);
    assert Exec(s1, run[1..]) == Exec(s3, tail);
  }

  /** Along any steps, what was executed or swapped out for execution stays so, in order. */
  lemma StepExecutes(s: State, a: Step)
    requires Inv(s) && Enabled(s, a)
    ensures var s' := Apply(s, a);
            s.executed + s.batch <= s'.executed + s'.batch && s.pushed <= s'.pushed
  {
    if a.RunTask? { assert s.batch == [s.batch[0]] + s.batch[1..]; }
  }

  lemma {:induction false} RunExecutes(s: State, run: seq<Step>)
    requires Inv(s) && CanRun(s, run)
    ensures var s' := Exec(s, run);
            s.executed + s.batch <= s'.executed + s'.batch && s.pushed <= s'.pushed
    decreases |run|
  {
    if run != [] {
      StepExecutes(s, run[0]);
      StepKeepsInv(s, run[0]);
      RunExecutes(Apply(s, run[0]), run[1..]);
    }
  }

  /** Progress in every interleaving: once a batch is finished, all of it has been executed,
      in order; and once nothing is queued either, so has everything queued before and since. */
  lemma FinishedMeansExecuted(s: State, run: seq<Step>)
    requires Inv(s) && CanRun(s, run) && Exec(s, run).batch == []
    ensures var s' := Exec(s, run);
            s.executed + s.batch <= s'.executed
            && (s'.pending == [] ==> s'.executed == s.pushed + QueuedIn(s, run))
  {
    var s' := Exec(s, run);
    RunExecutes(s, run);
    RunKeepsInv(s, run);
    RunHistories(s, run);
    assert s'.executed + s'.batch == s'.executed;
    if s'.pending == [] { assert s'.executed + s'.batch + s'.pending == s'.executed; }
  }

  function WakeupsIn(run: seq<Step>): nat {
    if run == [] then 0 else (if run[0].OtherWakeup? || run[0].OwnWakeup? then 1 else 0) + WakeupsIn(run[1..])
  }

  /** The eventfd counts: up to the next read it has gone up by the wakeups written since, as
      far as its largest value; and a read leaves none. */
  lemma {:induction false} WakeupsCounted(s: State, run: seq<Step>)
    requires CanRun(s, run) && Drain !in run && s.eventfd <= EVENTFD_MAX
    ensures Exec(s, run).eventfd ==
            if s.eventfd + WakeupsIn(run) <= EVENTFD_MAX then s.eventfd + WakeupsIn(run) else EVENTFD_MAX
    ensures Enabled(Exec(s, run), Drain) ==> Apply(Exec(s, run), Drain).eventfd == 0
    decreases |run|
  {
    if run != [] {
      assert run[0] in run && forall a :: a in run[1..] ==> a in run;
      WakeupsCounted(Apply(s, run[0]), run[1..]);
    }
  }

  // ---------------------------------------------------------------- the class

  class EventLoop {
    var looping: bool
    var quit: bool
    var callingPendingCBs: bool
    var handlingEvents: bool
    /** The wakeup channel is among activeChannels_ and not yet handled. */
    var wakeupActive: bool
    var pendingCBs: seq<Task>
    var funcs: seq<Task>
    var wakeupFd: nat
    ghost var entering: bool
    ghost var firstPoll: bool
    ghost var waking: set<ThreadId>
    ghost var ownWaking: bool
    ghost var executed: seq<Task>
    ghost var pushed: seq<Task>

    ghost function Position(): Pc
      reads this
    {
      if !looping then Idle
      else if handlingEvents then Dispatching(wakeupActive)
      else if callingPendingCBs then Running
      else if entering then Entering
      else Polling(firstPoll)
    }

    ghost function View(): State
      reads this
    {
      State(Position(), pendingCBs, funcs, wakeupFd, waking, ownWaking, quit, executed, pushed)
    }

    /** The flags describe one position, and all the invariants of the protocol hold. */
    ghost predicate Valid()
      reads this
    {
      Inv(View()) && !(callingPendingCBs && handlingEvents)
      && (callingPendingCBs || handlingEvents ==> looping)
      && (wakeupActive ==> handlingEvents) && (entering ==> Position().Entering?)
    }

    constructor ()
      ensures Valid() && View() == Initial
    {
      looping, quit, callingPendingCBs, handlingEvents, wakeupActive := false, false, false, false, false;
      pendingCBs, funcs, wakeupFd := [], [], 0;
      entering, firstPoll, waking, ownWaking, executed, pushed := false, false, {}, false, [], [];
    }

    /** `queueInLoop`, critical section; the result says whether `wakeup` follows. */
    method PushOther(t: ThreadId, id: nat) returns (mustWake: bool)
      requires Valid() && Enabled(View(), OtherPush(t, id))
      modifies this
      ensures Valid() && View() == Apply(old(View()), OtherPush(t, id)) && mustWake
    {
      StepKeepsInv(View(), OtherPush(t, id));
      var inLoopThread := false;
      pendingCBs := pendingCBs + [Task(id, false)];
      pushed := pushed + [Task(id, false)];
      mustWake := !inLoopThread || callingPendingCBs;
      if mustWake { waking := waking + {t}; }
    }

    method PushOwn(id: nat) returns (mustWake: bool)
      requires Valid() && Enabled(View(), OwnPush(id))
      modifies this
      ensures Valid() && View() == Apply(old(View()), OwnPush(id)) && mustWake == View().ownWaking
    {
      StepKeepsInv(View(), OwnPush(id));
      var inLoopThread := true;
      var task := Task(id, !looping);
      pendingCBs := pendingCBs + [task];
      pushed := pushed + [task];
      mustWake := !inLoopThread || callingPendingCBs;
      if mustWake { ownWaking := true; }
    }

    /** The eventfd write of `wakeup`. */
    method WakeupOther(t: ThreadId)
      requires Valid() && Enabled(View(), OtherWakeup(t))
      modifies this
      ensures Valid() && View() == Apply(old(View()), OtherWakeup(t))
    {
      StepKeepsInv(View(), OtherWakeup(t));
      wakeupFd := Written(wakeupFd);
      waking := waking - {t};
    }

    method WakeupOwn()
      requires Valid() && Enabled(View(), OwnWakeup)
      modifies this
      ensures Valid() && View() == Apply(old(View()), OwnWakeup)
    {
      StepKeepsInv(View(), OwnWakeup);
      wakeupFd := Written(wakeupFd);
      ownWaking := false;
    }

    method QuitOther(t: ThreadId)
      requires Valid() && Enabled(View(), OtherQuit(t))
      modifies this
      ensures Valid() && View() == Apply(old(View()), OtherQuit(t))
    {
      StepKeepsInv(View(), OtherQuit(t));
      quit := true;
      waking := waking + {t};
    }

    method QuitOwn()
      requires Valid() && Enabled(View(), OwnQuit)
      modifies this
      ensures Valid() && View() == Apply(old(View()), OwnQuit)
    {
      StepKeepsInv(View(), OwnQuit);
      quit := true;
    }

    method EnterLoop()
      requires Valid() && Enabled(View(), Start)
      modifies this
      ensures Valid() && View() == Apply(old(View()), Start)
    {
      StepKeepsInv(View(), Start);
      looping, quit, entering := true, false, true;
    }

    /** The while test before the first poll: a quit since the flag was cleared ends the loop. */
    method TestFirst()
      requires Valid() && Enabled(View(), FirstTest)
      modifies this
      ensures Valid() && View() == Apply(old(View()), FirstTest)
    {
      StepKeepsInv(View(), FirstTest);
      entering, firstPoll := false, true;
      if quit { looping := false; }
    }

    method ReturnFromPoll(woken: bool)
      requires Valid() && Enabled(View(), PollReturn(woken))
      modifies this
      ensures Valid() && View() == Apply(old(View()), PollReturn(woken))
    {
      StepKeepsInv(View(), PollReturn(woken));
      handlingEvents, wakeupActive := true, woken;
    }

    /** `handleRead`: the read empties the counter. */
    method HandleRead()
      requires Valid() && Enabled(View(), Drain)
      modifies this
      ensures Valid() && View() == Apply(old(View()), Drain)
    {
      StepKeepsInv(View(), Drain);
      wakeupFd, wakeupActive := 0, false;
    }

    /** End of dispatch and the swap at the head of `doPendingFuncs`. */
    method SwapPending()
      requires Valid() && Enabled(View(), Swap)
      modifies this
      ensures Valid() && View() == Apply(old(View()), Swap)
    {
      StepKeepsInv(View(), Swap);
      handlingEvents := false;
      callingPendingCBs := true;
      funcs, pendingCBs := pendingCBs, [];
    }

    method RunNext() returns (task: Task)
      requires Valid() && Enabled(View(), RunTask)
      modifies this
      ensures Valid() && View() == Apply(old(View()), RunTask) && task == old(funcs)[0]
    {
      StepKeepsInv(View(), RunTask);
      task, funcs := funcs[0], funcs[1..];
      executed := executed + [task];
    }

    method FinishPending()
      requires Valid() && Enabled(View(), EndBatch)
      modifies this
      ensures Valid() && View() == Apply(old(View()), EndBatch)
    {
      StepKeepsInv(View(), EndBatch);
      callingPendingCBs, firstPoll := false, false;
      if quit { looping := false; }
    }
  }
}
