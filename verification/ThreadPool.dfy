/** The bounded thread pool (chtho/threads/ThreadPool.cpp, chtho/threads/ThreadPool.h).

    Every critical section of `run`, `take` and `stop` is one step; a wait ends the section
    and the thread re-enters it from the top of its while loop, either because it was
    signalled or spuriously.  The point is the counting that rules out lost wakeups. */
module ThreadPools {

  type ThreadId = nat
  type Task = nat

  /** A condition variable: threads asleep on it, and threads woken by a notify that have
      not got the mutex back yet. */
  datatype Condition = Condition(waiting: set<ThreadId>, signalled: set<ThreadId>) {
    function Wait(t: ThreadId): Condition { this.(waiting := waiting + {t}) }

    /** `woken` is the scheduler's choice; with nobody asleep the signal is lost. */
    function Notify(woken: ThreadId): Condition
      requires waiting != {} ==> woken in waiting
    {
      if waiting == {} then this else Condition(waiting - {woken}, signalled + {woken})
    }

    function NotifyAll(): Condition { Condition({}, signalled + waiting) }

    function Leave(t: ThreadId): Condition { Condition(waiting - {t}, signalled - {t}) }

    function Members(): set<ThreadId> { waiting + signalled }
  }

  datatype State = State(
    limit: nat,                   // maxQueueSz_, fixed before start; 0 is no limit
    running: bool,
    queue: seq<Task>,
    notFull: Condition,
    notEmpty: Condition,
    holding: map<ThreadId, Task>, // tasks of producers inside run
    accepted: seq<Task>,          // history: tasks put into the queue
    taken: seq<Task>)             // history: tasks taken out

  datatype Step =
    | Run(p: ThreadId, task: Task, woken: ThreadId)
    | Take(w: ThreadId, woken: ThreadId)
    | Stop

  predicate IsFull(s: State) { s.limit > 0 && |s.queue| >= s.limit }

  function Initial(limit: nat): State {
    State(limit, true, [], Condition({}, {}), Condition({}, {}), map[], [], [])
  }

  /** A thread enters a section afresh or comes back to the one it waits in. */
  predicate Enabled(s: State, a: Step) {
    match a
    case Run(p, task, woken) =>
      p !in s.notEmpty.Members()
      && (p in s.notFull.Members() ==> p in s.holding && s.holding[p] == task)
      && (s.notEmpty.waiting != {} ==> woken in s.notEmpty.waiting)
    case Take(w, woken) =>
      w !in s.notFull.Members()
      && (s.notFull.waiting != {} ==> woken in s.notFull.waiting)
    case Stop => true
  }

  /** Loop test of `run`, then its rest; p holds the mutex. */
  function RunSection(s: State, p: ThreadId, task: Task, woken: ThreadId): State
    requires s.notEmpty.waiting != {} ==> woken in s.notEmpty.waiting
  {
    if IsFull(s) && s.running then s.(notFull := s.notFull.Wait(p), holding := s.holding[p := task])
    else if !s.running then s
    else s.(queue := s.queue + [task], accepted := s.accepted + [task],
            notEmpty := s.notEmpty.Notify(woken))
  }

  /** Loop test of `take`, then its rest; an empty queue after `stop` yields no task. */
  function TakeSection(s: State, w: ThreadId, woken: ThreadId): State
    requires s.notFull.waiting != {} ==> woken in s.notFull.waiting
  {
    if s.queue == [] && s.running then s.(notEmpty := s.notEmpty.Wait(w))
    else if s.queue == [] then s
    else s.(queue := s.queue[1..], taken := s.taken + [s.queue[0]],
            notFull := if s.limit > 0 then s.notFull.Notify(woken) else s.notFull)
  }

  function Apply(s: State, a: Step): State
    requires Enabled(s, a)
  {
    match a
    case Run(p, task, woken) =>
      RunSection(s.(notFull := s.notFull.Leave(p), holding := s.holding - {p}), p, task, woken)
    case Take(w, woken) => TakeSection(s.(notEmpty := s.notEmpty.Leave(w)), w, woken)
    case Stop => s.(running := false, notEmpty := s.notEmpty.NotifyAll(), notFull := s.notFull.NotifyAll())
  }

  predicate CanRun(s: State, run: seq<Step>)
    decreases |run|
  {
    run == [] || (Enabled(s, run[0]) && CanRun(Apply(s, run[0]), run[1..]))
  }

  function Exec(s: State, run: seq<Step>): State
    requires CanRun(s, run)
    decreases |run|
  {
    if run == [] then s else Exec(Apply(s, run[0]), run[1..])
  }

  // ---------------------------------------------------------------- the invariant

  ghost predicate Separate(s: State) {
    && s.notFull.waiting !! s.notFull.signalled
    && s.notEmpty.waiting !! s.notEmpty.signalled
    && s.notFull.Members() !! s.notEmpty.Members()
    && s.holding.Keys == s.notFull.Members()
  }

  /** The counting that rules out lost wakeups: places spoken for, tasks provided for. */
  ghost predicate CountedBy(limit: nat, running: bool, queued: nat, notFull: Condition, notEmpty: Condition) {
    && (notFull.waiting != {} ==> 0 < limit <= queued + |notFull.signalled|)
    && (notEmpty.waiting != {} ==> queued <= |notEmpty.signalled|)
    && (limit > 0 ==> queued <= limit)
    && (!running ==> notFull.waiting == {} && notEmpty.waiting == {})
  }

  ghost predicate Counted(s: State) {
    CountedBy(s.limit, s.running, |s.queue|, s.notFull, s.notEmpty)
  }

  ghost predicate Inv(s: State) {
    Separate(s) && Counted(s) && s.accepted == s.taken + s.queue
  }

  lemma RunKeepsSeparate(s: State, p: ThreadId, task: Task, woken: ThreadId)
    requires Separate(s) && Enabled(s, Run(p, task, woken))
    ensures Separate(Apply(s, Run(p, task, woken)))
  {
  }

  lemma TakeKeepsSeparate(s: State, w: ThreadId, woken: ThreadId)
    requires Separate(s) && Enabled(s, Take(w, woken))
    ensures Separate(Apply(s, Take(w, woken)))
  {
    var s0 := s.(notEmpty := s.notEmpty.Leave(w));
    assert woken !in s.notEmpty.Members() || s.notFull.waiting == {};
  }

  lemma LeaveCount(c: Condition, t: ThreadId)
    ensures |c.Leave(t).signalled| >= |c.signalled| - 1
    ensures c.Leave(t).waiting != {} ==> c.waiting != {}
  {
    if t !in c.signalled { assert c.signalled - {t} == c.signalled; }
  }

  lemma NotifyCount(c: Condition, woken: ThreadId)
    requires c.waiting !! c.signalled && (c.waiting != {} ==> woken in c.waiting)
    ensures |c.Notify(woken).signalled| == |c.signalled| + if c.waiting != {} then 1 else 0
    ensures c.Notify(woken).waiting != {} ==> c.waiting != {}
  {
    if c.waiting != {} { assert woken !in c.signalled; }
  }

  lemma RunKeepsCounted(s: State, p: ThreadId, task: Task, woken: ThreadId)
    requires Separate(s) && Counted(s) && Enabled(s, Run(p, task, woken))
    ensures Counted(Apply(s, Run(p, task, woken)))
  {
    LeaveCount(s.notFull, p);
    NotifyCount(s.notEmpty, woken);
  }

  lemma TakeKeepsCounted(s: State, w: ThreadId, woken: ThreadId)
    requires Separate(s) && Counted(s) && Enabled(s, Take(w, woken))
    ensures Counted(Apply(s, Take(w, woken)))
  {
    LeaveCount(s.notEmpty, w);
    NotifyCount(s.notFull, woken);
  }

  lemma StepKeepsInv(s: State, a: Step)
    requires Inv(s) && Enabled(s, a)
    ensures Inv(Apply(s, a))
  {
    match a
    case Run(p, task, woken) =>
      RunKeepsSeparate(s, p, task, woken);
      RunKeepsCounted(s, p, task, woken);
      RunKeepsOrder(s, p, task, woken);
    case Take(w, woken) =>
      TakeKeepsSeparate(s, w, woken);
      TakeKeepsCounted(s, w, woken);
      TakeKeepsOrder(s, w, woken);
    case Stop => StopKeepsInv(s);
  }

  lemma StopKeepsInv(s: State)
    requires Inv(s)
    ensures Inv(Apply(s, Stop))
  {
  }

  lemma RunKeepsOrder(s: State, p: ThreadId, task: Task, woken: ThreadId)
    requires s.accepted == s.taken + s.queue && Enabled(s, Run(p, task, woken))
    ensures var s' := Apply(s, Run(p, task, woken)); s'.accepted == s'.taken + s'.queue
  {
  }

  lemma TakeKeepsOrder(s: State, w: ThreadId, woken: ThreadId)
    requires s.accepted == s.taken + s.queue && Enabled(s, Take(w, woken))
    ensures var s' := Apply(s, Take(w, woken)); s'.accepted == s'.taken + s'.queue
  {
    if s.queue != [] { assert s.queue == [s.queue[0]] + s.queue[1..]; }
  }

  lemma {:induction false} RunKeepsInv(s: State, run: seq<Step>)
    requires Inv(s) && CanRun(s, run)
    ensures Inv(Exec(s, run)) && Exec(s, run).limit == s.limit
    decreases |run|
  {
    if run != [] {
      StepKeepsInv(s, run[0]);
      RunKeepsInv(Apply(s, run[0]), run[1..]);
    }
  }

  // ---------------------------------------------------------------- main results

  /** No lost wakeup, in every interleaving with any spurious wakeups: a producer asleep
      unsignalled means the free places are spoken for by signalled producers, a worker
      asleep unsignalled means every queued task has a signalled worker coming. */
  lemma NoLostWakeup(limit: nat, run: seq<Step>)
    requires CanRun(Initial(limit), run)
    ensures var s := Exec(Initial(limit), run);
            (s.notFull.waiting != {} ==> |s.queue| + |s.notFull.signalled| >= limit)
            && (s.notEmpty.waiting != {} ==> |s.queue| <= |s.notEmpty.signalled|)
  {
    RunKeepsInv(Initial(limit), run);
  }

  /** Producers and workers are never all asleep: if both kinds sleep, somebody is on the way. */
  lemma NeverAllAsleep(limit: nat, run: seq<Step>)
    requires CanRun(Initial(limit), run)
    ensures var s := Exec(Initial(limit), run);
            s.notFull.waiting != {} && s.notEmpty.waiting != {} ==>
              s.notFull.signalled + s.notEmpty.signalled != {}
  {
    RunKeepsInv(Initial(limit), run);
    var s := Exec(Initial(limit), run);
    if s.notFull.signalled + s.notEmpty.signalled == {} {
      assert s.notFull.signalled == {} && s.notEmpty.signalled == {};
    }
  }

  /** The task of a producer that finds the pool running and not full. */
  function Admits(s: State, a: Step): seq<Task> {
    if a.Run? && s.running && !(0 < s.limit <= |s.queue|) then [a.task] else []
  }

  /** The task that a worker finds at the front of the queue. */
  function Hands(s: State, a: Step): seq<Task> {
    if a.Take? && s.queue != [] then [s.queue[0]] else []
  }

  function AcceptedIn(s: State, run: seq<Step>): seq<Task>
    requires CanRun(s, run)
    decreases |run|
  {
    if run == [] then [] else Admits(s, run[0]) + AcceptedIn(Apply(s, run[0]), run[1..])
  }

  function TakenIn(s: State, run: seq<Step>): seq<Task>
    requires CanRun(s, run)
    decreases |run|
  {
    if run == [] then [] else Hands(s, run[0]) + TakenIn(Apply(s, run[0]), run[1..])
  }

  lemma StepHistories(s: State, a: Step)
    requires Enabled(s, a)
    ensures var s' := Apply(s, a);
            s'.accepted == s.accepted + Admits(s, a) && s'.taken == s.taken + Hands(s, a)
  {
  }

  lemma {:induction false} RunHistories(s: State, run: seq<Step>)
    requires CanRun(s, run)
    ensures Exec(s, run).accepted == s.accepted + AcceptedIn(s, run)
    ensures Exec(s, run).taken == s.taken + TakenIn(s, run)
    decreases |run|
  {
    if run != [] {
      StepHistories(s, run[0]);
      hide Apply, Admits, Hands;
      RunHistories(Apply(s, run[0]), run[1..]);
      Chain(s.accepted, Admits(s, run[0]), AcceptedIn(Apply(s, run[0]), run[1..]));
      Chain(s.taken, Hands(s, run[0]), TakenIn(Apply(s, run[0]), run[1..]));
    }
  }

  lemma Chain(a: seq<Task>, b: seq<Task>, c: seq<Task>)
    ensures a + b + c == a + (b + c) && [] + a == a && a + [] == a
  {
  }

  lemma HistoriesFromStart(limit: nat, run: seq<Step>)
    requires CanRun(Initial(limit), run)
    ensures var s := Exec(Initial(limit), run);
            s.accepted == AcceptedIn(Initial(limit), run) && s.taken == TakenIn(Initial(limit), run)
  {
    hide Exec, AcceptedIn, TakenIn;
    RunHistories(Initial(limit), run);
    Chain(AcceptedIn(Initial(limit), run), [], []);
    Chain(TakenIn(Initial(limit), run), [], []);
  }

  /** A positive limit is never exceeded, and in every run the tasks accepted are, in order,
      the tasks taken followed by the queue. */
  lemma BoundedFifo(limit: nat, run: seq<Step>)
    requires CanRun(Initial(limit), run)
    ensures var s := Exec(Initial(limit), run);
            (limit > 0 ==> |s.queue| <= limit)
            && AcceptedIn(Initial(limit), run) == TakenIn(Initial(limit), run) + s.queue
  {
    RunKeepsInv(Initial(limit), run);
    HistoriesFromStart(limit, run);
  }

  /** A producer is made to wait exactly by a full queue of a running pool; otherwise its
      task is accepted, unless the pool has stopped. */
  lemma ProducerWaitsExactly(s: State, p: ThreadId, task: Task, woken: ThreadId)
    requires Inv(s) && Enabled(s, Run(p, task, woken))
    ensures var s' := Apply(s, Run(p, task, woken));
            (p in s'.notFull.waiting <==> s.running && 0 < s.limit == |s.queue|)
            && (s'.accepted == s.accepted + [task] <==> s.running && !(0 < s.limit == |s.queue|))
            && (p in s'.holding <==> p in s'.notFull.waiting)
            && (p in s'.holding ==> s'.holding[p] == task)
  {
    assert |s.accepted + [task]| == |s.accepted| + 1;
  }

  /** A worker waits exactly while a running pool has no task for it. */
  lemma WorkerWaitsExactly(s: State, w: ThreadId, woken: ThreadId)
    requires Inv(s) && Enabled(s, Take(w, woken))
    ensures w in Apply(s, Take(w, woken)).notEmpty.waiting <==> s.running && s.queue == []
  {
    assert s.notFull.Members() !! s.notEmpty.Members();
  }

  /** The condition has lost nobody, or exactly the woken thread to a signal. */
  predicate WakesOne(c: Condition, c': Condition, woken: ThreadId) {
    if c.waiting == {} then c' == c
    else c'.waiting == c.waiting - {woken} && c'.signalled == c.signalled + {woken}
  }

  /** Each task accepted wakes one worker, and each task taken from a bounded pool one
      producer, if one waits; nothing else of the other side's condition changes. */
  lemma OneWokenPerTask(s: State, a: Step)
    requires Inv(s) && Enabled(s, a) && !a.Stop?
    ensures var s' := Apply(s, a);
            if a.Run? then
              if Admits(s, a) != [] then WakesOne(s.notEmpty, s'.notEmpty, a.woken) else s'.notEmpty == s.notEmpty
            else
              if Hands(s, a) != [] && s.limit > 0 then WakesOne(s.notFull, s'.notFull, a.woken)
              else s'.notFull == s.notFull
  {
  }

  /** Stop stops: the pool runs no more, nobody waits unsignalled, whoever waited has been
      signalled, and the tasks are left alone. */
  lemma StopStops(s: State)
    ensures var s' := Apply(s, Stop);
            !s'.running && s'.notFull.waiting == {} && s'.notEmpty.waiting == {}
            && s.notFull.waiting <= s'.notFull.signalled && s.notEmpty.waiting <= s'.notEmpty.signalled
            && s'.queue == s.queue && s'.holding == s.holding
            && s'.accepted == s.accepted && s'.taken == s.taken
  {
  }

  /** After stop nobody sleeps unsignalled, and no thread ever starts to wait again. */
  lemma {:induction false} StoppedDrains(s: State, run: seq<Step>)
    requires Inv(s) && !s.running && CanRun(s, run)
    ensures var s' := Exec(s, run);
            !s'.running && s'.notFull.waiting == {} && s'.notEmpty.waiting == {}
            && s'.notFull.signalled <= s.notFull.signalled
            && s'.notEmpty.signalled <= s.notEmpty.signalled
            && s'.accepted == s.accepted
    decreases |run|
  {
    if run != [] {
      StepKeepsInv(s, run[0]);
      StoppedDrains(Apply(s, run[0]), run[1..]);
    }
  }

  lemma {:induction false} NothingAdmitted(s: State, run: seq<Step>)
    requires !s.running && CanRun(s, run)
    ensures AcceptedIn(s, run) == [] && !Exec(s, run).running
    decreases |run|
  {
    if run != [] { NothingAdmitted(Apply(s, run[0]), run[1..]); }
  }

  /** Over whole runs: whatever came before the Stop, after it nobody waits unsignalled and
      no task is accepted any more; those accepted before still leave in order. */
  lemma StoppedForGood(limit: nat, before: seq<Step>, after: seq<Step>)
    requires CanRun(Initial(limit), before)
    requires CanRun(Apply(Exec(Initial(limit), before), Stop), after)
    ensures var s := Apply(Exec(Initial(limit), before), Stop);
            var s' := Exec(s, after);
            !s'.running && s'.notFull.waiting == {} && s'.notEmpty.waiting == {}
            && AcceptedIn(s, after) == []
            && AcceptedIn(Initial(limit), before) == TakenIn(Initial(limit), before) + TakenIn(s, after) + s'.queue
  {
    var s0 := Exec(Initial(limit), before);
    var s := Apply(s0, Stop);
    RunKeepsInv(Initial(limit), before);
    HistoriesFromStart(limit, before);
    StopStops(s0);
    StepKeepsInv(s0, Stop);
    hide Apply, Exec, AcceptedIn, TakenIn, CanRun, Initial;
    StoppedDrains(s, after);
    NothingAdmitted(s, after);
    RunKeepsInv(s, after);
    RunHistories(s, after);
    Chain(s.accepted, [], []);
  }

  /** A woken thread that re-enters after stop is gone for good. */
  lemma StoppedThreadLeaves(s: State, a: Step)
    requires Inv(s) && !s.running && Enabled(s, a) && !a.Stop?
    ensures (if a.Run? then a.p else a.w) !in Apply(s, a).notFull.Members() + Apply(s, a).notEmpty.Members()
  {
  }

  // ---------------------------------------------------------------- the class

  class ThreadPool {
    var maxQueueSz: nat
    var running: bool
    var queue: seq<Task>
    var notFull: Condition
    var notEmpty: Condition
    ghost var holding: map<ThreadId, Task>
    ghost var accepted: seq<Task>
    ghost var taken: seq<Task>

    ghost function View(): State
      reads this
    {
      State(maxQueueSz, running, queue, notFull, notEmpty, holding, accepted, taken)
    }

    ghost predicate Valid()
      reads this
    {
      Inv(View())
    }

    /** A pool whose limit is set before `start`. */
    constructor (limit: nat)
      ensures Valid() && View() == Initial(limit)
    {
      maxQueueSz, running, queue := limit, true, [];
      notFull, notEmpty := Condition({}, {}), Condition({}, {});
      holding, accepted, taken := map[], [], [];
    }

    predicate Full()
      reads this
      ensures Valid() ==> (Full() <==> 0 < maxQueueSz == |queue|)
    {
      maxQueueSz > 0 && |queue| >= maxQueueSz
    }

    /** One pass of `run` from its loop test to its wait or its end. */
    method RunPass(p: ThreadId, task: Task, woken: ThreadId) returns (waits: bool)
      requires Valid() && Enabled(View(), Run(p, task, woken))
      modifies this
      ensures Valid() && View() == Apply(old(View()), Run(p, task, woken))
      ensures waits <==> p in notFull.waiting
    {
      StepKeepsInv(View(), Run(p, task, woken));
      assert Inv(Apply(View(), Run(p, task, woken)));
      waits := TryRun(p, task, woken);
    }

    method TryRun(p: ThreadId, task: Task, woken: ThreadId) returns (waits: bool)
      requires Enabled(View(), Run(p, task, woken))
      modifies this
      ensures View() == Apply(old(View()), Run(p, task, woken))
      ensures waits <==> p in notFull.waiting
    {
      ghost var next := Apply(View(), Run(p, task, woken));
      notFull := notFull.Leave(p);
      holding := holding - {p};
      waits := Full() && running;
      if waits {
        notFull := notFull.Wait(p);
        holding := holding[p := task];
        assert View() == next;
        return;
      }
      if !running { return; }
      assert !Full();
      queue := queue + [task];
      accepted := accepted + [task];
      notEmpty := notEmpty.Notify(woken);
      assert View() == next;
    }

    /** One pass of `take`; `got` is empty when the thread waits or the pool has stopped. */
    method TakePass(w: ThreadId, woken: ThreadId) returns (waits: bool, got: seq<Task>)
      requires Valid() && Enabled(View(), Take(w, woken))
      modifies this
      ensures Valid() && View() == Apply(old(View()), Take(w, woken))
      ensures waits <==> w in notEmpty.waiting
      ensures got == if old(queue) == [] then [] else [old(queue)[0]]
    {
      ghost var next := Apply(View(), Take(w, woken));
      StepKeepsInv(View(), Take(w, woken));
      waits, got := TryTake(w, woken);
      assert View() == next;
    }

    method TryTake(w: ThreadId, woken: ThreadId) returns (waits: bool, got: seq<Task>)
      requires Enabled(View(), Take(w, woken))
      modifies this
      ensures View() == Apply(old(View()), Take(w, woken))
      ensures waits <==> w in notEmpty.waiting
      ensures got == if old(queue) == [] then [] else [old(queue)[0]]
    {
      notEmpty := notEmpty.Leave(w);
      got := [];
      waits := queue == [] && running;
      if waits {
        notEmpty := notEmpty.Wait(w);
      } else if queue != [] {
        got := [queue[0]];
        queue := queue[1..];
        taken := taken + got;
        if maxQueueSz > 0 { notFull := notFull.Notify(woken); }
      }
    }

    method StopPool()
      requires Valid()
      modifies this
      ensures Valid() && View() == Apply(old(View()), Stop)
    {
      StepKeepsInv(View(), Stop);
      running := false;
      notEmpty := notEmpty.NotifyAll();
      notFull := notFull.NotifyAll();
    }
  }
}
