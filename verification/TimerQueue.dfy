/** Timestamps (chtho/time/Timestamp.h) as whole microseconds. */
module Timestamps {
  import opened Common

  const US_PER_SEC: int := 1_000_000

  datatype TimeSpec = TimeSpec(sec: int, nsec: int)

  predicate ValidTime(t: int) { t > 0 }

  /** `toSpec`, for the non-negative differences it is given. */
  function ToSpec(us: nat): TimeSpec { TimeSpec(us / US_PER_SEC, us % US_PER_SEC * 1000) }

  /** `operator-`: a difference, floored at 100 microseconds. */
  function Difference(a: int, b: int): TimeSpec { ToSpec(Max(a - b, 100)) }

  /** `operator+`: seconds converted to microseconds, truncated toward zero. */
  function Plus(t: int, secs: real): (r: int)
    ensures secs >= 0.0 ==> t <= r && (r - t) as real <= secs * 1_000_000.0 < (r - t + 1) as real
    ensures secs < 0.0 ==> r <= t && (r - t - 1) as real < secs * 1_000_000.0 <= (r - t) as real
  {
    var us := secs * 1_000_000.0;
    if us >= 0.0 then t + us.Floor else t - (-us).Floor
  }

  /** The kernel's timer: a zero interval disarms it, any other arms it once. */
  datatype Alarm = Disarmed | Armed(due: int, at: int) | Fired

  function SetTime(spec: TimeSpec, clock: int): Alarm {
    if spec == TimeSpec(0, 0) then Disarmed
    else Armed(clock + spec.sec * US_PER_SEC + spec.nsec / 1000, clock)
  }

  /** The floor is what keeps the kernel timer from being disarmed: a set timer is always
      armed, and due at the requested time or 100 microseconds from now. */
  lemma SetTimeArms(when: int, clock: int)
    ensures SetTime(Difference(when, clock), clock) == Armed(Max(when, clock + 100), clock)
  {
    var us := Max(when - clock, 100);
    assert us == us / US_PER_SEC * US_PER_SEC + us % US_PER_SEC;
  }
}

/** The timer queue (chtho/net/TimerQueue.cpp, chtho/net/Timer.h): two indexes over the same
    timers, explicit allocation, cancellation during dispatch, reuse of addresses, and a
    one-shot kernel timer.

    Timers live at addresses of a heap; deleting one makes its address available to the
    next `new`.  A step is what the loop thread does without calling out, or the creation
    of a timer by any thread, or the passing of time. */
module TimerQueues {
  import opened Common
  import opened Timestamps

  type Addr = nat

  datatype Timer = Timer(when: int, interval: real, id: nat) {
    predicate Repeats() { interval > 0.0 }

    /** `restart`: an interval later, or the invalid timestamp. */
    function Restarted(now: int): Timer {
      this.(when := if Repeats() then Plus(now, interval) else 0)
    }
  }

  datatype Entry = Entry(when: int, addr: Addr)
  datatype Key = Key(addr: Addr, id: nat)

  predicate Less(a: Entry, b: Entry) { a.when < b.when || (a.when == b.when && a.addr < b.addr) }

  // ---------------------------------------------------------------- the ordered set

  ghost predicate Sorted(ts: seq<Entry>) { forall i, j :: 0 <= i < j < |ts| ==> Less(ts[i], ts[j]) }

  function InsertSorted(ts: seq<Entry>, e: Entry): (r: seq<Entry>) {
    if ts == [] || Less(e, ts[0]) then [e] + ts
    else if ts[0] == e then ts
    else [ts[0]] + InsertSorted(ts[1..], e)
  }

  function Erase(ts: seq<Entry>, e: Entry): seq<Entry> {
    if ts == [] then [] else if ts[0] == e then ts[1..] else [ts[0]] + Erase(ts[1..], e)
  }

  /** `lower_bound` of (now, largest pointer): how many entries are due. */
  function CountDue(ts: seq<Entry>, now: int): (n: nat)
    ensures n <= |ts|
    ensures forall i :: 0 <= i < n ==> ts[i].when <= now
    ensures n < |ts| ==> ts[n].when > now
  {
    if ts == [] || ts[0].when > now then 0 else 1 + CountDue(ts[1..], now)
  }

  lemma {:induction false} InsertSortedSpec(ts: seq<Entry>, e: Entry)
    requires Sorted(ts)
    ensures Sorted(InsertSorted(ts, e))
    ensures forall x :: x in InsertSorted(ts, e) <==> x in ts || x == e
    ensures InsertSorted(ts, e) != []
    ensures InsertSorted(ts, e)[0] == if ts == [] || Less(e, ts[0]) then e else ts[0]
    decreases |ts|
  {
    if !(ts == [] || Less(e, ts[0]) || ts[0] == e) {
      var rest := InsertSorted(ts[1..], e);
      InsertSortedSpec(ts[1..], e);
      assert ts == [ts[0]] + ts[1..];
      forall x | x in rest
        ensures Less(ts[0], x)
      {
        if x in ts[1..] {
          var k :| 0 <= k < |ts[1..]| && ts[1..][k] == x;
          assert x == ts[k + 1];
        }
      }
      assert forall k :: 0 <= k < |rest| ==> rest[k] in rest;
    }
  }

  lemma SortedCons(x: Entry, ts: seq<Entry>)
    requires Sorted(ts) && forall y :: y in ts ==> Less(x, y)
    ensures Sorted([x] + ts)
  {
    assert forall k :: 0 <= k < |ts| ==> ts[k] in ts;
  }

  lemma {:induction false} EraseSpec(ts: seq<Entry>, e: Entry)
    requires Sorted(ts)
    ensures Sorted(Erase(ts, e))
    ensures forall x :: x in Erase(ts, e) <==> x in ts && x != e
    decreases |ts|
  {
    if ts != [] {
      assert ts == [ts[0]] + ts[1..];
      assert forall k :: 0 <= k < |ts[1..]| ==> ts[1..][k] == ts[k + 1];
      assert forall x :: x in ts[1..] ==> Less(ts[0], x);
      if ts[0] != e {
        EraseSpec(ts[1..], e);
        SortedCons(ts[0], Erase(ts[1..], e));
      }
    }
  }

  lemma DueSplit(ts: seq<Entry>, now: int)
    requires Sorted(ts)
    ensures var n := CountDue(ts, now);
            Sorted(ts[..n]) && Sorted(ts[n..])
            && (forall e :: e in ts[..n] <==> e in ts && e.when <= now)
            && (forall e :: e in ts[n..] <==> e in ts && e.when > now)
  {
    var n := CountDue(ts, now);
    forall e ensures e in ts[..n] <==> e in ts && e.when <= now { BeforeSplit(ts, now, e); }
    forall e ensures e in ts[n..] <==> e in ts && e.when > now { BehindSplit(ts, now, e); }
  }

  lemma LateFrom(ts: seq<Entry>, now: int, k: nat)
    requires Sorted(ts) && CountDue(ts, now) <= k < |ts|
    ensures ts[k].when > now
  {
    assert k == CountDue(ts, now) || Less(ts[CountDue(ts, now)], ts[k]);
  }

  lemma BeforeSplit(ts: seq<Entry>, now: int, e: Entry)
    requires Sorted(ts)
    ensures e in ts[..CountDue(ts, now)] <==> e in ts && e.when <= now
  {
    var n := CountDue(ts, now);
    if k :| 0 <= k < |ts| && ts[k] == e {
      if k < n { assert ts[..n][k] == e; } else { LateFrom(ts, now, k); }
    }
  }

  lemma BehindSplit(ts: seq<Entry>, now: int, e: Entry)
    requires Sorted(ts)
    ensures e in ts[CountDue(ts, now)..] <==> e in ts && e.when > now
  {
    var n := CountDue(ts, now);
    if k :| 0 <= k < |ts| && ts[k] == e {
      if k >= n { assert ts[n..][k - n] == e; }
    }
    if j :| 0 <= j < |ts[n..]| && ts[n..][j] == e { LateFrom(ts, now, n + j); }
  }

  // ---------------------------------------------------------------- the two indexes

  /** Allocated timers, timers_, activeTimers_, and the ids of deleted timers. */
  datatype Index = Index(heap: map<Addr, Timer>, timers: seq<Entry>, active: set<Key>, freed: set<nat>)

  predicate Live(heap: map<Addr, Timer>, id: nat) { exists a :: a in heap && heap[a].id == id }

  /** The indexes describe the same timers: every allocated timer that is not `out` (waiting
      to be inserted, or in the batch being dispatched) is in both, and nothing else is. */
  ghost predicate Indexed(x: Index, out: set<Addr>) {
    && Sorted(x.timers)
    && (forall e :: e in x.timers ==> e.addr in x.heap && e.addr !in out && x.heap[e.addr].when == e.when)
    && (forall k :: k in x.active ==> k.addr in x.heap && k.addr !in out && x.heap[k.addr].id == k.id)
    && (forall a :: a in x.heap && a !in out ==>
          Entry(x.heap[a].when, a) in x.timers && Key(a, x.heap[a].id) in x.active)
    && (forall a :: a in out ==> a in x.heap)
  }

  /** Every id ever handed out belongs to exactly one allocated timer or is freed. */
  ghost predicate Owned(x: Index, created: nat) { Unique(x, created) && Accounted(x, created) }

  ghost predicate Unique(x: Index, created: nat) {
    && (forall a, b :: a in x.heap && b in x.heap && x.heap[a].id == x.heap[b].id ==> a == b)
    && (forall a :: a in x.heap ==> 1 <= x.heap[a].id <= created && x.heap[a].id !in x.freed)
    && (forall i :: i in x.freed ==> 1 <= i <= created)
  }

  ghost predicate Accounted(x: Index, created: nat) {
    forall i :: 1 <= i <= created ==> i in x.freed || Live(x.heap, i)
  }

  /** `insert`. */
  function Insert(x: Index, a: Addr): Index
    requires a in x.heap
  {
    x.(timers := InsertSorted(x.timers, Entry(x.heap[a].when, a)),
       active := x.active + {Key(a, x.heap[a].id)})
  }

  /** A timer inserted at `when` goes to the front of timers_. */
  predicate Earliest(x: Index, when: int) { x.timers == [] || when < x.timers[0].when }

  /** `reset` for one timer of the batch: restart and insert it, or delete it. */
  function ResetOne(x: Index, a: Addr, canceled: set<Key>, now: int): Index
    requires a in x.heap
  {
    var t := x.heap[a];
    if t.Repeats() && Key(a, t.id) !in canceled then
      Insert(x.(heap := x.heap[a := t.Restarted(now)]), a)
    else x.(heap := x.heap - {a}, freed := x.freed + {t.id})
  }

  function ResetAll(x: Index, batch: seq<Addr>, canceled: set<Key>, now: int): Index
    requires forall a :: a in batch ==> a in x.heap
    requires Distinct(batch)
    decreases |batch|
  {
    if batch == [] then x
    else
      assert forall a :: a in batch[1..] ==> a in batch && a != batch[0];
      ResetAll(ResetOne(x, batch[0], canceled, now), batch[1..], canceled, now)
  }

  /** Addresses of entries. */
  function Addrs(es: seq<Entry>): (r: seq<Addr>)
    ensures |r| == |es| && forall k :: 0 <= k < |es| ==> r[k] == es[k].addr
  {
    seq(|es|, k requires 0 <= k < |es| => es[k].addr)
  }

  function Keys(heap: map<Addr, Timer>, batch: seq<Addr>): set<Key>
    requires forall a :: a in batch ==> a in heap
  {
    set a | a in batch :: Key(a, heap[a].id)
  }

  // ---------------------------------------------------------------- index lemmas

  lemma InsertKeepsIndexed(x: Index, a: Addr, out: set<Addr>)
    requires Indexed(x, out) && a in out
    ensures Indexed(Insert(x, a), out - {a})
  {
    InsertSortedSpec(x.timers, Entry(x.heap[a].when, a));
  }

  lemma RestartKeepsIndexed(x: Index, a: Addr, t: Timer, out: set<Addr>)
    requires Indexed(x, out) && a in out
    ensures Indexed(x.(heap := x.heap[a := t]), out)
  {
  }

  lemma FreeKeepsIndexed(x: Index, a: Addr, out: set<Addr>)
    requires Indexed(x, out) && a in out
    ensures Indexed(x.(heap := x.heap - {a}, freed := x.freed + {x.heap[a].id}), out - {a})
  {
  }

  lemma FreeKeepsOwned(x: Index, a: Addr, created: nat)
    requires Owned(x, created) && a in x.heap
    ensures Owned(x.(heap := x.heap - {a}, freed := x.freed + {x.heap[a].id}), created)
  {
    var x' := x.(heap := x.heap - {a}, freed := x.freed + {x.heap[a].id});
    FreeKeepsUnique(x, x', a, created);
    forall i | 1 <= i <= created ensures i in x'.freed || Live(x'.heap, i) {
      if i !in x'.freed { StillLive(x.heap, x'.heap, i); }
    }
  }

  lemma FreeKeepsUnique(x: Index, x': Index, a: Addr, created: nat)
    requires Unique(x, created) && a in x.heap
    requires x'.heap == x.heap - {a} && x'.freed == x.freed + {x.heap[a].id}
    ensures Unique(x', created)
  {
  }

  /** A timer lives on where its address keeps its id. */
  lemma StillLive(h: map<Addr, Timer>, h': map<Addr, Timer>, i: nat)
    requires Live(h, i) && forall b :: b in h && h[b].id == i ==> b in h' && h'[b].id == i
    ensures Live(h', i)
  {
    var b :| b in h && h[b].id == i;
    assert b in h' && h'[b].id == i;
  }

  lemma RestartKeepsOwned(x: Index, a: Addr, t: Timer, created: nat)
    requires Owned(x, created) && a in x.heap && t.id == x.heap[a].id
    ensures Owned(x.(heap := x.heap[a := t]), created)
  {
    var x' := x.(heap := x.heap[a := t]);
    RestartKeepsUnique(x, x', a, t, created);
    forall i | 1 <= i <= created ensures i in x'.freed || Live(x'.heap, i) {
      if i !in x'.freed { StillLive(x.heap, x'.heap, i); }
    }
  }

  lemma RestartKeepsUnique(x: Index, x': Index, a: Addr, t: Timer, created: nat)
    requires Unique(x, created) && a in x.heap && t.id == x.heap[a].id
    requires x'.heap == x.heap[a := t] && x'.freed == x.freed
    ensures Unique(x', created)
  {
  }

  lemma RestartKeeps(x: Index, a: Addr, t: Timer, out: set<Addr>, created: nat)
    requires Indexed(x, out) && Owned(x, created) && a in out && t.id == x.heap[a].id
    ensures var x' := Insert(x.(heap := x.heap[a := t]), a);
            Indexed(x', out - {a}) && Owned(x', created)
  {
    var x1 := x.(heap := x.heap[a := t]);
    RestartKeepsIndexed(x, a, t, out);
    RestartKeepsOwned(x, a, t, created);
    InsertKeepsIndexed(x1, a, out);
    OwnedByHeap(x1, Insert(x1, a), created);
  }

  lemma OwnedByHeap(x: Index, y: Index, created: nat)
    requires Owned(x, created) && y.heap == x.heap && y.freed == x.freed
    ensures Owned(y, created)
  {
  }

  lemma ResetOneKeeps(x: Index, a: Addr, canceled: set<Key>, now: int, out: set<Addr>, created: nat)
    requires Indexed(x, out) && Owned(x, created) && a in out
    ensures var x' := ResetOne(x, a, canceled, now);
            Indexed(x', out - {a}) && Owned(x', created)
  {
    var t := x.heap[a];
    if t.Repeats() && Key(a, t.id) !in canceled {
      RestartKeeps(x, a, t.Restarted(now), out, created);
    } else {
      FreeKeeps(x, a, out, created);
    }
  }

  lemma ResetOneFrame(x: Index, a: Addr, canceled: set<Key>, now: int, b: Addr)
    requires a in x.heap && b in x.heap && b != a
    ensures var x' := ResetOne(x, a, canceled, now); b in x'.heap && x'.heap[b] == x.heap[b]
  {
  }

  lemma FreeKeeps(x: Index, a: Addr, out: set<Addr>, created: nat)
    requires Indexed(x, out) && Owned(x, created) && a in out
    ensures var x' := x.(heap := x.heap - {a}, freed := x.freed + {x.heap[a].id});
            Indexed(x', out - {a}) && Owned(x', created)
  {
    FreeKeepsIndexed(x, a, out);
    FreeKeepsOwned(x, a, created);
  }

  function AddrSet(batch: seq<Addr>): set<Addr> { set a | a in batch }

  /** A batch that `reset` can work through: allocated timers outside the indexes. */
  ghost predicate Resettable(x: Index, batch: seq<Addr>, out: set<Addr>, created: nat) {
    && Indexed(x, out) && Owned(x, created)
    && Distinct(batch) && AddrSet(batch) <= out
    && (forall a :: a in batch ==> a in x.heap)
  }

  lemma ResetTail(x: Index, batch: seq<Addr>, canceled: set<Key>, now: int, out: set<Addr>, created: nat)
    requires Resettable(x, batch, out, created) && batch != []
    ensures Resettable(ResetOne(x, batch[0], canceled, now), batch[1..], out - {batch[0]}, created)
    ensures forall b :: b in batch <==> b == batch[0] || b in batch[1..]
    ensures batch[0] !in batch[1..]
    ensures forall b :: b in x.heap && b != batch[0] ==>
              var x1 := ResetOne(x, batch[0], canceled, now); b in x1.heap && x1.heap[b] == x.heap[b]
  {
    assert batch[0] in AddrSet(batch);
    ResetOneKeeps(x, batch[0], canceled, now, out, created);
    forall b | b in x.heap && b != batch[0]
      ensures var x1 := ResetOne(x, batch[0], canceled, now); b in x1.heap && x1.heap[b] == x.heap[b]
    {
      ResetOneFrame(x, batch[0], canceled, now, b);
    }
    assert forall c :: c in batch[1..] ==> c in batch && c != batch[0] && c in AddrSet(batch);
  }

  lemma {:induction false} ResetAllKeeps(
      x: Index, batch: seq<Addr>, canceled: set<Key>, now: int, out: set<Addr>, created: nat)
    requires Resettable(x, batch, out, created)
    ensures var x' := ResetAll(x, batch, canceled, now);
            Indexed(x', out - AddrSet(batch)) && Owned(x', created)
    decreases |batch|
  {
    if batch == [] {
      assert out - AddrSet(batch) == out;
    } else {
      ResetTail(x, batch, canceled, now, out, created);
      ResetAllKeeps(ResetOne(x, batch[0], canceled, now), batch[1..], canceled, now, out - {batch[0]}, created);
      assert out - {batch[0]} - AddrSet(batch[1..]) == out - AddrSet(batch);
    }
  }

  // ---------------------------------------------------------------- the state machine

  datatype Dispatch = NoDispatch | Dispatching(now: int, batch: seq<Addr>, next: nat)

  datatype State = State(
    index: Index,
    created: nat,             // Timer::numCreated_
    waiting: set<Addr>,       // created, addTimerInLoop not yet run
    canceled: set<Key>,       // cancelTimers_
    calling: bool,            // callingExpiredTimers_
    dispatch: Dispatch,
    clock: int,
    alarm: Alarm)             // timerfd

  datatype Step =
    | Create(a: Addr, when: int, interval: real)  // `new Timer`, by any thread
    | AddInLoop(a: Addr)
    | Cancel(a: Addr, id: nat)                    // rmTimerInLoop of any TimerID
    | HandleRead                                  // handleRead up to its first callback
    | RunNext                                     // one callback of the batch
    | Finish                                      // reset
    | Tick(d: nat)
    | Expire                                      // the kernel timer runs out

  /** The constructor leaves callingExpiredTimers_ unset, so it may start either way. */
  function Initial(calling: bool, clock: int): State {
    State(Index(map[], [], {}, {}), 0, {}, {}, calling, NoDispatch, clock, Disarmed)
  }

  predicate Enabled(s: State, a: Step) {
    match a
    case Create(at, _, _) => at !in s.index.heap
    case AddInLoop(at) => at in s.waiting
    case Cancel(_, _) => true
    case HandleRead => s.dispatch.NoDispatch?
    case RunNext => s.dispatch.Dispatching? && s.dispatch.next < |s.dispatch.batch|
    case Finish => s.dispatch.Dispatching? && s.dispatch.next >= |s.dispatch.batch|
    case Tick(_) => true
    case Expire => s.alarm.Armed? && s.alarm.due <= s.clock
  }

  function Due(x: Index, now: int): seq<Addr> { Addrs(x.timers[..CountDue(x.timers, now)]) }

  /** The assertions of the source, and that every timer it touches or deletes is allocated. */
  ghost predicate Asserted(s: State, a: Step) {
    match a
    case AddInLoop(at) => at in s.index.heap
    case Cancel(at, id) =>
      && |s.index.timers| == |s.index.active|
      && (Key(at, id) in s.index.active ==>
            at in s.index.heap && Entry(s.index.heap[at].when, at) in s.index.timers)
    case HandleRead =>
      && |s.index.timers| == |s.index.active|
      && (forall b :: b in Due(s.index, s.clock) ==>
            b in s.index.heap && Key(b, s.index.heap[b].id) in s.index.active)
    case RunNext => s.dispatch.Dispatching? && s.dispatch.next < |s.dispatch.batch|
                    && s.dispatch.batch[s.dispatch.next] in s.index.heap
    case Finish =>
      && s.dispatch.Dispatching? && Distinct(s.dispatch.batch)
      && (forall b :: b in s.dispatch.batch ==> b in s.index.heap)
      && var x := ResetAll(s.index, s.dispatch.batch, s.canceled, s.dispatch.now);
         (x.timers != [] ==> x.timers[0].addr in x.heap && x.heap[x.timers[0].addr].when == x.timers[0].when)
    case _ => true
  }

  ghost function Apply(s: State, a: Step): State
    requires Enabled(s, a) && Asserted(s, a)
  {
    var x := s.index;
    match a
    case Create(at, when, interval) =>
      s.(index := x.(heap := x.heap[at := Timer(when, interval, s.created + 1)]),
         created := s.created + 1, waiting := s.waiting + {at})
    case AddInLoop(at) =>
      var when := x.heap[at].when;
      s.(index := Insert(x, at), waiting := s.waiting - {at},
         alarm := if Earliest(x, when) then SetTime(Difference(when, s.clock), s.clock) else s.alarm)
    case Cancel(at, id) =>
      if Key(at, id) in x.active then
        s.(index := Index(x.heap - {at}, Erase(x.timers, Entry(x.heap[at].when, at)),
                          x.active - {Key(at, id)}, x.freed + {x.heap[at].id}))
      else if s.calling then s.(canceled := s.canceled + {Key(at, id)})
      else s
    case HandleRead =>
      var batch := Due(x, s.clock);
      s.(index := x.(timers := x.timers[CountDue(x.timers, s.clock)..], active := x.active - Keys(x.heap, batch)),
         canceled := {}, calling := true, dispatch := Dispatching(s.clock, batch, 0),
         alarm := if s.alarm.Fired? then Disarmed else s.alarm)
    case RunNext => s.(dispatch := s.dispatch.(next := s.dispatch.next + 1))
    case Finish =>
      var x' := ResetAll(x, s.dispatch.batch, s.canceled, s.dispatch.now);
      s.(index := x', calling := false, dispatch := NoDispatch,
         alarm := if x'.timers != [] && ValidTime(x'.timers[0].when)
                  then SetTime(Difference(x'.timers[0].when, s.clock), s.clock) else s.alarm)
    case Tick(d) => s.(clock := s.clock + d)
    case Expire => s.(alarm := Fired)
  }

  ghost predicate CanRun(s: State, run: seq<Step>)
    decreases |run|
  {
    run == [] ||
    (Enabled(s, run[0]) && Asserted(s, run[0]) && CanRun(Apply(s, run[0]), run[1..]))
  }

  ghost function Exec(s: State, run: seq<Step>): State
    requires CanRun(s, run)
    decreases |run|
  {
    if run == [] then s else Exec(Apply(s, run[0]), run[1..])
  }

  // ---------------------------------------------------------------- the invariant

  function InBatch(s: State): set<Addr> {
    if s.dispatch.Dispatching? then AddrSet(s.dispatch.batch) else {}
  }

  /** Set, and due no later than the given time or 100 microseconds after it was set. */
  predicate AlarmFor(alarm: Alarm, when: int) {
    alarm.Fired? || (alarm.Armed? && alarm.due <= Max(when, alarm.at + 100))
  }

  /** Outside dispatch the first timer has its alarm.  During dispatch the alarm is set
      again at the end, unless the first timer then has an invalid timestamp: such a timer
      was added during the dispatch, and got its alarm when it was. */
  ghost predicate Alarmed(s: State) {
    s.index.timers != [] && (s.dispatch.NoDispatch? || !ValidTime(s.index.timers[0].when)) ==>
      AlarmFor(s.alarm, s.index.timers[0].when)
  }

  ghost predicate Placed(s: State) {
    && Indexed(s.index, s.waiting + InBatch(s))
    && Owned(s.index, s.created)
    && s.waiting !! InBatch(s)
    && ValidTime(s.clock)
    && (s.dispatch.Dispatching? ==>
          s.calling && Distinct(s.dispatch.batch) && s.dispatch.next <= |s.dispatch.batch| && ValidTime(s.dispatch.now))
  }

  ghost predicate Inv(s: State) { Placed(s) && Alarmed(s) }

  lemma {:induction false} SizesMatch(ts: seq<Entry>, heap: map<Addr, Timer>, ks: set<Key>)
    requires Sorted(ts)
    requires forall e :: e in ts ==> e.addr in heap && heap[e.addr].when == e.when && Key(e.addr, heap[e.addr].id) in ks
    requires forall k :: k in ks ==> k.addr in heap && heap[k.addr].id == k.id && Entry(heap[k.addr].when, k.addr) in ts
    ensures |ts| == |ks|
    decreases |ts|
  {
    if ts == [] {
      if k :| k in ks { assert false; }
    } else {
      var e, rest := ts[0], ts[1..];
      var k0 := Key(e.addr, heap[e.addr].id);
      assert e in ts && k0 in ks;
      assert forall j :: 0 <= j < |rest| ==> rest[j] == ts[j + 1];
      assert ts == [e] + rest;
      SizesMatch(rest, heap, ks - {k0});
    }
  }

  lemma DueIsActive(x: Index, out: set<Addr>, now: int, b: Addr)
    requires Indexed(x, out) && b in Due(x, now)
    ensures b in x.heap && Key(b, x.heap[b].id) in x.active && x.heap[b].when <= now
  {
    var due := x.timers[..CountDue(x.timers, now)];
    var k :| 0 <= k < |due| && due[k].addr == b;
    assert due[k] in x.timers;
  }

  lemma StepAsserted(s: State, a: Step)
    requires Placed(s) && Enabled(s, a)
    ensures Asserted(s, a)
  {
    SizesMatch(s.index.timers, s.index.heap, s.index.active);
    match a
    case HandleRead =>
      forall b | b in Due(s.index, s.clock)
        ensures b in s.index.heap && Key(b, s.index.heap[b].id) in s.index.active
      {
        DueIsActive(s.index, s.waiting + InBatch(s), s.clock, b);
      }
    case RunNext => assert s.dispatch.batch[s.dispatch.next] in InBatch(s);
    case Finish =>
      assert forall b :: b in s.dispatch.batch ==> b in InBatch(s);
      ResetAllKeeps(s.index, s.dispatch.batch, s.canceled, s.dispatch.now, s.waiting + InBatch(s), s.created);
      var x := ResetAll(s.index, s.dispatch.batch, s.canceled, s.dispatch.now);
      if x.timers != [] { assert x.timers[0] in x.timers; }
    case _ =>
  }

  lemma CreatePlaces(s: State, a: Addr, when: int, interval: real)
    requires Placed(s) && a !in s.index.heap
    ensures Placed(Apply(s, Create(a, when, interval)))
  {
    var t, out := Timer(when, interval, s.created + 1), s.waiting + InBatch(s);
    var s' := Apply(s, Create(a, when, interval));
    assert a !in out && s'.waiting + InBatch(s') == out + {a};
    CreateOwned(s.index, s'.index, a, t, s.created);
    CreateIndexed(s.index, s'.index, a, t, out, s'.waiting + InBatch(s'));
  }

  lemma CreateIndexed(x: Index, x': Index, a: Addr, t: Timer, out: set<Addr>, out': set<Addr>)
    requires Indexed(x, out) && a !in x.heap && x' == x.(heap := x.heap[a := t]) && out' == out + {a}
    ensures Indexed(x', out')
  {
  }

  lemma CreateOwned(x: Index, x': Index, a: Addr, t: Timer, created: nat)
    requires Owned(x, created) && a !in x.heap && t.id == created + 1 && x' == x.(heap := x.heap[a := t])
    ensures Owned(x', created + 1)
  {
    CreateKeepsUnique(x, x', a, t, created);
    assert a in x'.heap && x'.heap[a].id == created + 1;
    forall i | 1 <= i <= created + 1 ensures i in x'.freed || Live(x'.heap, i) {
      if i <= created && i !in x'.freed { StillLive(x.heap, x'.heap, i); }
    }
  }

  lemma CreateKeepsUnique(x: Index, x': Index, a: Addr, t: Timer, created: nat)
    requires Unique(x, created) && a !in x.heap && t.id == created + 1
    requires x'.heap == x.heap[a := t] && x'.freed == x.freed
    ensures Unique(x', created + 1)
  {
  }

  lemma AddPlaces(s: State, a: Addr)
    requires Placed(s) && a in s.waiting
    ensures Asserted(s, AddInLoop(a)) && Placed(Apply(s, AddInLoop(a)))
  {
    InsertKeepsIndexed(s.index, a, s.waiting + InBatch(s));
    assert s.waiting + InBatch(s) - {a} == s.waiting - {a} + InBatch(s);
  }

  lemma DeleteKeepsIndexed(x: Index, a: Addr, out: set<Addr>)
    requires Indexed(x, out) && a in x.heap && a !in out
    ensures Indexed(Index(x.heap - {a}, Erase(x.timers, Entry(x.heap[a].when, a)),
                          x.active - {Key(a, x.heap[a].id)}, x.freed + {x.heap[a].id}), out)
  {
    EraseSpec(x.timers, Entry(x.heap[a].when, a));
  }

  lemma CancelPlaces(s: State, a: Addr, id: nat)
    requires Placed(s)
    ensures Asserted(s, Cancel(a, id)) && Placed(Apply(s, Cancel(a, id)))
  {
    StepAsserted(s, Cancel(a, id));
    if Key(a, id) in s.index.active {
      DeleteKeepsIndexed(s.index, a, s.waiting + InBatch(s));
      FreeKeepsOwned(s.index, a, s.created);
    }
  }

  lemma DueDistinct(x: Index, out: set<Addr>, now: int)
    requires Indexed(x, out)
    ensures Distinct(Due(x, now))
  {
    var due := x.timers[..CountDue(x.timers, now)];
    forall i, j | 0 <= i < j < |due|
      ensures due[i].addr != due[j].addr
    {
      assert due[i] in x.timers && due[j] in x.timers && Less(due[i], due[j]);
    }
  }

  lemma DueIndexed(x: Index, out: set<Addr>, now: int)
    requires Indexed(x, out) && forall b :: b in Due(x, now) ==> b in x.heap
    ensures Indexed(x.(timers := x.timers[CountDue(x.timers, now)..], active := x.active - Keys(x.heap, Due(x, now))),
                    out + AddrSet(Due(x, now)))
    ensures out !! AddrSet(Due(x, now))
  {
    var n := CountDue(x.timers, now);
    var due := x.timers[..n];
    DueSplit(x.timers, now);
    forall a
      ensures a in Due(x, now) <==> a in x.heap && a !in out && x.heap[a].when <= now
    {
      if a in Due(x, now) {
        var k :| 0 <= k < |due| && due[k].addr == a;
        assert due[k] in due;
      }
      if a in x.heap && a !in out && x.heap[a].when <= now {
        assert Entry(x.heap[a].when, a) in due;
        var k :| 0 <= k < |due| && due[k] == Entry(x.heap[a].when, a);
        assert Due(x, now)[k] == a;
      }
    }
  }

  lemma HandleReadPlaces(s: State)
    requires Placed(s) && Enabled(s, HandleRead) && Asserted(s, HandleRead)
    ensures Placed(Apply(s, HandleRead))
  {
    DueDistinct(s.index, s.waiting + InBatch(s), s.clock);
    DueIndexed(s.index, s.waiting + InBatch(s), s.clock);
    assert s.waiting + InBatch(s) == s.waiting;
  }

  lemma FinishPlaces(s: State)
    requires Placed(s) && Enabled(s, Finish) && Asserted(s, Finish)
    ensures Placed(Apply(s, Finish))
  {
    ResetAllKeeps(s.index, s.dispatch.batch, s.canceled, s.dispatch.now, s.waiting + InBatch(s), s.created);
    assert s.waiting + InBatch(s) - AddrSet(s.dispatch.batch) == s.waiting + {};
  }

  lemma StepPlaces(s: State, a: Step)
    requires Placed(s) && Enabled(s, a) && Asserted(s, a)
    ensures Placed(Apply(s, a))
  {
    match a
    case Create(at, when, interval) => CreatePlaces(s, at, when, interval);
    case AddInLoop(at) => AddPlaces(s, at);
    case Cancel(at, id) => CancelPlaces(s, at, id);
    case HandleRead => HandleReadPlaces(s);
    case Finish => FinishPlaces(s);
    case _ =>
  }

  // ---------------------------------------------------------------- the alarm

  /** Restarted timers are in the future, so an invalid first timer was first before. */
  lemma {:induction false} ResetAllFirst(
      x: Index, batch: seq<Addr>, canceled: set<Key>, now: int, out: set<Addr>, created: nat)
    requires Resettable(x, batch, out, created) && ValidTime(now)
    ensures var ts := ResetAll(x, batch, canceled, now).timers;
            ts != [] && !ValidTime(ts[0].when) ==> x.timers != [] && x.timers[0] == ts[0]
    decreases |batch|
  {
    if batch != [] {
      ResetTail(x, batch, canceled, now, out, created);
      ResetAllFirst(ResetOne(x, batch[0], canceled, now), batch[1..], canceled, now, out - {batch[0]}, created);
      InsertSortedSpec(x.timers, Entry(x.heap[batch[0]].Restarted(now).when, batch[0]));
    }
  }

  lemma AddAlarms(s: State, at: Addr)
    requires Inv(s) && Enabled(s, AddInLoop(at)) && Asserted(s, AddInLoop(at))
    ensures Alarmed(Apply(s, AddInLoop(at)))
  {
    InsertSortedSpec(s.index.timers, Entry(s.index.heap[at].when, at));
    SetTimeArms(s.index.heap[at].when, s.clock);
  }

  lemma CancelAlarms(s: State, at: Addr, id: nat)
    requires Inv(s) && Asserted(s, Cancel(at, id))
    ensures Alarmed(Apply(s, Cancel(at, id)))
  {
    if Key(at, id) in s.index.active {
      var s' := Apply(s, Cancel(at, id));
      EraseSpec(s.index.timers, Entry(s.index.heap[at].when, at));
      if s'.index.timers != [] { assert s'.index.timers[0] in s'.index.timers; }
    }
  }

  lemma FinishAlarms(s: State)
    requires Inv(s) && Enabled(s, Finish) && Asserted(s, Finish)
    ensures Alarmed(Apply(s, Finish))
  {
    var s' := Apply(s, Finish);
    assert forall b :: b in s.dispatch.batch ==> b in InBatch(s);
    ResetAllFirst(s.index, s.dispatch.batch, s.canceled, s.dispatch.now, s.waiting + InBatch(s), s.created);
    if s'.index.timers != [] { SetTimeArms(s'.index.timers[0].when, s.clock); }
  }

  lemma StepAlarms(s: State, a: Step)
    requires Inv(s) && Enabled(s, a) && Asserted(s, a)
    ensures Alarmed(Apply(s, a))
  {
    match a
    case AddInLoop(at) => AddAlarms(s, at);
    case Cancel(at, id) => CancelAlarms(s, at, id);
    case HandleRead => DueSplit(s.index.timers, s.clock);
    case Finish => FinishAlarms(s);
    case _ =>
  }

  lemma StepKeepsInv(s: State, a: Step)
    requires Inv(s) && Enabled(s, a)
    ensures Asserted(s, a) && Inv(Apply(s, a))
  {
    StepAsserted(s, a);
    StepPlaces(s, a);
    StepAlarms(s, a);
  }

  lemma {:induction false} RunKeepsInv(s: State, run: seq<Step>)
    requires Inv(s) && CanRun(s, run)
    ensures Inv(Exec(s, run))
    decreases |run|
  {
    if run != [] {
      StepKeepsInv(s, run[0]);
      RunKeepsInv(Apply(s, run[0]), run[1..]);
    }
  }

  // ---------------------------------------------------------------- main results

  /** In every run the assertions hold and no deleted timer is touched or deleted again. */
  lemma AssertionsHold(calling: bool, clock: int, run: seq<Step>, a: Step)
    requires ValidTime(clock) && CanRun(Initial(calling, clock), run)
    requires Enabled(Exec(Initial(calling, clock), run), a)
    ensures Asserted(Exec(Initial(calling, clock), run), a)
  {
    RunKeepsInv(Initial(calling, clock), run);
    StepAsserted(Exec(Initial(calling, clock), run), a);
  }

  /** In every run timers_ is exactly the entries of the timers in activeTimers_, of equal
      size; an allocated timer is active, in the batch or waiting, and only one of these;
      an id handed out belongs to an allocated timer or to a deleted one, not to both. */
  lemma IndexesAgree(calling: bool, clock: int, run: seq<Step>)
    requires ValidTime(clock) && CanRun(Initial(calling, clock), run)
    ensures var s := Exec(Initial(calling, clock), run);
            var x := s.index;
            |x.timers| == |x.active|
            && (forall e :: e in x.timers <==> e.addr in x.heap && x.heap[e.addr].when == e.when
                                               && Key(e.addr, x.heap[e.addr].id) in x.active)
            && (forall k :: k in x.active ==> k.addr in x.heap && x.heap[k.addr].id == k.id)
            && (forall a :: a in x.heap <==>
                  a in s.waiting || a in InBatch(s) || exists k :: k in x.active && k.addr == a)
            && s.waiting !! InBatch(s)
            && (forall k :: k in x.active ==> k.addr !in s.waiting && k.addr !in InBatch(s))
            && (forall i :: 1 <= i <= s.created ==> (i in x.freed <==> !Live(x.heap, i)))
  {
    RunKeepsInv(Initial(calling, clock), run);
    var s := Exec(Initial(calling, clock), run);
    SizesMatch(s.index.timers, s.index.heap, s.index.active);
    forall a | a in s.index.heap && a !in s.waiting && a !in InBatch(s)
      ensures exists k :: k in s.index.active && k.addr == a
    {
      assert Key(a, s.index.heap[a].id) in s.index.active;
    }
  }

  /** A dispatch takes exactly the timers due, in order of time and then address. */
  lemma DispatchesExactlyDue(s: State)
    requires Inv(s) && Enabled(s, HandleRead) && Asserted(s, HandleRead)
    ensures var s' := Apply(s, HandleRead);
            var n := CountDue(s.index.timers, s.clock);
            s'.dispatch.batch == Addrs(s.index.timers[..n])
            && s'.index.timers == s.index.timers[n..]
            && (forall e :: e in s.index.timers[..n] <==> e in s.index.timers && e.when <= s.clock)
            && (forall e :: e in s'.index.timers <==> e in s.index.timers && e.when > s.clock)
            && Sorted(s.index.timers[..n])
  {
    DueSplit(s.index.timers, s.clock);
  }

  /** No timer is forgotten: in every run, whatever timestamps the timers carry, while the
      queue holds a timer and no dispatch is running the kernel timer has fired unread or is
      due by the first timer's time or 100 microseconds after it was set. */
  lemma NoTimerForgotten(calling: bool, clock: int, run: seq<Step>)
    requires ValidTime(clock) && CanRun(Initial(calling, clock), run)
    ensures var s := Exec(Initial(calling, clock), run);
            s.dispatch.NoDispatch? && s.index.timers != [] ==> AlarmFor(s.alarm, s.index.timers[0].when)
  {
    RunKeepsInv(Initial(calling, clock), run);
  }

  // ---------------------------------------------------------------- cancellation

  /** A timer outside the batch, and what is settled about it, `reset` does not touch. */
  lemma {:induction false} ResetSettled(
      x: Index, batch: seq<Addr>, canceled: set<Key>, now: int, out: set<Addr>, created: nat, b: Addr, id: nat)
    requires Resettable(x, batch, out, created) && b !in batch
    ensures var x' := ResetAll(x, batch, canceled, now);
            (b in x.heap ==> b in x'.heap && x'.heap[b] == x.heap[b])
            && (Key(b, id) in x.active ==> Key(b, id) in x'.active)
            && (id in x.freed ==> id in x'.freed)
    decreases |batch|
  {
    if batch != [] {
      ResetTail(x, batch, canceled, now, out, created);
      ResetSettled(ResetOne(x, batch[0], canceled, now), batch[1..], canceled, now, out - {batch[0]}, created, b, id);
    }
  }

  /** What becomes of a timer t of the batch, at address b. */
  ghost predicate Fate(t: Timer, x: Index, canceled: set<Key>, now: int, b: Addr) {
    if t.Repeats() && Key(b, t.id) !in canceled then
      b in x.heap && x.heap[b] == t.Restarted(now) && Key(b, t.id) in x.active
    else t.id in x.freed
  }

  /** `reset` decides each timer of the batch by its own key alone. */
  lemma {:induction false} ResetFate(
      x: Index, batch: seq<Addr>, canceled: set<Key>, now: int, out: set<Addr>, created: nat, b: Addr)
    requires Resettable(x, batch, out, created) && b in batch
    ensures Fate(x.heap[b], ResetAll(x, batch, canceled, now), canceled, now, b)
    decreases |batch|
  {
    var x1 := ResetOne(x, batch[0], canceled, now);
    ResetTail(x, batch, canceled, now, out, created);
    if b == batch[0] {
      ResetSettled(x1, batch[1..], canceled, now, out - {b}, created, b, x.heap[b].id);
    } else {
      ResetFate(x1, batch[1..], canceled, now, out - {batch[0]}, created, b);
    }
  }

  /** At the end of a dispatch a timer of the batch goes on exactly when it repeats and its
      own key was not canceled during the dispatch, an interval after the dispatch began, to
      the microsecond, and with the same interval; otherwise it is deleted. */
  lemma RestartedExactlyUnlessCanceled(s: State, b: Addr)
    requires Inv(s) && Enabled(s, Finish) && Asserted(s, Finish) && b in s.dispatch.batch
    ensures var s' := Apply(s, Finish);
            var t := s.index.heap[b];
            if t.interval > 0.0 && Key(b, t.id) !in s.canceled
            then Key(b, t.id) in s'.index.active && b in s'.index.heap
                 && Entry(s'.index.heap[b].when, b) in s'.index.timers
                 && IntervalLater(t, s'.index.heap[b], s.dispatch.now)
            else t.id in s'.index.freed && !Live(s'.index.heap, t.id)
  {
    assert b in InBatch(s);
    ResetFate(s.index, s.dispatch.batch, s.canceled, s.dispatch.now, s.waiting + InBatch(s), s.created, b);
    StepKeepsInv(s, Finish);
    if s.index.heap[b].Repeats() { RestartIsLater(s.index.heap[b], s.dispatch.now); }
  }

  /** The same timer, due an interval after `now`, truncated to microseconds. */
  ghost predicate IntervalLater(t: Timer, t': Timer, now: int) {
    && t'.id == t.id && t'.interval == t.interval
    && (t'.when - now) as real <= t.interval * 1_000_000.0 < (t'.when - now + 1) as real
  }

  lemma RestartIsLater(t: Timer, now: int)
    requires t.interval > 0.0
    ensures IntervalLater(t, t.Restarted(now), now)
  {
  }

  // ---------------------------------------------------------------- what each step does

  /** A new timer keeps the expiry and the interval asked for, under the next sequence number;
      it waits to be inserted and no other timer changes. */
  lemma CreateKeepsRequest(s: State, a: Addr, when: int, interval: real)
    requires Inv(s) && a !in s.index.heap && Asserted(s, Create(a, when, interval))
    ensures var s' := Apply(s, Create(a, when, interval));
            a in s'.index.heap && s'.index.heap[a].when == when && s'.index.heap[a].interval == interval
            && s'.index.heap[a].id == s'.created == s.created + 1
            && s'.index.heap - {a} == s.index.heap
            && a in s'.waiting && s'.waiting - {a} == s.waiting
            && s'.index.timers == s.index.timers && s'.index.active == s.index.active
  {
    assert a !in s.waiting;
  }

  /** Only creation, cancellation and the end of a dispatch change or delete timers. */
  lemma TimersChangeExactly(s: State, a: Step)
    requires Inv(s) && Enabled(s, a) && Asserted(s, a)
    ensures var s' := Apply(s, a);
            (!a.Create? && !a.Cancel? && !a.Finish? ==> s'.index.heap == s.index.heap && s'.index.freed == s.index.freed)
            && (a.RunNext? || a.Tick? || a.Expire? ==> s'.index == s.index)
            && (!a.Create? && !a.AddInLoop? ==> s'.waiting == s.waiting)
  {
    hide Inv, ResetAll, InsertSorted, Erase, CountDue;
  }

  /** An insertion takes its timer from the waiting ones into both indexes as it is. */
  lemma AddInserts(s: State, at: Addr)
    requires Inv(s) && at in s.waiting && Asserted(s, AddInLoop(at))
    ensures var s' := Apply(s, AddInLoop(at));
            at !in s'.waiting && (forall b :: b != at ==> (b in s'.waiting <==> b in s.waiting))
            && s'.index.active == s.index.active + {Key(at, s.index.heap[at].id)}
            && (forall e :: e in s'.index.timers <==> e in s.index.timers || e == Entry(s.index.heap[at].when, at))
  {
    InsertSortedSpec(s.index.timers, Entry(s.index.heap[at].when, at));
    hide InsertSorted, ResetAll, Erase, CountDue, Alarmed, Owned;
  }

  /** The kernel timer is set by an insertion at the front and by the end of a dispatch that
      leaves a valid first timer: for that timer's time, or 100 microseconds from now.
      Reading it clears it, and nothing else touches it. */
  lemma AlarmExactly(s: State, a: Step)
    requires Inv(s) && Enabled(s, a) && Asserted(s, a)
    ensures var s' := Apply(s, a);
            match a
            case AddInLoop(at) =>
              s'.alarm == if s.index.timers == [] || s.index.heap[at].when < s.index.timers[0].when
                          then Armed(Max(s.index.heap[at].when, s.clock + 100), s.clock) else s.alarm
            case Finish =>
              s'.alarm == if s'.index.timers != [] && s'.index.timers[0].when > 0
                          then Armed(Max(s'.index.timers[0].when, s.clock + 100), s.clock) else s.alarm
            case HandleRead => s'.alarm == if s.alarm == Fired then Disarmed else s.alarm
            case Expire => s'.alarm == Fired
            case _ => s'.alarm == s.alarm
  {
    match a
    case AddInLoop(at) => SetTimeArms(s.index.heap[at].when, s.clock);
    case Finish =>
      var ts := Apply(s, Finish).index.timers;
      if ts != [] { SetTimeArms(ts[0].when, s.clock); }
    case _ =>
  }

  /** A dispatch begins with no cancellation noted and ends with the flag down; in between,
      its timers run one after the other, and a cancellation is noted exactly when its key
      is not active while the flag is up. */
  lemma DispatchExactly(s: State, a: Step)
    requires Inv(s) && Enabled(s, a) && Asserted(s, a)
    ensures var s' := Apply(s, a);
            match a
            case HandleRead =>
              s'.canceled == {} && s'.calling && s'.dispatch.Dispatching?
              && s'.dispatch.now == s.clock && s'.dispatch.next == 0
            case RunNext =>
              s'.dispatch == s.dispatch.(next := s.dispatch.next + 1) && s'.calling == s.calling && s'.canceled == s.canceled
            case Finish => s'.dispatch.NoDispatch? && !s'.calling && s'.canceled == s.canceled
            case Cancel(at, id) =>
              s'.dispatch == s.dispatch && s'.calling == s.calling
              && s'.canceled == s.canceled + if Key(at, id) !in s.index.active && s.calling then {Key(at, id)} else {}
            case _ => s'.dispatch == s.dispatch && s'.calling == s.calling && s'.canceled == s.canceled
    ensures Apply(s, a).clock == s.clock + if a.Tick? then a.d else 0
  {
  }

  /** (a, id) is what addTimer returned for the timer with this id. */
  ghost predicate Genuine(s: State, a: Addr, id: nat) {
    1 <= id <= s.created && forall b :: b in s.index.heap && s.index.heap[b].id == id ==> b == a
  }

  lemma NewIdGenuine(s: State, a: Addr, when: int, interval: real)
    requires Inv(s) && Enabled(s, Create(a, when, interval)) && Asserted(s, Create(a, when, interval))
    ensures var s' := Apply(s, Create(a, when, interval)); Genuine(s', a, s'.created)
  {
  }

  /** Not to be inserted again: not waiting, not active, and if in the batch, canceled or
      not repeating. */
  ghost predicate Doomed(s: State, id: nat) {
    && (forall a :: a in s.waiting && a in s.index.heap ==> s.index.heap[a].id != id)
    && (forall k :: k in s.index.active ==> k.id != id)
    && (s.dispatch.Dispatching? ==>
          forall a :: a in s.dispatch.batch && a in s.index.heap && s.index.heap[a].id == id ==>
            Key(a, id) in s.canceled || !s.index.heap[a].Repeats())
  }

  /** The batch still has a callback of this timer to run. */
  ghost predicate ToRun(s: State, id: nat) {
    s.dispatch.Dispatching? &&
    exists k :: s.dispatch.next <= k < |s.dispatch.batch| && s.dispatch.batch[k] in s.index.heap
                && s.index.heap[s.dispatch.batch[k]].id == id
  }

  ghost predicate Fires(s: State, a: Step, id: nat)
    requires Enabled(s, a) && Asserted(s, a)
  {
    a.RunNext? && s.index.heap[s.dispatch.batch[s.dispatch.next]].id == id
  }

  ghost function FiresIn(s: State, run: seq<Step>, id: nat): nat
    requires CanRun(s, run)
    decreases |run|
  {
    if run == [] then 0
    else (if Fires(s, run[0], id) then 1 else 0) + FiresIn(Apply(s, run[0]), run[1..], id)
  }

  lemma {:induction false} ResetDoomed(
      x: Index, batch: seq<Addr>, canceled: set<Key>, now: int, out: set<Addr>, created: nat, id: nat)
    requires Resettable(x, batch, out, created)
    requires forall k :: k in x.active ==> k.id != id
    requires forall a :: a in batch && x.heap[a].id == id ==> Key(a, id) in canceled || !x.heap[a].Repeats()
    ensures forall k :: k in ResetAll(x, batch, canceled, now).active ==> k.id != id
    decreases |batch|
  {
    if batch != [] {
      ResetTail(x, batch, canceled, now, out, created);
      ResetDoomed(ResetOne(x, batch[0], canceled, now), batch[1..], canceled, now, out - {batch[0]}, created, id);
    }
  }

  lemma FinishDoomed(s: State, id: nat)
    requires Inv(s) && Enabled(s, Finish) && Asserted(s, Finish) && Doomed(s, id)
    ensures DoomedStep(s, Finish, id)
  {
    var s' := Apply(s, Finish);
    ResetDoomed(s.index, s.dispatch.batch, s.canceled, s.dispatch.now, s.waiting + InBatch(s), s.created, id);
    forall a | a in s'.waiting && a in s'.index.heap
      ensures s'.index.heap[a].id != id
    {
      assert a !in InBatch(s);
      ResetSettled(s.index, s.dispatch.batch, s.canceled, s.dispatch.now, s.waiting + InBatch(s), s.created, a, id);
    }
  }

  lemma StepKeepsDoomed(s: State, a: Step, id: nat)
    requires Inv(s) && Enabled(s, a) && Asserted(s, a) && Doomed(s, id) && 1 <= id <= s.created
    ensures DoomedStep(s, a, id)
  {
    hide Doomed, ToRun, DoomedStep, ResetAll, InsertSorted, Erase, Sorted, Alarmed;
    match a
    case HandleRead => HandleReadDoomed(s, id);
    case RunNext => RunNextDoomed(s, id);
    case Finish => FinishDoomed(s, id);
    case Create(at, when, interval) => CreateDoomed(s, at, when, interval, id);
    case AddInLoop(at) => AddDoomed(s, at, id);
    case Cancel(at, i) => CancelDoomed(s, at, i, id);
    case Tick(_) => TimeDoomed(s, a, id);
    case Expire => TimeDoomed(s, a, id);
  }

  /** Once doomed, always doomed; and each firing uses up the one the batch had left. */
  ghost predicate DoomedStep(s: State, a: Step, id: nat)
    requires Enabled(s, a) && Asserted(s, a)
  {
    var s' := Apply(s, a);
    && Doomed(s', id)
    && (ToRun(s', id) ==> ToRun(s, id) && !Fires(s, a, id))
    && (Fires(s, a, id) ==> ToRun(s, id))
  }

  lemma CreateDoomed(s: State, a: Addr, when: int, interval: real, id: nat)
    requires Inv(s) && a !in s.index.heap && Asserted(s, Create(a, when, interval)) && Doomed(s, id) && id <= s.created
    ensures DoomedStep(s, Create(a, when, interval), id)
  {
    assert forall b :: b in s.waiting + InBatch(s) ==> b in s.index.heap && b != a;
  }

  lemma AddDoomed(s: State, a: Addr, id: nat)
    requires Inv(s) && a in s.waiting && Asserted(s, AddInLoop(a)) && Doomed(s, id)
    ensures DoomedStep(s, AddInLoop(a), id)
  {
  }

  lemma CancelDoomed(s: State, a: Addr, i: nat, id: nat)
    requires Inv(s) && Asserted(s, Cancel(a, i)) && Doomed(s, id)
    ensures DoomedStep(s, Cancel(a, i), id)
  {
    CancelReduces(s, a, i);
    hide Doomed, ToRun, Inv, Asserted, Reduced;
    DoomedReduced(s, Apply(s, Cancel(a, i)), id);
  }

  /** Fewer timers and more canceled keys. */
  ghost predicate Reduced(s: State, s': State) {
    && (forall b :: b in s'.index.heap ==> b in s.index.heap && s'.index.heap[b] == s.index.heap[b])
    && (forall k :: k in s'.index.active ==> k in s.index.active)
    && (forall k :: k in s.canceled ==> k in s'.canceled)
    && s'.waiting == s.waiting && s'.dispatch == s.dispatch
  }

  lemma DoomedReduced(s: State, s': State, id: nat)
    requires Reduced(s, s') && Doomed(s, id)
    ensures Doomed(s', id) && (ToRun(s', id) ==> ToRun(s, id))
  {
    if ToRun(s', id) {
      var k :| s'.dispatch.next <= k < |s'.dispatch.batch| && s'.dispatch.batch[k] in s'.index.heap
               && s'.index.heap[s'.dispatch.batch[k]].id == id;
      assert s.dispatch.batch[k] in s.index.heap;
    }
  }

  lemma CancelReduces(s: State, a: Addr, i: nat)
    requires Asserted(s, Cancel(a, i))
    ensures Reduced(s, Apply(s, Cancel(a, i)))
  {
  }

  lemma TimeDoomed(s: State, a: Step, id: nat)
    requires Enabled(s, a) && Asserted(s, a) && Doomed(s, id) && (a.Tick? || a.Expire?)
    ensures DoomedStep(s, a, id)
  {
  }

  lemma HandleReadDoomed(s: State, id: nat)
    requires Inv(s) && Enabled(s, HandleRead) && Asserted(s, HandleRead) && Doomed(s, id)
    ensures DoomedStep(s, HandleRead, id)
  {
    forall b | b in Due(s.index, s.clock)
      ensures s.index.heap[b].id != id
    {
      DueIsActive(s.index, s.waiting + InBatch(s), s.clock, b);
    }
  }

  lemma RunNextDoomed(s: State, id: nat)
    requires Inv(s) && Enabled(s, RunNext) && Asserted(s, RunNext) && Doomed(s, id)
    ensures DoomedStep(s, RunNext, id)
  {
    var k := s.dispatch.next;
    assert forall j :: k < j < |s.dispatch.batch| ==> s.dispatch.batch[j] != s.dispatch.batch[k];
  }

  lemma {:induction false} DoomedRun(s: State, run: seq<Step>, id: nat)
    requires Inv(s) && CanRun(s, run) && Doomed(s, id) && 1 <= id <= s.created
    ensures FiresIn(s, run, id) <= if ToRun(s, id) then 1 else 0
    decreases |run|
  {
    if run != [] {
      StepKeepsInv(s, run[0]);
      StepKeepsDoomed(s, run[0], id);
      DoomedRun(Apply(s, run[0]), run[1..], id);
    }
  }

  // ---------------------------------------------------------------- when and how often timers fire

  /** The batch being dispatched is due: the dispatch began by now, its timers expired by then. */
  ghost predicate Timely(s: State) {
    s.dispatch.Dispatching? ==>
      s.dispatch.now <= s.clock
      && forall b :: b in s.dispatch.batch && b in s.index.heap ==> s.index.heap[b].when <= s.dispatch.now
  }

  lemma StepKeepsTimely(s: State, a: Step)
    requires Inv(s) && Timely(s) && Enabled(s, a) && Asserted(s, a)
    ensures Timely(Apply(s, a))
  {
    hide ResetAll, InsertSorted, Erase, Sorted, Alarmed;
    match a
    case HandleRead =>
      forall b | b in Due(s.index, s.clock)
        ensures s.index.heap[b].when <= s.clock
      {
        DueIsActive(s.index, s.waiting + InBatch(s), s.clock, b);
      }
    case Create(at, _, _) =>
      if s.dispatch.Dispatching? { assert forall b :: b in s.dispatch.batch ==> b in InBatch(s) && b != at; }
    case _ =>
  }

  lemma {:induction false} RunKeepsTimely(s: State, run: seq<Step>)
    requires Inv(s) && Timely(s) && CanRun(s, run)
    ensures Inv(Exec(s, run)) && Timely(Exec(s, run))
    decreases |run|
  {
    if run != [] {
      StepKeepsTimely(s, run[0]);
      StepKeepsInv(s, run[0]);
      RunKeepsTimely(Apply(s, run[0]), run[1..]);
    }
  }

  /** No timer fires early: in every run, a timer whose callback comes next expired by the
      time the dispatch began, and so by now. */
  lemma NeverEarly(calling: bool, clock: int, run: seq<Step>)
    requires ValidTime(clock) && CanRun(Initial(calling, clock), run)
    requires Enabled(Exec(Initial(calling, clock), run), RunNext)
    ensures var s := Exec(Initial(calling, clock), run);
            var b := s.dispatch.batch[s.dispatch.next];
            b in s.index.heap && s.index.heap[b].when <= s.dispatch.now <= s.clock
  {
    RunKeepsTimely(Initial(calling, clock), run);
    StepAsserted(Exec(Initial(calling, clock), run), RunNext);
  }

  /** The timer with this id, while there is one, does not repeat. */
  ghost predicate NoRepeat(heap: map<Addr, Timer>, id: nat) {
    forall a :: a in heap && heap[a].id == id ==> !heap[a].Repeats()
  }

  ghost predicate OneShot(s: State, id: nat) { 1 <= id <= s.created && NoRepeat(s.index.heap, id) }

  lemma ResetOneNoRepeat(x: Index, a: Addr, canceled: set<Key>, now: int, id: nat)
    requires a in x.heap && NoRepeat(x.heap, id)
    ensures NoRepeat(ResetOne(x, a, canceled, now).heap, id)
  {
    var h := ResetOne(x, a, canceled, now).heap;
    forall b | b in h && h[b].id == id ensures !h[b].Repeats() {
      if b != a { ResetOneFrame(x, a, canceled, now, b); }
    }
  }

  lemma {:induction false} ResetNoRepeat(
      x: Index, batch: seq<Addr>, canceled: set<Key>, now: int, out: set<Addr>, created: nat, id: nat)
    requires Resettable(x, batch, out, created) && NoRepeat(x.heap, id)
    ensures NoRepeat(ResetAll(x, batch, canceled, now).heap, id)
    decreases |batch|
  {
    if batch != [] {
      ResetTail(x, batch, canceled, now, out, created);
      ResetOneNoRepeat(x, batch[0], canceled, now, id);
      hide NoRepeat;
      ResetNoRepeat(ResetOne(x, batch[0], canceled, now), batch[1..], canceled, now, out - {batch[0]}, created, id);
    }
  }

  lemma StepKeepsOneShot(s: State, a: Step, id: nat)
    requires Inv(s) && OneShot(s, id) && Enabled(s, a) && Asserted(s, a)
    ensures OneShot(Apply(s, a), id)
  {
    if a.Finish? {
      hide NoRepeat;
      assert forall b :: b in s.dispatch.batch ==> b in InBatch(s);
      ResetNoRepeat(s.index, s.dispatch.batch, s.canceled, s.dispatch.now, s.waiting + InBatch(s), s.created, id);
    } else {
      OtherKeepsOneShot(s, a, id);
    }
  }

  lemma OtherKeepsOneShot(s: State, a: Step, id: nat)
    requires Inv(s) && OneShot(s, id) && Enabled(s, a) && Asserted(s, a) && !a.Finish?
    ensures OneShot(Apply(s, a), id)
  {
    hide ResetAll, InsertSorted, Erase, Sorted, Alarmed;
    match a
    case _ =>
  }

  /** A one-shot timer that fires will not be inserted again. */
  lemma FiringIsLast(s: State, a: Step, id: nat)
    requires Inv(s) && OneShot(s, id) && Enabled(s, a) && Asserted(s, a) && Fires(s, a, id)
    ensures Doomed(s, id)
  {
    hide ResetAll, InsertSorted, Erase, Sorted, Alarmed;
    var b := s.dispatch.batch[s.dispatch.next];
    assert b in InBatch(s);
    assert forall c :: c in s.index.heap && s.index.heap[c].id == id ==> c == b;
  }

  /** A one-shot timer fires at most once, whatever run follows. */
  lemma {:induction false} OneShotFiresOnce(s: State, run: seq<Step>, id: nat)
    requires Inv(s) && OneShot(s, id) && CanRun(s, run)
    ensures FiresIn(s, run, id) <= 1
    decreases |run|
  {
    if Doomed(s, id) {
      DoomedRun(s, run, id);
    } else if run != [] {
      if Fires(s, run[0], id) { FiringIsLast(s, run[0], id); }
      StepKeepsInv(s, run[0]);
      StepKeepsOneShot(s, run[0], id);
      OneShotFiresOnce(Apply(s, run[0]), run[1..], id);
    }
  }

  lemma CreatedIsOneShot(s: State, a: Addr, when: int, interval: real)
    requires Inv(s) && a !in s.index.heap && interval <= 0.0 && Asserted(s, Create(a, when, interval))
    ensures OneShot(Apply(s, Create(a, when, interval)), s.created + 1)
  {
  }

  /** In particular from its creation on. */
  lemma CreatedOneShot(s: State, a: Addr, when: int, interval: real, run: seq<Step>)
    requires Inv(s) && a !in s.index.heap && interval <= 0.0
    requires Asserted(s, Create(a, when, interval)) && CanRun(Apply(s, Create(a, when, interval)), run)
    ensures FiresIn(Apply(s, Create(a, when, interval)), run, s.created + 1) <= 1
  {
    hide Inv, OneShot, CanRun, FiresIn, Asserted;
    StepKeepsInv(s, Create(a, when, interval));
    CreatedIsOneShot(s, a, when, interval);
    OneShotFiresOnce(Apply(s, Create(a, when, interval)), run, s.created + 1);
  }

  // ---------------------------------------------------------------- canceling

  /** When a cancellation takes effect: exactly when the timer has been inserted.  Canceling
      one that still waits to be inserted is lost. */
  lemma CancelTakesEffect(s: State, a: Addr, id: nat)
    requires Inv(s) && Genuine(s, a, id)
    ensures Asserted(s, Cancel(a, id))
    ensures Doomed(Apply(s, Cancel(a, id)), id) <==> !(a in s.waiting && s.index.heap[a].id == id)
  {
    StepAsserted(s, Cancel(a, id));
  }

  /** A canceled timer that had been inserted runs at most once more, whatever follows, and
      only if it was in the batch being dispatched. */
  lemma CanceledRunsAtMostOnce(s: State, a: Addr, id: nat, run: seq<Step>)
    requires Inv(s) && Genuine(s, a, id)
    requires !(a in s.waiting && s.index.heap[a].id == id)
    requires Asserted(s, Cancel(a, id)) && CanRun(Apply(s, Cancel(a, id)), run)
    ensures FiresIn(Apply(s, Cancel(a, id)), run, id) <= 1
    ensures a !in InBatch(s) ==> FiresIn(Apply(s, Cancel(a, id)), run, id) == 0
  {
    CancelTakesEffect(s, a, id);
    StepKeepsInv(s, Cancel(a, id));
    DoomedRun(Apply(s, Cancel(a, id)), run, id);
  }

  /** The lost cancellation: while a timer waits to be inserted, canceling it leaves both
      indexes as they are, and its insertion goes ahead afterwards. */
  lemma CancelBeforeInsertIsLost(s: State, a: Addr, id: nat)
    requires Inv(s) && a in s.waiting && a in s.index.heap && s.index.heap[a].id == id
    ensures Asserted(s, Cancel(a, id))
    ensures var s1 := Apply(s, Cancel(a, id));
            s1.index == s.index && s1.waiting == s.waiting && Asserted(s1, AddInLoop(a))
            && Inv(Apply(s1, AddInLoop(a))) && Key(a, id) in Apply(s1, AddInLoop(a)).index.active
  {
    hide ResetAll, InsertSorted, Erase, Sorted, Alarmed;
    StepKeepsInv(s, Cancel(a, id));
    StepKeepsInv(Apply(s, Cancel(a, id)), AddInLoop(a));
  }

  /** How far an active timer is from firing. */
  ghost function Distance(s: State, a: Addr): nat
    requires a in s.index.heap && (s.dispatch.Dispatching? ==> s.dispatch.next <= |s.dispatch.batch|)
  {
    if s.dispatch.Dispatching? then 2 + |s.dispatch.batch| - s.dispatch.next
    else if s.clock < s.index.heap[a].when then 1 else 0
  }

  /** Every active timer can still fire: finish the dispatch under way, let the time come,
      and run the batch up to it. */
  lemma {:induction false} ActiveCanFire(s: State, a: Addr, id: nat) returns (run: seq<Step>)
    requires Inv(s) && Key(a, id) in s.index.active
    ensures CanRun(s, run) && FiresIn(s, run, id) >= 1
    decreases Distance(s, a)
  {
    if s.dispatch.NoDispatch? && s.index.heap[a].when <= s.clock {
      run := DueCanFire(s, a, id);
    } else {
      var step := Onward(s, a);
      StepKeepsInv(s, step);
      OnwardKeeps(s, a, id);
      var rest := ActiveCanFire(Apply(s, step), a, id);
      run := [step] + rest;
      assert run[1..] == rest;
    }
  }

  ghost function Onward(s: State, a: Addr): Step
    requires a in s.index.heap
    requires s.dispatch.NoDispatch? ==> s.index.heap[a].when > s.clock
  {
    if s.dispatch.NoDispatch? then Tick(s.index.heap[a].when - s.clock)
    else if s.dispatch.next < |s.dispatch.batch| then RunNext
    else Finish
  }

  lemma OnwardKeeps(s: State, a: Addr, id: nat)
    requires Inv(s) && Key(a, id) in s.index.active
    requires s.dispatch.NoDispatch? ==> s.index.heap[a].when > s.clock
    requires Asserted(s, Onward(s, a)) && Inv(Apply(s, Onward(s, a)))
    ensures Enabled(s, Onward(s, a))
    ensures var s' := Apply(s, Onward(s, a));
            Key(a, id) in s'.index.active && Distance(s', a) < Distance(s, a)
  {
    hide ResetAll, InsertSorted, Erase;
    if Onward(s, a).Finish? { FinishKeepsActive(s, a, id); } else { OnwardNears(s, a); }
  }

  /** A callback or a tick leaves the timers alone and brings the time of `a` nearer. */
  lemma OnwardNears(s: State, a: Addr)
    requires a in s.index.heap
    requires s.dispatch.NoDispatch? ==> s.index.heap[a].when > s.clock
    requires !Onward(s, a).Finish? && Enabled(s, Onward(s, a)) && Asserted(s, Onward(s, a))
    ensures var s' := Apply(s, Onward(s, a));
            s'.index == s.index && Distance(s', a) < Distance(s, a)
  {
    hide ResetAll, InsertSorted, Erase, Insert, Due, Earliest;
  }

  lemma FinishKeepsActive(s: State, a: Addr, id: nat)
    requires Inv(s) && Key(a, id) in s.index.active && Enabled(s, Finish) && Asserted(s, Finish)
    ensures var s' := Apply(s, Finish);
            Key(a, id) in s'.index.active && a in s'.index.heap && s'.index.heap[a] == s.index.heap[a]
  {
    assert a !in InBatch(s);
    ResetSettled(s.index, s.dispatch.batch, s.canceled, s.dispatch.now, s.waiting + InBatch(s), s.created, a, id);
  }

  lemma DueCanFire(s: State, a: Addr, id: nat) returns (run: seq<Step>)
    requires Inv(s) && Key(a, id) in s.index.active
    requires s.dispatch.NoDispatch? && s.index.heap[a].when <= s.clock
    ensures CanRun(s, run) && FiresIn(s, run, id) >= 1
  {
    StepKeepsInv(s, HandleRead);
    var s1 := Apply(s, HandleRead);
    DueSplit(s.index.timers, s.clock);
    var due := s.index.timers[..CountDue(s.index.timers, s.clock)];
    assert Entry(s.index.heap[a].when, a) in due;
    var k :| 0 <= k < |due| && due[k] == Entry(s.index.heap[a].when, a);
    assert s1.dispatch.batch[k] == a;
    var rest := BatchCanFire(s1, k, id);
    run := [HandleRead] + rest;
    assert run[1..] == rest;
  }

  lemma {:induction false} BatchCanFire(s: State, k: nat, id: nat) returns (run: seq<Step>)
    requires Inv(s) && s.dispatch.Dispatching? && s.dispatch.next <= k < |s.dispatch.batch|
    requires s.dispatch.batch[k] in s.index.heap && s.index.heap[s.dispatch.batch[k]].id == id
    ensures CanRun(s, run) && FiresIn(s, run, id) >= 1
    decreases k - s.dispatch.next
  {
    StepKeepsInv(s, RunNext);
    var s1 := Apply(s, RunNext);
    if s.dispatch.next == k {
      run := [RunNext];
      assert run[1..] == [] && CanRun(s1, []);
    } else {
      var rest := BatchCanFire(s1, k, id);
      run := [RunNext] + rest;
      assert run[1..] == rest;
    }
  }

  /** So the canceled timer still fires in some continuation. */
  lemma CanceledTooEarlyCanFire(s: State, a: Addr, id: nat) returns (run: seq<Step>)
    requires Inv(s) && a in s.waiting && a in s.index.heap && s.index.heap[a].id == id
    ensures Asserted(s, Cancel(a, id)) && CanRun(Apply(s, Cancel(a, id)), run)
    ensures FiresIn(Apply(s, Cancel(a, id)), run, id) >= 1
  {
    CancelBeforeInsertIsLost(s, a, id);
    var s1 := Apply(s, Cancel(a, id));
    var rest := ActiveCanFire(Apply(s1, AddInLoop(a)), a, id);
    run := [AddInLoop(a)] + rest;
    assert run[1..] == rest;
  }

  /** A cancellation touches no timer with another id, even one that now has the address
      the id once had; and a stale id leaves both indexes alone. */
  lemma CancelTouchesOnlyItsTimer(s: State, a: Addr, id: nat)
    requires Inv(s)
    ensures Asserted(s, Cancel(a, id))
    ensures var s' := Apply(s, Cancel(a, id));
            (forall b :: b in s.index.heap && s.index.heap[b].id != id ==> SameTimer(s, s', b))
            && (forall k: Key :: k.id != id ==>
                  (k in s'.index.active <==> k in s.index.active) && (k in s'.canceled <==> k in s.canceled))
            && s'.waiting == s.waiting && s'.dispatch == s.dispatch && s'.alarm == s.alarm
            && (!Live(s.index.heap, id) ==> s'.index == s.index)
  {
    hide ResetAll, InsertSorted, Erase, Sorted, Alarmed, SameTimer;
    StepAsserted(s, Cancel(a, id));
    forall b | b in s.index.heap && s.index.heap[b].id != id
      ensures SameTimer(s, Apply(s, Cancel(a, id)), b)
    {
      CancelKeepsOther(s, a, id, b);
    }
  }

  /** The timer at this address is as it was, its entry in timers_ included. */
  ghost predicate SameTimer(s: State, s': State, b: Addr)
    requires b in s.index.heap
  {
    && b in s'.index.heap && s'.index.heap[b] == s.index.heap[b]
    && (Entry(s.index.heap[b].when, b) in s'.index.timers <==> Entry(s.index.heap[b].when, b) in s.index.timers)
  }

  lemma CancelKeepsOther(s: State, a: Addr, id: nat, b: Addr)
    requires Inv(s) && Asserted(s, Cancel(a, id)) && b in s.index.heap && s.index.heap[b].id != id
    ensures SameTimer(s, Apply(s, Cancel(a, id)), b)
  {
    hide ResetAll, InsertSorted, Erase, Sorted, Alarmed;
    if Key(a, id) in s.index.active { EraseSpec(s.index.timers, Entry(s.index.heap[a].when, a)); }
  }

  /** A timer that is due and whose alarm has fired is dispatched by the next handleRead. */
  lemma FiredIsDispatched(s: State)
    requires Inv(s) && s.dispatch.NoDispatch? && s.index.timers != []
    requires s.alarm.Armed? ==> s.clock >= s.alarm.due
    requires s.clock >= s.index.timers[0].when
    ensures var s1 := if s.alarm.Armed? then Apply(s, Expire) else s;
            s1.alarm.Fired? && Asserted(s1, HandleRead)
            && s.index.timers[0].addr in Apply(s1, HandleRead).dispatch.batch
  {
    var s1 := if s.alarm.Armed? then Apply(s, Expire) else s;
    StepAsserted(s1, HandleRead);
    var n := CountDue(s.index.timers, s.clock);
    assert Due(s1.index, s1.clock)[0] == s.index.timers[0].addr;
  }

  // ---------------------------------------------------------------- the class

  class TimerQueue {
    var heap: map<Addr, Timer>
    var numCreated: nat
    var timers: seq<Entry>
    var activeTimers: set<Key>
    var cancelTimers: set<Key>
    var callingExpired: bool
    var dispatch: Dispatch
    var clock: int
    var timerfd: Alarm
    ghost var waiting: set<Addr>
    ghost var freed: set<nat>

    ghost function Idx(): Index
      reads this
    {
      Index(heap, timers, activeTimers, freed)
    }

    ghost function View(): State
      reads this
    {
      State(Idx(), numCreated, waiting, cancelTimers, callingExpired, dispatch, clock, timerfd)
    }

    ghost predicate Valid()
      reads this
    {
      Inv(View())
    }

    constructor (calling: bool, now: int)
      requires ValidTime(now)
      ensures Valid() && View() == Initial(calling, now)
    {
      heap, numCreated, timers, activeTimers, cancelTimers := map[], 0, [], {}, {};
      callingExpired, dispatch, clock, timerfd := calling, NoDispatch, now, Disarmed;
      waiting, freed := {}, {};
    }

    /** `new Timer` at a free address, by any thread; the result is its TimerID. */
    method NewTimer(a: Addr, when: int, interval: real) returns (id: nat)
      requires Valid() && a !in heap
      modifies this
      ensures Valid() && View() == Apply(old(View()), Create(a, when, interval))
      ensures Genuine(View(), a, id)
    {
      StepKeepsInv(View(), Create(a, when, interval));
      assert Inv(Apply(View(), Create(a, when, interval)));
      NewIdGenuine(View(), a, when, interval);
      id := Allocate(a, when, interval);
    }

    /** The constructor of Timer: the next sequence number. */
    method Allocate(a: Addr, when: int, interval: real) returns (id: nat)
      requires a !in heap
      modifies `numCreated, `heap, `waiting
      ensures View() == Apply(old(View()), Create(a, when, interval)) && id == numCreated
    {
      numCreated := numCreated + 1;
      id := numCreated;
      heap := heap[a := Timer(when, interval, id)];
      waiting := waiting + {a};
    }

    /** `insert`. */
    method InsertTimer(a: Addr) returns (earliest: bool)
      requires a in heap
      modifies `timers, `activeTimers
      ensures Idx() == Insert(old(Idx()), a)
      ensures earliest <==> Earliest(old(Idx()), heap[a].when)
    {
      var when := heap[a].when;
      earliest := timers == [] || when < timers[0].when;
      timers := InsertSorted(timers, Entry(when, a));
      activeTimers := activeTimers + {Key(a, heap[a].id)};
    }

    method AddTimerInLoop(a: Addr)
      requires Valid() && a in waiting
      modifies this
      ensures a in old(heap)
      ensures Valid() && View() == Apply(old(View()), AddInLoop(a))
    {
      StepKeepsInv(View(), AddInLoop(a));
      assert Inv(Apply(View(), AddInLoop(a)));
      InsertAndArm(a);
    }

    method InsertAndArm(a: Addr)
      requires Enabled(View(), AddInLoop(a)) && Asserted(View(), AddInLoop(a))
      modifies `timers, `activeTimers, `timerfd, `waiting
      ensures View() == Apply(old(View()), AddInLoop(a))
    {
      var earliest := InsertTimer(a);
      if earliest { timerfd := SetTime(Difference(heap[a].when, clock), clock); }
      waiting := waiting - {a};
    }

    /** The branches of `rmTimerInLoop`. */
    method Remove(a: Addr, id: nat)
      requires Asserted(View(), Cancel(a, id))
      modifies `heap, `timers, `activeTimers, `freed, `cancelTimers
      ensures View() == Apply(old(View()), Cancel(a, id))
    {
      assert |timers| == |activeTimers|;
      if Key(a, id) in activeTimers {
        freed := freed + {heap[a].id};
        timers := Erase(timers, Entry(heap[a].when, a));
        heap := heap - {a};
        activeTimers := activeTimers - {Key(a, id)};
      } else if callingExpired {
        cancelTimers := cancelTimers + {Key(a, id)};
      }
    }

    method RmTimerInLoop(a: Addr, id: nat)
      requires Valid()
      modifies this
      ensures old(Asserted(View(), Cancel(a, id)))
      ensures Valid() && View() == Apply(old(View()), Cancel(a, id))
    {
      StepKeepsInv(View(), Cancel(a, id));
      Remove(a, id);
    }

    /** `getExpired`: the entries due leave both indexes. */
    method GetExpired(now: int) returns (expired: seq<Addr>)
      requires forall b :: b in Due(Idx(), now) ==> b in heap && Key(b, heap[b].id) in activeTimers
      modifies `timers, `activeTimers
      ensures expired == Due(old(Idx()), now)
      ensures timers == old(timers)[CountDue(old(timers), now)..]
      ensures activeTimers == old(activeTimers) - Keys(heap, expired)
    {
      var n := CountDue(timers, now);
      expired := Addrs(timers[..n]);
      timers := timers[n..];
      for k := 0 to |expired|
        modifies `activeTimers
        invariant activeTimers == old(activeTimers) - Keys(heap, expired[..k])
      {
        activeTimers := activeTimers - {Key(expired[k], heap[expired[k]].id)};
        assert forall b :: b in expired[..k + 1] <==> b in expired[..k] || b == expired[k];
      }
      assert expired[..|expired|] == expired;
    }

    /** Reads the kernel timer and takes the batch. */
    method TakeBatch()
      requires Enabled(View(), HandleRead) && Asserted(View(), HandleRead)
      modifies `timers, `activeTimers, `callingExpired, `cancelTimers, `dispatch, `timerfd
      ensures View() == Apply(old(View()), HandleRead)
    {
      var now := clock;
      if timerfd.Fired? { timerfd := Disarmed; }
      var expired := GetExpired(now);
      callingExpired, cancelTimers := true, {};
      dispatch := Dispatching(now, expired, 0);
    }

    /** `handleRead` up to its first callback. */
    method BeginDispatch()
      requires Valid() && dispatch.NoDispatch?
      modifies this
      ensures old(Asserted(View(), HandleRead))
      ensures Valid() && View() == Apply(old(View()), HandleRead)
    {
      StepKeepsInv(View(), HandleRead);
      TakeBatch();
    }

    /** The next callback of the batch; it may add and cancel timers before the one after. */
    method RunNextTimer() returns (id: nat)
      requires Valid() && Enabled(View(), RunNext)
      modifies this
      ensures old(Asserted(View(), RunNext)) && (Fires(old(View()), RunNext, id))
      ensures Valid() && View() == Apply(old(View()), RunNext)
    {
      StepKeepsInv(View(), RunNext);
      id := heap[dispatch.batch[dispatch.next]].id;
      dispatch := dispatch.(next := dispatch.next + 1);
    }

    /** The loop of `reset`. */
    method ResetExpired(batch: seq<Addr>, now: int)
      requires Distinct(batch) && forall b :: b in batch ==> b in heap
      modifies `heap, `timers, `activeTimers, `freed
      ensures Idx() == ResetAll(old(Idx()), batch, cancelTimers, now)
    {
      for k := 0 to |batch|
        invariant forall b :: b in batch[k..] ==> b in heap
        invariant ResetAll(Idx(), batch[k..], cancelTimers, now) == ResetAll(old(Idx()), batch, cancelTimers, now)
      {
        var a, rest := batch[k], batch[k..];
        assert a in rest && rest[1..] == batch[k + 1..];
        assert forall b :: b in rest[1..] ==> b in rest && b != a;
        ghost var one := ResetOne(Idx(), a, cancelTimers, now);
        if heap[a].Repeats() && Key(a, heap[a].id) !in cancelTimers {
          heap := heap[a := heap[a].Restarted(now)];
          var earliest := InsertTimer(a);
        } else {
          freed := freed + {heap[a].id};
          heap := heap - {a};
        }
        assert Idx() == one;
      }
    }

    /** The end of `handleRead`. */
    method EndDispatch()
      requires Valid() && Enabled(View(), Finish)
      modifies this
      ensures old(Asserted(View(), Finish))
      ensures Valid() && View() == Apply(old(View()), Finish)
    {
      StepKeepsInv(View(), Finish);
      assert Inv(Apply(View(), Finish));
      FinishDispatch();
    }

    /** `callingExpiredTimers_` cleared, then `reset` and the arming at its end. */
    method FinishDispatch()
      requires Enabled(View(), Finish) && Asserted(View(), Finish)
      modifies this
      ensures View() == Apply(old(View()), Finish)
    {
      ghost var next := Apply(View(), Finish);
      callingExpired := false;
      ResetExpired(dispatch.batch, dispatch.now);
      var nxt := 0;
      if timers != [] { nxt := heap[timers[0].addr].when; }
      if ValidTime(nxt) { timerfd := SetTime(Difference(nxt, clock), clock); }
      dispatch := NoDispatch;
      assert View() == next;
    }
  }
}
