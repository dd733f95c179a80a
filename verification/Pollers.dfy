/** The two pollers (chtho/net/poller/Poll.cpp, chtho/net/poller/EPoll.cpp) as two
    implementations of one registry of channels and the events they ask for. */
module Pollers {

  /** A channel object; its descriptor never changes. */
  datatype Channel = Channel(id: nat, fd: nat)

  const NONE: int := 0

  datatype Op = Update(ch: Channel, events: int) | Remove(ch: Channel)

  // ---------------------------------------------------------------- the registry

  /** `untouched`: not updated since it was registered. */
  datatype Slot = Slot(ch: Channel, events: int, untouched: bool)

  /** Registered channels by descriptor, and the channels that were removed. */
  datatype Registry = Registry(slots: map<nat, Slot>, removed: set<Channel>)

  predicate Registered(r: Registry, ch: Channel) { ch.fd in r.slots && r.slots[ch.fd].ch == ch }

  /** What Poll takes: a channel is registered on a free descriptor and only once, and is
      removed after an update to no events. */
  predicate PollAllowed(r: Registry, op: Op) {
    match op
    case Update(ch, _) => Registered(r, ch) || (ch.fd !in r.slots && ch !in r.removed)
    case Remove(ch) => Registered(r, ch) && r.slots[ch.fd].events == NONE && !r.slots[ch.fd].untouched
  }

  /** What EPoll takes: removed channels again, and removal at any time. */
  predicate EpollAllowed(r: Registry, op: Op) {
    match op
    case Update(ch, _) => Registered(r, ch) || ch.fd !in r.slots
    case Remove(ch) => Registered(r, ch)
  }

  function Register(r: Registry, op: Op): Registry {
    match op
    case Update(ch, events) =>
      Registry(r.slots[ch.fd := Slot(ch, events, ch.fd !in r.slots)], r.removed - {ch})
    case Remove(ch) => Registry(r.slots - {ch.fd}, r.removed + {ch})
  }

  /** The abstract interest map: the descriptor is watched for these events. */
  predicate Watched(r: Registry, fd: nat, events: int) {
    events != NONE && fd in r.slots && r.slots[fd].events == events
  }

  function IdxOf(idx: map<Channel, int>, ch: Channel): int { if ch in idx then idx[ch] else -1 }

  // ---------------------------------------------------------------- poll

  datatype PollFd = PollFd(fd: int, events: int)

  datatype PollState = PollState(pollfds: seq<PollFd>, channels: map<nat, Channel>, idx: map<Channel, int>)

  const PollInitial := PollState([], map[], map[])

  /** An ignored descriptor is stored as -fd - 1; doing that twice gives it back. */
  function Flip(fd: int): int { -fd - 1 }

  function Encoded(fd: nat, events: int): PollFd {
    PollFd(if events == NONE then Flip(fd) else fd, events)
  }

  /** A new entry is stored plainly even when it asks for no events. */
  function EntryOf(slot: Slot): PollFd {
    if slot.untouched then PollFd(slot.ch.fd, slot.events) else Encoded(slot.ch.fd, slot.events)
  }

  function DecodedFd(fd: int): nat { if fd < 0 then Flip(fd) else fd }

  /** The assertions of `updateChannel` and `removeChannel`. */
  predicate PollAsserted(p: PollState, op: Op, events: int) {
    var i := IdxOf(p.idx, op.ch);
    match op
    case Update(ch, _) =>
      if i < 0 then ch.fd !in p.channels
      else ch.fd in p.channels && p.channels[ch.fd] == ch && i < |p.pollfds|
    case Remove(ch) =>
      && ch.fd in p.channels && p.channels[ch.fd] == ch && events == NONE
      && 0 <= i < |p.pollfds| && p.pollfds[i] == PollFd(Flip(ch.fd), events)
      && DecodedFd(p.pollfds[|p.pollfds| - 1].fd) in p.channels
  }

  function PollUpdate(p: PollState, ch: Channel, events: int): PollState
    requires PollAsserted(p, Update(ch, events), events)
  {
    var i := IdxOf(p.idx, ch);
    if i < 0 then
      PollState(p.pollfds + [PollFd(ch.fd, events)], p.channels[ch.fd := ch], p.idx[ch := |p.pollfds|])
    else p.(pollfds := p.pollfds[i := Encoded(ch.fd, events)])
  }

  /** The entry to remove trades places with the last one, whose channel learns its new place. */
  function PollRemove(p: PollState, ch: Channel): PollState
    requires PollAsserted(p, Remove(ch), NONE)
  {
    var i, last := IdxOf(p.idx, ch), |p.pollfds| - 1;
    var channels := p.channels - {ch.fd};
    if i == last then PollState(p.pollfds[..last], channels, p.idx)
    else
      var moved := p.channels[DecodedFd(p.pollfds[last].fd)];
      PollState(p.pollfds[i := p.pollfds[last]][..last], channels, p.idx[moved := i])
  }

  /** The entry poll is given for this descriptor asks for these events. */
  predicate PollWatches(p: PollState, fd: nat, events: int) {
    events != NONE && PollFd(fd, events) in p.pollfds
  }

  /** idx maps the registered channels one to one onto the entries of pollfds_, and each
      entry is its channel's, encoded. */
  ghost predicate PollRep(p: PollState, r: Registry) {
    && p.channels.Keys == r.slots.Keys
    && (forall fd :: fd in r.slots ==> PollSlot(p, r, fd))
    && (forall k :: 0 <= k < |p.pollfds| ==> PollPlace(p, r, k))
    && (forall ch :: ch in p.idx ==> Registered(r, ch) || ch in r.removed)
    && (forall ch :: ch in r.removed ==> IdxOf(p.idx, ch) >= 0)
  }

  ghost predicate PollSlot(p: PollState, r: Registry, fd: nat)
    requires fd in r.slots
  {
    var ch := r.slots[fd].ch;
    && ch.fd == fd && fd in p.channels && p.channels[fd] == ch && ch !in r.removed
    && ch in p.idx && 0 <= p.idx[ch] < |p.pollfds|
    && p.pollfds[p.idx[ch]] == EntryOf(r.slots[fd])
  }

  ghost predicate PollPlace(p: PollState, r: Registry, k: nat)
    requires k < |p.pollfds|
  {
    var fd := DecodedFd(p.pollfds[k].fd);
    fd in r.slots && IdxOf(p.idx, r.slots[fd].ch) == k
  }

  // ---------------------------------------------------------------- epoll

  const NEW: int := -1
  const ADDED: int := 1
  const DELETED: int := 2

  /** `kernel` is the epoll set: descriptor to events. */
  datatype EpollState = EpollState(kernel: map<nat, int>, channels: map<nat, Channel>, idx: map<Channel, int>)

  const EpollInitial := EpollState(map[], map[], map[])

  datatype Ctl = Add | Mod | Del

  /** `epoll_ctl` refuses to add what is there, and to change or delete what is not. */
  predicate CtlSucceeds(kernel: map<nat, int>, op: Ctl, fd: nat) {
    match op
    case Add => fd !in kernel
    case _ => fd in kernel
  }

  function EpollCtl(kernel: map<nat, int>, op: Ctl, fd: nat, events: int): map<nat, int> {
    if !CtlSucceeds(kernel, op, fd) then kernel
    else if op.Del? then kernel - {fd} else kernel[fd := events]
  }

  /** Which call `updateChannel` or `removeChannel` makes, if any. */
  function CtlOf(e: EpollState, op: Op): seq<Ctl> {
    var i := IdxOf(e.idx, op.ch);
    match op
    case Update(ch, events) => if i == NEW || i == DELETED then [Add] else if events == NONE then [Del] else [Mod]
    case Remove(ch) => if i == ADDED then [Del] else []
  }

  /** The assertions of the source, and that every kernel call succeeds. */
  predicate EpollAsserted(e: EpollState, op: Op) {
    var i := IdxOf(e.idx, op.ch);
    && (match op
        case Update(ch, _) =>
          (i == NEW || i == DELETED) || (ch.fd in e.channels && e.channels[ch.fd] == ch && i == ADDED)
        case Remove(ch) => ch.fd in e.channels)
    && (forall c :: c in CtlOf(e, op) ==> CtlSucceeds(e.kernel, c, op.ch.fd))
  }

  function EpollUpdate(e: EpollState, ch: Channel, events: int): EpollState {
    var i := IdxOf(e.idx, ch);
    if i == NEW || i == DELETED then
      EpollState(EpollCtl(e.kernel, Add, ch.fd, events),
                 if i == NEW then e.channels[ch.fd := ch] else e.channels,
                 e.idx[ch := ADDED])
    else if events == NONE then
      e.(kernel := EpollCtl(e.kernel, Del, ch.fd, events), idx := e.idx[ch := DELETED])
    else e.(kernel := EpollCtl(e.kernel, Mod, ch.fd, events))
  }

  function EpollRemove(e: EpollState, ch: Channel): EpollState {
    EpollState(if IdxOf(e.idx, ch) == ADDED then EpollCtl(e.kernel, Del, ch.fd, NONE) else e.kernel,
               e.channels - {ch.fd}, e.idx[ch := NEW])
  }

  predicate EpollWatches(e: EpollState, fd: nat, events: int) {
    events != NONE && fd in e.kernel && e.kernel[fd] == events
  }

  ghost predicate EpollRep(e: EpollState, r: Registry) {
    && e.channels.Keys == r.slots.Keys
    && (forall fd :: fd in e.kernel ==> fd in r.slots)
    && (forall fd :: fd in r.slots ==> EpollSlot(e, r, fd))
    && (forall ch :: ch in e.idx ==> Registered(r, ch) || e.idx[ch] == NEW)
  }

  /** In the kernel set with its events, or deleted from it and asking for none. */
  ghost predicate EpollSlot(e: EpollState, r: Registry, fd: nat)
    requires fd in r.slots
  {
    var ch := r.slots[fd].ch;
    && ch.fd == fd && fd in e.channels && e.channels[fd] == ch
    && (if fd in e.kernel then IdxOf(e.idx, ch) == ADDED && e.kernel[fd] == r.slots[fd].events
        else IdxOf(e.idx, ch) == DELETED && r.slots[fd].events == NONE)
  }

  // ---------------------------------------------------------------- each step

  lemma PollUpdateRep(p: PollState, r: Registry, ch: Channel, events: int)
    requires PollRep(p, r) && PollAllowed(r, Update(ch, events))
    ensures PollAsserted(p, Update(ch, events), events)
    ensures PollRep(PollUpdate(p, ch, events), Register(r, Update(ch, events)))
  {
    if ch.fd in r.slots { assert PollSlot(p, r, ch.fd) && PollPlace(p, r, p.idx[ch]); }
    var p', r' := PollUpdate(p, ch, events), Register(r, Update(ch, events));
    forall fd | fd in r'.slots ensures PollSlot(p', r', fd) {
      if fd in r.slots { assert PollSlot(p, r, fd) && PollPlace(p, r, p.idx[r.slots[fd].ch]); }
      PollUpdateSlot(p, r, ch, events, fd);
    }
    forall k | 0 <= k < |p'.pollfds| ensures PollPlace(p', r', k) {
      if k < |p.pollfds| { assert PollPlace(p, r, k) && PollSlot(p, r, DecodedFd(p.pollfds[k].fd)); }
      PollUpdatePlace(p, r, ch, events, k);
    }
    hide PollSlot, PollPlace, EntryOf;
  }

  /** The entry of a channel, and the channel of its place. */
  ghost predicate Housed(p: PollState, r: Registry, fd: nat)
    requires fd in r.slots
  {
    PollSlot(p, r, fd) && PollPlace(p, r, p.idx[r.slots[fd].ch])
  }

  lemma PollUpdateSlot(p: PollState, r: Registry, ch: Channel, events: int, fd: nat)
    requires PollAllowed(r, Update(ch, events)) && PollAsserted(p, Update(ch, events), events)
    requires if ch.fd in r.slots then Housed(p, r, ch.fd) else ch !in p.idx
    requires if fd in r.slots then Housed(p, r, fd) else fd == ch.fd
    ensures PollSlot(PollUpdate(p, ch, events), Register(r, Update(ch, events)), fd)
  {
  }

  lemma PollUpdatePlace(p: PollState, r: Registry, ch: Channel, events: int, k: nat)
    requires PollAllowed(r, Update(ch, events)) && PollAsserted(p, Update(ch, events), events)
    requires if ch.fd in r.slots then PollSlot(p, r, ch.fd) else ch !in p.idx
    requires k < |PollUpdate(p, ch, events).pollfds|
    requires k < |p.pollfds| ==> PollPlace(p, r, k) && PollSlot(p, r, DecodedFd(p.pollfds[k].fd))
    ensures PollPlace(PollUpdate(p, ch, events), Register(r, Update(ch, events)), k)
  {
  }

  lemma PollRemoveRep(p: PollState, r: Registry, ch: Channel)
    requires PollRep(p, r) && PollAllowed(r, Remove(ch))
    ensures PollAsserted(p, Remove(ch), NONE)
    ensures PollRep(PollRemove(p, ch), Register(r, Remove(ch)))
  {
    PollRemoveAsserted(p, r, ch);
    var p', r' := PollRemove(p, ch), Register(r, Remove(ch));
    forall fd | fd in r'.slots ensures PollSlot(p', r', fd) {
      assert PollSlot(p, r, fd);
      PollRemoveSlot(p, r, ch, fd);
    }
    forall k | 0 <= k < |p'.pollfds| ensures PollPlace(p', r', k) {
      assert PollPlace(p, r, k) && PollSlot(p, r, DecodedFd(p.pollfds[k].fd));
      PollRemovePlace(p, r, ch, k);
    }
    hide PollSlot, PollPlace;
  }

  /** What removal looks at: the entry of the channel and the last one, which takes its place. */
  ghost predicate Swapping(p: PollState, r: Registry, ch: Channel) {
    && Registered(r, ch) && Housed(p, r, ch.fd)
    && PollPlace(p, r, |p.pollfds| - 1) && PollSlot(p, r, DecodedFd(p.pollfds[|p.pollfds| - 1].fd))
  }

  lemma PollRemoveAsserted(p: PollState, r: Registry, ch: Channel)
    requires PollRep(p, r) && PollAllowed(r, Remove(ch))
    ensures PollAsserted(p, Remove(ch), NONE) && Swapping(p, r, ch)
  {
    assert PollSlot(p, r, ch.fd);
    assert PollPlace(p, r, |p.pollfds| - 1) && PollPlace(p, r, p.idx[ch]);
  }

  lemma PollRemoveSlot(p: PollState, r: Registry, ch: Channel, fd: nat)
    requires PollAsserted(p, Remove(ch), NONE) && Swapping(p, r, ch)
    requires fd in r.slots && fd != ch.fd && PollSlot(p, r, fd)
    ensures PollSlot(PollRemove(p, ch), Register(r, Remove(ch)), fd)
  {
  }

  lemma PollRemovePlace(p: PollState, r: Registry, ch: Channel, k: nat)
    requires PollAsserted(p, Remove(ch), NONE) && Swapping(p, r, ch)
    requires k < |p.pollfds| - 1 && PollPlace(p, r, k) && PollSlot(p, r, DecodedFd(p.pollfds[k].fd))
    ensures PollPlace(PollRemove(p, ch), Register(r, Remove(ch)), k)
  {
  }

  lemma EpollUpdateRep(e: EpollState, r: Registry, ch: Channel, events: int)
    requires EpollRep(e, r) && EpollAllowed(r, Update(ch, events))
    ensures EpollAsserted(e, Update(ch, events))
    ensures EpollRep(EpollUpdate(e, ch, events), Register(r, Update(ch, events)))
  {
    hide EpollAsserted;
    EpollUpdateAsserted(e, r, ch, events);
    if ch.fd in r.slots { assert EpollSlot(e, r, ch.fd); }
    var e', r' := EpollUpdate(e, ch, events), Register(r, Update(ch, events));
    forall fd | fd in r'.slots ensures EpollSlot(e', r', fd) {
      if fd in r.slots { assert EpollSlot(e, r, fd); }
      EpollUpdateSlot(e, r, ch, events, fd);
    }
    EpollUpdateIdx(e, r, ch, events);
    hide EpollSlot, EpollUpdate;
  }

  lemma EpollUpdateIdx(e: EpollState, r: Registry, ch: Channel, events: int)
    requires EpollRep(e, r) && EpollAllowed(r, Update(ch, events))
    ensures var e', r' := EpollUpdate(e, ch, events), Register(r, Update(ch, events));
            e'.channels.Keys == r'.slots.Keys
            && (forall fd :: fd in e'.kernel ==> fd in r'.slots)
            && (forall c :: c in e'.idx ==> Registered(r', c) || e'.idx[c] == NEW)
  {
    if ch.fd in r.slots { assert EpollSlot(e, r, ch.fd); }
  }

  lemma EpollUpdateAsserted(e: EpollState, r: Registry, ch: Channel, events: int)
    requires EpollRep(e, r) && EpollAllowed(r, Update(ch, events))
    ensures EpollAsserted(e, Update(ch, events))
  {
    if ch.fd in r.slots { assert EpollSlot(e, r, ch.fd); }
  }

  lemma EpollUpdateSlot(e: EpollState, r: Registry, ch: Channel, events: int, fd: nat)
    requires EpollAllowed(r, Update(ch, events)) && (fd in r.slots || fd == ch.fd)
    requires if ch.fd in r.slots then EpollSlot(e, r, ch.fd) else IdxOf(e.idx, ch) == NEW && ch.fd !in e.kernel
    requires fd in r.slots ==> EpollSlot(e, r, fd)
    ensures EpollSlot(EpollUpdate(e, ch, events), Register(r, Update(ch, events)), fd)
  {
  }

  lemma EpollRemoveRep(e: EpollState, r: Registry, ch: Channel)
    requires EpollRep(e, r) && EpollAllowed(r, Remove(ch))
    ensures EpollAsserted(e, Remove(ch))
    ensures EpollRep(EpollRemove(e, ch), Register(r, Remove(ch)))
  {
    assert EpollSlot(e, r, ch.fd);
    var e', r' := EpollRemove(e, ch), Register(r, Remove(ch));
    forall fd | fd in r'.slots
      ensures EpollSlot(e', r', fd)
    {
      assert EpollSlot(e, r, fd);
    }
  }

  // ---------------------------------------------------------------- whole histories

  predicate AllowedAll(r: Registry, history: seq<Op>)
    decreases |history|
  {
    history == [] || (PollAllowed(r, history[0]) && AllowedAll(Register(r, history[0]), history[1..]))
  }

  function RegisterAll(r: Registry, history: seq<Op>): Registry
    decreases |history|
  {
    if history == [] then r else RegisterAll(Register(r, history[0]), history[1..])
  }

  ghost predicate PollAccepts(p: PollState, op: Op) { PollAsserted(p, op, if op.Update? then op.events else NONE) }

  ghost function PollStep(p: PollState, op: Op): PollState
    requires PollAccepts(p, op)
  {
    match op case Update(ch, events) => PollUpdate(p, ch, events) case Remove(ch) => PollRemove(p, ch)
  }

  ghost function EpollStep(e: EpollState, op: Op): EpollState {
    match op case Update(ch, events) => EpollUpdate(e, ch, events) case Remove(ch) => EpollRemove(e, ch)
  }

  lemma StepRefines(p: PollState, e: EpollState, r: Registry, op: Op)
    requires PollRep(p, r) && EpollRep(e, r) && PollAllowed(r, op)
    ensures PollAccepts(p, op) && EpollAsserted(e, op)
    ensures PollRep(PollStep(p, op), Register(r, op)) && EpollRep(EpollStep(e, op), Register(r, op))
  {
    match op
    case Update(ch, events) =>
      PollUpdateRep(p, r, ch, events);
      EpollUpdateRep(e, r, ch, events);
    case Remove(ch) =>
      PollRemoveRep(p, r, ch);
      EpollRemoveRep(e, r, ch);
  }

  /** Every assertion of both pollers holds along the history, as does every kernel call. */
  ghost predicate BothAccept(p: PollState, e: EpollState, history: seq<Op>)
    decreases |history|
  {
    history == [] ||
    (PollAccepts(p, history[0]) && EpollAsserted(e, history[0])
     && BothAccept(PollStep(p, history[0]), EpollStep(e, history[0]), history[1..]))
  }

  ghost function Both(p: PollState, e: EpollState, history: seq<Op>): (PollState, EpollState)
    requires BothAccept(p, e, history)
    decreases |history|
  {
    if history == [] then (p, e) else Both(PollStep(p, history[0]), EpollStep(e, history[0]), history[1..])
  }

  lemma {:induction false} HistoryRefines(p: PollState, e: EpollState, r: Registry, history: seq<Op>)
    requires PollRep(p, r) && EpollRep(e, r) && AllowedAll(r, history)
    ensures BothAccept(p, e, history)
    ensures PollRep(Both(p, e, history).0, RegisterAll(r, history))
    ensures EpollRep(Both(p, e, history).1, RegisterAll(r, history))
    decreases |history|
  {
    if history != [] {
      StepRefines(p, e, r, history[0]);
      HistoryRefines(PollStep(p, history[0]), EpollStep(e, history[0]), Register(r, history[0]), history[1..]);
    }
  }

  lemma RepWatches(p: PollState, e: EpollState, r: Registry, fd: nat, events: int)
    requires PollRep(p, r) && EpollRep(e, r)
    ensures PollWatches(p, fd, events) <==> Watched(r, fd, events)
    ensures EpollWatches(e, fd, events) <==> Watched(r, fd, events)
  {
    if fd in r.slots { assert PollSlot(p, r, fd) && EpollSlot(e, r, fd); }
    if PollWatches(p, fd, events) {
      var k :| 0 <= k < |p.pollfds| && p.pollfds[k] == PollFd(fd, events);
      assert PollPlace(p, r, k);
    }
  }

  /** The events last asked for on a descriptor, none after a removal. */
  function Wanted(history: seq<Op>, fd: nat, now: int): int
    decreases |history|
  {
    if history == [] then now
    else
      var op := history[0];
      Wanted(history[1..], fd, if op.ch.fd != fd then now else if op.Update? then op.events else NONE)
  }

  function Asks(r: Registry, fd: nat): int { if fd in r.slots then r.slots[fd].events else NONE }

  lemma {:induction false} RegisterWants(r: Registry, history: seq<Op>, fd: nat)
    ensures Asks(RegisterAll(r, history), fd) == Wanted(history, fd, Asks(r, fd))
    decreases |history|
  {
    if history != [] { RegisterWants(Register(r, history[0]), history[1..], fd); }
  }

  /** The two pollers agree: after any allowed history both hold exactly the descriptors that
      were last asked to be watched for some events, with these events, and no assertion or
      kernel call failed. */
  lemma PollersAgree(history: seq<Op>, fd: nat, events: int)
    requires AllowedAll(Registry(map[], {}), history)
    ensures BothAccept(PollInitial, EpollInitial, history)
    ensures var (p, e) := Both(PollInitial, EpollInitial, history);
            (PollWatches(p, fd, events) <==> events != NONE && Wanted(history, fd, NONE) == events)
            && (EpollWatches(e, fd, events) <==> events != NONE && Wanted(history, fd, NONE) == events)
  {
    var r := Registry(map[], {});
    RegisterWants(r, history, fd);
    HistoryRefines(PollInitial, EpollInitial, r, history);
    var (p, e) := Both(PollInitial, EpollInitial, history);
    RepWatches(p, e, RegisterAll(r, history), fd, events);
  }

  ghost predicate HasChannel(p: PollState, r: Registry, k: nat) {
    exists c :: Registered(r, c) && IdxOf(p.idx, c) == k
  }

  /** idx is a bijection from the registered channels onto the entries of pollfds_. */
  lemma IdxBijective(history: seq<Op>)
    requires AllowedAll(Registry(map[], {}), history)
    ensures BothAccept(PollInitial, EpollInitial, history)
    ensures var p := Both(PollInitial, EpollInitial, history).0;
            var r := RegisterAll(Registry(map[], {}), history);
            (forall c :: Registered(r, c) ==> 0 <= IdxOf(p.idx, c) < |p.pollfds|)
            && (forall c, d :: Registered(r, c) && Registered(r, d) && IdxOf(p.idx, c) == IdxOf(p.idx, d) ==> c == d)
            && (forall k :: 0 <= k < |p.pollfds| ==> HasChannel(p, r, k))
  {
    HistoryRefines(PollInitial, EpollInitial, Registry(map[], {}), history);
    var p := Both(PollInitial, EpollInitial, history).0;
    var r := RegisterAll(Registry(map[], {}), history);
    forall c | Registered(r, c)
      ensures c in p.idx && 0 <= p.idx[c] < |p.pollfds| && DecodedFd(p.pollfds[p.idx[c]].fd) == c.fd
    {
      assert PollSlot(p, r, c.fd);
    }
    forall k | 0 <= k < |p.pollfds|
      ensures HasChannel(p, r, k)
    {
      assert PollPlace(p, r, k);
      var fd := DecodedFd(p.pollfds[k].fd);
      assert PollSlot(p, r, fd);
      assert Registered(r, r.slots[fd].ch);
    }
  }

  /** Where they differ: each update to no events of a registered channel toggles whether
      the epoll set holds its descriptor, so a second one in a row adds it with no events. */
  lemma EpollNoneToggles(e: EpollState, r: Registry, ch: Channel)
    requires EpollRep(e, r) && Registered(r, ch)
    ensures ch.fd in EpollUpdate(e, ch, NONE).kernel <==> ch.fd !in e.kernel
    ensures ch.fd in EpollUpdate(e, ch, NONE).kernel ==> EpollUpdate(e, ch, NONE).kernel[ch.fd] == NONE
  {
    assert EpollSlot(e, r, ch.fd);
  }

  // ---------------------------------------------------------------- exactly what each accepts

  /** On every state it can reach, Poll's assertions accept exactly this. */
  lemma PollAcceptsExactly(p: PollState, r: Registry, op: Op)
    requires PollRep(p, r)
    ensures PollAccepts(p, op) <==> PollAllowed(r, op)
  {
    if op.ch.fd in r.slots {
      assert PollSlot(p, r, op.ch.fd);
      var last := |p.pollfds| - 1;
      assert PollPlace(p, r, last);
      assert PollSlot(p, r, DecodedFd(p.pollfds[last].fd));
    }
  }

  /** On every state it can reach, EPoll's assertions and kernel calls accept exactly this:
      more than it keeps in order, for it does not see whose descriptor it is given. */
  lemma EpollAcceptsExactly(e: EpollState, r: Registry, op: Op)
    requires EpollRep(e, r)
    ensures EpollAsserted(e, op) <==>
            if op.Update? then Registered(r, op.ch) || op.ch.fd !in e.kernel else op.ch.fd in r.slots
  {
    if op.ch.fd in r.slots { assert EpollSlot(e, r, op.ch.fd); }
    if op.Update? && !Registered(r, op.ch) { assert Add in CtlOf(e, op); }
  }

  /** Where the two part: EPoll takes all that Poll takes.  Besides, it takes an update of an
      unregistered channel, if the kernel set lacks its descriptor, when the channel was
      removed before or the descriptor is another channel's; and every removal by a
      registered descriptor that Poll refuses. */
  lemma PollersPartExactly(p: PollState, e: EpollState, r: Registry, op: Op)
    requires PollRep(p, r) && EpollRep(e, r)
    ensures PollAccepts(p, op) ==> EpollAsserted(e, op)
    ensures EpollAsserted(e, op) && !PollAccepts(p, op) <==>
            if op.Update? then
              !Registered(r, op.ch) && op.ch.fd !in e.kernel && (op.ch.fd in r.slots || op.ch in r.removed)
            else
              op.ch.fd in r.slots && !(Registered(r, op.ch) && r.slots[op.ch.fd].events == NONE
                                       && !r.slots[op.ch.fd].untouched)
  {
    PollAcceptsExactly(p, r, op);
    EpollAcceptsExactly(e, r, op);
    if op.ch.fd in r.slots { assert PollSlot(p, r, op.ch.fd) && EpollSlot(e, r, op.ch.fd); }
  }

  // ---------------------------------------------------------------- active channels

  datatype Active = Active(ch: Channel, revents: int)

  function CountPositive(revents: seq<int>, k: nat): nat
    requires k <= |revents|
    decreases |revents| - k
  {
    if k == |revents| then 0 else (if revents[k] > 0 then 1 else 0) + CountPositive(revents, k + 1)
  }

  /** Channels of the entries from k on that poll reported, in order. */
  ghost function ActiveFrom(p: PollState, revents: seq<int>, k: nat): seq<Active>
    requires k <= |p.pollfds| == |revents|
    requires Reported(p, revents)
    decreases |revents| - k
  {
    if k == |revents| then []
    else if revents[k] > 0 then [Active(p.channels[p.pollfds[k].fd], revents[k])] + ActiveFrom(p, revents, k + 1)
    else ActiveFrom(p, revents, k + 1)
  }

  /** Every reported entry is that of a registered channel. */
  ghost predicate Reported(p: PollState, revents: seq<int>) {
    |p.pollfds| == |revents| &&
    forall k :: 0 <= k < |revents| && revents[k] > 0 ==> p.pollfds[k].fd >= 0 && p.pollfds[k].fd in p.channels
  }

  /** The kernel never reports an ignored entry, so the lookup in `fillActiveChannels`
      always succeeds and finds the channel of that descriptor. */
  lemma ReportedFound(p: PollState, r: Registry, revents: seq<int>)
    requires PollRep(p, r) && |p.pollfds| == |revents|
    requires forall k :: 0 <= k < |revents| && p.pollfds[k].fd < 0 ==> revents[k] == 0
    ensures Reported(p, revents)
    ensures forall k :: 0 <= k < |revents| && revents[k] > 0 ==> p.channels[p.pollfds[k].fd].fd == p.pollfds[k].fd
  {
    forall k | 0 <= k < |revents| && revents[k] > 0
      ensures p.pollfds[k].fd >= 0 && p.pollfds[k].fd in p.channels
      ensures p.channels[p.pollfds[k].fd].fd == p.pollfds[k].fd
    {
      assert PollPlace(p, r, k);
      assert PollSlot(p, r, p.pollfds[k].fd);
    }
  }

  /** The list is exactly the reported entries, in order: there are as many as entries with
      positive revents, and each such entry stands behind those before it, as the channel of
      its descriptor with its own revents. */
  lemma {:induction false} ActiveExactly(p: PollState, revents: seq<int>, k: nat)
    requires k <= |p.pollfds| == |revents| && Reported(p, revents)
    ensures |ActiveFrom(p, revents, k)| == CountPositive(revents, k)
    ensures forall j :: k <= j < |revents| && revents[j] > 0 ==> StandsAt(p, revents, k, j)
    decreases |revents| - k
  {
    if k < |revents| {
      ActiveExactly(p, revents, k + 1);
      forall j | k <= j < |revents| && revents[j] > 0
        ensures StandsAt(p, revents, k, j)
      {
        if j > k { assert StandsAt(p, revents, k + 1, j); }
      }
    }
  }

  ghost predicate StandsAt(p: PollState, revents: seq<int>, k: nat, j: nat)
    requires k <= j < |p.pollfds| == |revents| && Reported(p, revents) && revents[j] > 0
  {
    var i := CountPositive(revents, k) - CountPositive(revents, j);
    0 <= i < |ActiveFrom(p, revents, k)|
    && ActiveFrom(p, revents, k)[i] == Active(p.channels[p.pollfds[j].fd], revents[j])
  }

  lemma {:induction false} NoneActive(p: PollState, revents: seq<int>, k: nat)
    requires k <= |p.pollfds| == |revents| && Reported(p, revents) && CountPositive(revents, k) == 0
    ensures ActiveFrom(p, revents, k) == []
    decreases |revents| - k
  {
    if k < |revents| { NoneActive(p, revents, k + 1); }
  }

  // ---------------------------------------------------------------- the classes

  class Poll {
    var pollfds: seq<PollFd>
    var channels: map<nat, Channel>
    var idx: map<Channel, int>
    ghost var registry: Registry

    ghost function View(): PollState
      reads this
    {
      PollState(pollfds, channels, idx)
    }

    ghost predicate Valid()
      reads this
    {
      PollRep(View(), registry)
    }

    constructor ()
      ensures Valid() && View() == PollInitial && registry == Registry(map[], {})
    {
      pollfds, channels, idx, registry := [], map[], map[], Registry(map[], {});
    }

    method UpdateChannel(ch: Channel, events: int)
      requires Valid() && PollAllowed(registry, Update(ch, events))
      modifies this
      ensures Valid() && registry == Register(old(registry), Update(ch, events))
      ensures old(PollAsserted(View(), Update(ch, events), events))
              && View() == PollUpdate(old(View()), ch, events)
    {
      PollUpdateRep(View(), registry, ch, events);
      hide PollRep;
      Store(ch, events);
      registry := Register(registry, Update(ch, events));
    }

    /** A new entry at the end, or the channel's own rewritten. */
    method Store(ch: Channel, events: int)
      requires PollAsserted(View(), Update(ch, events), events)
      modifies `pollfds, `channels, `idx
      ensures View() == PollUpdate(old(View()), ch, events)
    {
      if IdxOf(idx, ch) < 0 {
        assert ch.fd !in channels;
        pollfds := pollfds + [PollFd(ch.fd, events)];
        idx := idx[ch := |pollfds| - 1];
        channels := channels[ch.fd := ch];
      } else {
        assert ch.fd in channels && channels[ch.fd] == ch;
        var i := idx[ch];
        pollfds := pollfds[i := PollFd(ch.fd, events)];
        if events == NONE { pollfds := pollfds[i := PollFd(Flip(ch.fd), events)]; }
      }
    }

    method RemoveChannel(ch: Channel)
      requires Valid() && PollAllowed(registry, Remove(ch))
      modifies this
      ensures Valid() && registry == Register(old(registry), Remove(ch))
      ensures old(PollAsserted(View(), Remove(ch), NONE)) && View() == PollRemove(old(View()), ch)
    {
      PollRemoveRep(View(), registry, ch);
      hide PollRep;
      ghost var next := PollRemove(View(), ch);
      var i := IdxOf(idx, ch);
      assert pollfds[i] == PollFd(Flip(ch.fd), NONE);
      var lookup := channels;
      channels := channels - {ch.fd};
      if i == |pollfds| - 1 {
        pollfds := pollfds[..|pollfds| - 1];
      } else {
        var end := pollfds[|pollfds| - 1].fd;
        pollfds := pollfds[i := pollfds[|pollfds| - 1]][|pollfds| - 1 := pollfds[i]];
        if end < 0 { end := Flip(end); }
        idx := idx[lookup[end] := i];
        pollfds := pollfds[..|pollfds| - 1];
      }
      assert View() == next;
      registry := Register(registry, Remove(ch));
    }

    /** `fillActiveChannels`: stops once the reported number of entries was found. */
    method FillActiveChannels(revents: seq<int>, numEvents: nat) returns (active: seq<Active>)
      requires Valid() && |revents| == |pollfds| && numEvents == CountPositive(revents, 0)
      requires forall k :: 0 <= k < |revents| && pollfds[k].fd < 0 ==> revents[k] == 0
      ensures Reported(View(), revents) && active == ActiveFrom(View(), revents, 0)
    {
      ReportedFound(View(), registry, revents);
      active := [];
      var n, k := numEvents, 0;
      while k < |pollfds| && n > 0
        invariant k <= |pollfds| && n == CountPositive(revents, k)
        invariant active + ActiveFrom(View(), revents, k) == ActiveFrom(View(), revents, 0)
      {
        if revents[k] > 0 {
          n := n - 1;
          active := active + [Active(channels[pollfds[k].fd], revents[k])];
        }
        k := k + 1;
      }
      NoneActive(View(), revents, k);
    }
  }

  class EPoll {
    var kernel: map<nat, int>
    var channels: map<nat, Channel>
    var idx: map<Channel, int>
    ghost var registry: Registry

    ghost function View(): EpollState
      reads this
    {
      EpollState(kernel, channels, idx)
    }

    ghost predicate Valid()
      reads this
    {
      EpollRep(View(), registry)
    }

    constructor ()
      ensures Valid() && View() == EpollInitial && registry == Registry(map[], {})
    {
      kernel, channels, idx, registry := map[], map[], map[], Registry(map[], {});
    }

    /** `update`: one `epoll_ctl`, which is never refused. */
    method CallCtl(op: Ctl, fd: nat, events: int)
      requires CtlSucceeds(kernel, op, fd)
      modifies `kernel
      ensures kernel == EpollCtl(old(kernel), op, fd, events)
    {
      if op.Del? { kernel := kernel - {fd}; } else { kernel := kernel[fd := events]; }
    }

    /** Takes all that the assertions and the kernel take; the registry is followed as far
        as it goes. */
    method UpdateChannel(ch: Channel, events: int)
      requires EpollAsserted(View(), Update(ch, events))
      modifies this
      ensures View() == EpollUpdate(old(View()), ch, events)
      ensures old(Valid() && EpollAllowed(registry, Update(ch, events))) ==>
                Valid() && registry == Register(old(registry), Update(ch, events))
    {
      ghost var allowed := Valid() && EpollAllowed(registry, Update(ch, events));
      if allowed { EpollUpdateRep(View(), registry, ch, events); }
      hide EpollRep;
      StoreUpdate(ch, events);
      if allowed { registry := Register(registry, Update(ch, events)); }
    }

    method StoreUpdate(ch: Channel, events: int)
      requires EpollAsserted(View(), Update(ch, events))
      modifies `kernel, `channels, `idx
      ensures View() == EpollUpdate(old(View()), ch, events)
    {
      var i := IdxOf(idx, ch);
      if i == NEW || i == DELETED {
        assert Add in CtlOf(View(), Update(ch, events));
        if i == NEW { channels := channels[ch.fd := ch]; }
        idx := idx[ch := ADDED];
        CallCtl(Add, ch.fd, events);
      } else {
        assert channels[ch.fd] == ch && i == ADDED;
        if events == NONE {
          assert Del in CtlOf(View(), Update(ch, events));
          CallCtl(Del, ch.fd, events);
          idx := idx[ch := DELETED];
        } else {
          assert Mod in CtlOf(View(), Update(ch, events));
          CallCtl(Mod, ch.fd, events);
        }
      }
    }

    method RemoveChannel(ch: Channel)
      requires EpollAsserted(View(), Remove(ch))
      modifies this
      ensures View() == EpollRemove(old(View()), ch)
      ensures old(Valid() && EpollAllowed(registry, Remove(ch))) ==>
                Valid() && registry == Register(old(registry), Remove(ch))
    {
      ghost var allowed := Valid() && EpollAllowed(registry, Remove(ch));
      if allowed { EpollRemoveRep(View(), registry, ch); }
      hide EpollRep;
      DropChannel(ch);
      if allowed { registry := Register(registry, Remove(ch)); }
    }

    method DropChannel(ch: Channel)
      requires EpollAsserted(View(), Remove(ch))
      modifies `kernel, `channels, `idx
      ensures View() == EpollRemove(old(View()), ch)
    {
      var i := IdxOf(idx, ch);
      channels := channels - {ch.fd};
      if i == ADDED {
        assert Del in CtlOf(old(View()), Remove(ch));
        CallCtl(Del, ch.fd, NONE);
      }
      idx := idx[ch := NEW];
    }
  }
}
