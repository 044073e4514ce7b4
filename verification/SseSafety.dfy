/** No interleaving of hub calls and broadcast loops panics: nothing is sent on or closed
    twice as a closed channel, and the nil subscribers map is never written. */
module SseSafety {
  import opened Points
  import opened SseHub

  predicate HoldsRead(pc: Pc) {
    pc.EmitSend? || pc.LoopSend?
  }

  predicate HoldsWrite(pc: Pc) {
    pc.InitLocked? || pc.SubscribeLocked? || pc.UnsubscribeLocked?
  }

  /** The lock: readers and the writer are the threads inside their critical sections, and a
      writer is alone. */
  ghost predicate Locks(s: Hub) {
    && (forall t :: t in s.readers <==> t in s.threads && HoldsRead(s.threads[t]))
    && (forall t :: s.writer == Some(t) <==> t in s.threads && HoldsWrite(s.threads[t]))
    && (s.writer.Some? ==> s.readers == {})
  }

  // ---------------------------------------------------------------- what one thread alone holds

  /** The channel a thread alone may install or close. */
  function Owned(pc: Pc): Option<nat> {
    match pc
    case InitMade(ch) => Some(ch)
    case InitLocked(ch) => Some(ch)
    case InitClose(prev, _) => prev
    case _ => None
  }

  /** The subscriber a thread alone may insert, delete or close. */
  function OwnedSub(pc: Pc): Option<nat> {
    match pc
    case SubscribeMade(sub) => Some(sub)
    case SubscribeLocked(sub) => Some(sub)
    case UnsubscribeStart(sub) => Some(sub)
    case UnsubscribeLocked(sub) => Some(sub)
    case UnsubscribeCloseDone(sub) => Some(sub)
    case UnsubscribeCloseEvents(sub) => Some(sub)
    case _ => None
  }

  /** The channel whose broadcast loop a thread runs, or will run. */
  function LoopChan(pc: Pc): Option<nat> {
    match pc
    case InitMade(ch) => Some(ch)
    case InitLocked(ch) => Some(ch)
    case InitClose(_, ch) => Some(ch)
    case InitSpawn(ch) => Some(ch)
    case LoopReceive(ch) => Some(ch)
    case LoopLock(ch, _) => Some(ch)
    case LoopSend(ch, _, _) => Some(ch)
    case _ => None
  }

  /** No two threads hold the same thing. */
  ghost predicate Unique(threads: map<Thread, Pc>, holds: Pc -> Option<nat>) {
    forall t, u :: t in threads && u in threads && t != u && holds(threads[t]).Some? ==>
      holds(threads[t]) != holds(threads[u])
  }

  // ---------------------------------------------------------------- what is known of channels and subscribers

  ghost predicate OpenChan(s: Hub, ch: ChanId) {
    ch in s.chans && !s.chans[ch].closed
  }

  ghost predicate Installed(s: Hub) {
    s.current.Some? ==> OpenChan(s, s.current.value)
  }

  /** A sender holds the installed channel; a channel to install or close is open and not
      installed. */
  ghost predicate ChannelOk(s: Hub, pc: Pc) {
    && (pc.EmitSend? ==> s.current == Some(pc.ch))
    && (Owned(pc).Some? ==> OpenChan(s, Owned(pc).value) && s.current != Owned(pc))
  }

  ghost predicate Listed(s: Hub, sub: SubId) {
    s.subscribers.Some? && sub in s.subscribers.value
  }

  ghost predicate OpenSub(s: Hub, sub: SubId) {
    sub in s.subs && !s.subs[sub].eventsClosed
  }

  ghost predicate NotDone(s: Hub, sub: SubId) {
    sub in s.subs && !s.subs[sub].doneClosed
  }

  /** What a thread knows of the subscriber it handles. */
  ghost predicate Handles(s: Hub, pc: Pc) {
    match pc
    case SubscribeMake(_, _) => s.subscribers.Some?
    case SubscribeMade(sub) => s.subscribers.Some? && sub in s.subs && sub !in s.returned
    case SubscribeLocked(sub) => s.subscribers.Some? && sub in s.subs && sub !in s.returned
    case UnsubscribeStart(sub) => sub in s.leaving && NotDone(s, sub) && OpenSub(s, sub)
    case UnsubscribeLocked(sub) => sub in s.leaving && NotDone(s, sub) && OpenSub(s, sub)
    case UnsubscribeCloseDone(sub) => sub in s.leaving && !Listed(s, sub) && NotDone(s, sub) && OpenSub(s, sub)
    case UnsubscribeCloseEvents(sub) => sub in s.leaving && !Listed(s, sub) && OpenSub(s, sub)
    case LoopSend(_, _, todo) => forall sub :: sub in todo ==> Listed(s, sub)
    case _ => true
  }

  /** A listed subscriber has returned and is open, and only one that is leaving is ever
      closed; the map exists once the limit is set. */
  ghost predicate Register(s: Hub) {
    && s.leaving <= s.returned <= s.subs.Keys
    && (forall sub :: sub in s.subs ==> sub <= s.nextId)
    && (forall sub :: sub in s.subs && sub !in s.leaving ==> NotDone(s, sub) && OpenSub(s, sub))
    && (forall sub :: Listed(s, sub) ==> sub in s.returned && OpenSub(s, sub))
    && (s.limit > 0 ==> s.subscribers.Some?)
  }

  /** No channel holds more than its capacity. */
  ghost predicate Bounded(s: Hub) {
    forall ch :: ch in s.chans ==> s.chans[ch].taken <= |s.chans[ch].log| <= s.chans[ch].taken + s.chans[ch].cap
  }

  /** A loop that has an event has the last one received from its channel. */
  ghost predicate Positioned(s: Hub, pc: Pc) {
    && (LoopChan(pc).Some? ==> LoopChan(pc).value in s.chans)
    && (pc.LoopLock? ==> pc.index + 1 == s.chans[pc.ch].taken)
    && (pc.LoopSend? ==> pc.index + 1 == s.chans[pc.ch].taken)
  }

  ghost predicate ThreadOk(s: Hub, t: Thread)
    requires t in s.threads
  {
    ChannelOk(s, s.threads[t]) && Handles(s, s.threads[t]) && Positioned(s, s.threads[t])
  }

  ghost predicate Alone(s: Hub) {
    Unique(s.threads, Owned) && Unique(s.threads, OwnedSub) && Unique(s.threads, LoopChan)
  }

  /** Two threads that hold nothing in common. */
  ghost predicate Apart(pc: Pc, pd: Pc) {
    && (Owned(pc).Some? ==> Owned(pc) != Owned(pd))
    && (OwnedSub(pc).Some? ==> OwnedSub(pc) != OwnedSub(pd))
    && (LoopChan(pc).Some? ==> LoopChan(pc) != LoopChan(pd))
  }

  ghost predicate Inv(s: Hub) {
    && Locks(s) && Installed(s) && Register(s) && Bounded(s) && Alone(s)
    && forall t :: t in s.threads ==> ThreadOk(s, t)
  }

  // ---------------------------------------------------------------- one step of one thread

  lemma EmitLocks(s: Hub, t: Thread)
    requires t in s.threads && IsEmit(s.threads[t]) && EmitStep(s, t).Ok?
    requires Locks(s)
    ensures Locks(EmitStep(s, t).hub)
  {
  }

  lemma InitLocks(s: Hub, t: Thread)
    requires t in s.threads && IsInit(s.threads[t]) && InitStep(s, t).Ok?
    requires Locks(s)
    ensures Locks(InitStep(s, t).hub)
  {
  }

  lemma LoopReaders(s: Hub, t: Thread, pick: SubId)
    requires t in s.threads && IsLoop(s.threads[t]) && LoopStep(s, t, pick).Ok?
    requires Locks(s)
    ensures var s' := LoopStep(s, t, pick).hub;
      forall u :: u in s'.readers <==> u in s'.threads && HoldsRead(s'.threads[u])
  {
  }

  lemma LoopLocks(s: Hub, t: Thread, pick: SubId)
    requires t in s.threads && IsLoop(s.threads[t]) && LoopStep(s, t, pick).Ok?
    requires Locks(s)
    ensures Locks(LoopStep(s, t, pick).hub)
  {
    LoopReaders(s, t, pick);
  }

  lemma SubscribeLocks(s: Hub, t: Thread)
    requires t in s.threads && IsSubscribe(s.threads[t]) && SubscribeStep(s, t).Ok?
    requires Locks(s)
    ensures Locks(SubscribeStep(s, t).hub)
  {
  }

  lemma UnsubscribeLocks(s: Hub, t: Thread)
    requires t in s.threads && IsUnsubscribe(s.threads[t]) && UnsubscribeStep(s, t).Ok?
    requires Locks(s)
    ensures Locks(UnsubscribeStep(s, t).hub)
  {
  }

  lemma EmitGlobals(s: Hub, t: Thread)
    requires t in s.threads && IsEmit(s.threads[t]) && EmitStep(s, t).Ok?
    requires Installed(s) && Register(s) && Bounded(s) && ThreadOk(s, t)
    ensures Installed(EmitStep(s, t).hub) && Register(EmitStep(s, t).hub) && Bounded(EmitStep(s, t).hub)
  {
  }

  lemma InitGlobals(s: Hub, t: Thread)
    requires t in s.threads && IsInit(s.threads[t]) && InitStep(s, t).Ok?
    requires Installed(s) && Register(s) && Bounded(s) && ThreadOk(s, t)
    ensures Installed(InitStep(s, t).hub) && Register(InitStep(s, t).hub) && Bounded(InitStep(s, t).hub)
  {
  }

  lemma LoopRegister(s: Hub, t: Thread, pick: SubId)
    requires t in s.threads && IsLoop(s.threads[t]) && LoopStep(s, t, pick).Ok?
    requires Register(s) && ThreadOk(s, t)
    ensures Register(LoopStep(s, t, pick).hub)
  {
  }

  lemma LoopBounded(s: Hub, t: Thread, pick: SubId)
    requires t in s.threads && IsLoop(s.threads[t]) && LoopStep(s, t, pick).Ok?
    requires Bounded(s)
    ensures Bounded(LoopStep(s, t, pick).hub)
  {
  }

  lemma LoopGlobals(s: Hub, t: Thread, pick: SubId)
    requires t in s.threads && IsLoop(s.threads[t]) && LoopStep(s, t, pick).Ok?
    requires Installed(s) && Register(s) && Bounded(s) && ThreadOk(s, t)
    ensures Installed(LoopStep(s, t, pick).hub) && Register(LoopStep(s, t, pick).hub)
      && Bounded(LoopStep(s, t, pick).hub)
  {
    LoopRegister(s, t, pick);
    LoopBounded(s, t, pick);
  }

  lemma SubscribeGlobals(s: Hub, t: Thread)
    requires t in s.threads && IsSubscribe(s.threads[t]) && SubscribeStep(s, t).Ok?
    requires Installed(s) && Register(s) && Bounded(s) && ThreadOk(s, t)
    ensures Installed(SubscribeStep(s, t).hub) && Register(SubscribeStep(s, t).hub) && Bounded(SubscribeStep(s, t).hub)
  {
  }

  lemma UnsubscribeGlobals(s: Hub, t: Thread)
    requires t in s.threads && IsUnsubscribe(s.threads[t]) && UnsubscribeStep(s, t).Ok?
    requires Installed(s) && Register(s) && Bounded(s) && ThreadOk(s, t)
    ensures Installed(UnsubscribeStep(s, t).hub) && Register(UnsubscribeStep(s, t).hub)
      && Bounded(UnsubscribeStep(s, t).hub)
  {
  }

  lemma EmitChannel(s: Hub, t: Thread, u: Thread)
    requires t in s.threads && IsEmit(s.threads[t]) && EmitStep(s, t).Ok?
    requires u in s.threads && u != t && ThreadOk(s, t) && ChannelOk(s, s.threads[u])
    requires Apart(s.threads[t], s.threads[u])
    ensures u in EmitStep(s, t).hub.threads && EmitStep(s, t).hub.threads[u] == s.threads[u]
    ensures ChannelOk(EmitStep(s, t).hub, s.threads[u])
  {
  }

  lemma EmitHandles(s: Hub, t: Thread, u: Thread)
    requires t in s.threads && IsEmit(s.threads[t]) && EmitStep(s, t).Ok?
    requires u in s.threads && u != t && ThreadOk(s, t) && Handles(s, s.threads[u])
    requires Apart(s.threads[t], s.threads[u])
    ensures Handles(EmitStep(s, t).hub, s.threads[u])
  {
  }

  lemma EmitPositioned(s: Hub, t: Thread, u: Thread)
    requires t in s.threads && IsEmit(s.threads[t]) && EmitStep(s, t).Ok?
    requires u in s.threads && u != t && ThreadOk(s, t) && Positioned(s, s.threads[u])
    requires Apart(s.threads[t], s.threads[u])
    ensures Positioned(EmitStep(s, t).hub, s.threads[u])
  {
  }

  lemma EmitOthers(s: Hub, t: Thread, u: Thread)
    requires t in s.threads && IsEmit(s.threads[t]) && EmitStep(s, t).Ok?
    requires u in s.threads && u != t && ThreadOk(s, t) && ThreadOk(s, u) && Apart(s.threads[t], s.threads[u])
    ensures u in EmitStep(s, t).hub.threads && ThreadOk(EmitStep(s, t).hub, u)
  {
    EmitChannel(s, t, u);
    EmitHandles(s, t, u);
    EmitPositioned(s, t, u);
  }

  lemma InitChannel(s: Hub, t: Thread, u: Thread)
    requires t in s.threads && IsInit(s.threads[t]) && InitStep(s, t).Ok?
    requires Locks(s) && Register(s) && Installed(s) && u in s.threads && u != t
      && ThreadOk(s, t) && ChannelOk(s, s.threads[u])
    requires Apart(s.threads[t], s.threads[u])
    ensures u in InitStep(s, t).hub.threads && InitStep(s, t).hub.threads[u] == s.threads[u]
    ensures ChannelOk(InitStep(s, t).hub, s.threads[u])
  {
  }

  lemma InitHandles(s: Hub, t: Thread, u: Thread)
    requires t in s.threads && IsInit(s.threads[t]) && InitStep(s, t).Ok?
    requires Locks(s) && Register(s) && Installed(s) && u in s.threads && u != t
      && ThreadOk(s, t) && Handles(s, s.threads[u])
    requires Apart(s.threads[t], s.threads[u])
    ensures Handles(InitStep(s, t).hub, s.threads[u])
  {
  }

  lemma InitPositioned(s: Hub, t: Thread, u: Thread)
    requires t in s.threads && IsInit(s.threads[t]) && InitStep(s, t).Ok?
    requires u in s.threads && u != t && ThreadOk(s, t) && Positioned(s, s.threads[u])
    requires Apart(s.threads[t], s.threads[u])
    ensures Positioned(InitStep(s, t).hub, s.threads[u])
  {
  }

  lemma InitOthers(s: Hub, t: Thread, u: Thread)
    requires t in s.threads && IsInit(s.threads[t]) && InitStep(s, t).Ok?
    requires Locks(s) && Register(s) && Installed(s)
    requires u in s.threads && u != t && ThreadOk(s, t) && ThreadOk(s, u) && Apart(s.threads[t], s.threads[u])
    ensures u in InitStep(s, t).hub.threads && ThreadOk(InitStep(s, t).hub, u)
  {
    InitChannel(s, t, u);
    InitHandles(s, t, u);
    InitPositioned(s, t, u);
  }

  lemma LoopChannel(s: Hub, t: Thread, pick: SubId, u: Thread)
    requires t in s.threads && IsLoop(s.threads[t]) && LoopStep(s, t, pick).Ok?
    requires u in s.threads && u != t && ThreadOk(s, t) && ChannelOk(s, s.threads[u])
    requires Apart(s.threads[t], s.threads[u])
    ensures u in LoopStep(s, t, pick).hub.threads && LoopStep(s, t, pick).hub.threads[u] == s.threads[u]
    ensures ChannelOk(LoopStep(s, t, pick).hub, s.threads[u])
  {
  }

  lemma LoopHandles(s: Hub, t: Thread, pick: SubId, u: Thread)
    requires t in s.threads && IsLoop(s.threads[t]) && LoopStep(s, t, pick).Ok?
    requires u in s.threads && u != t && ThreadOk(s, t) && Handles(s, s.threads[u])
    requires Apart(s.threads[t], s.threads[u])
    ensures Handles(LoopStep(s, t, pick).hub, s.threads[u])
  {
  }

  lemma LoopPositioned(s: Hub, t: Thread, pick: SubId, u: Thread)
    requires t in s.threads && IsLoop(s.threads[t]) && LoopStep(s, t, pick).Ok?
    requires u in s.threads && u != t && ThreadOk(s, t) && Positioned(s, s.threads[u])
    requires Apart(s.threads[t], s.threads[u])
    ensures Positioned(LoopStep(s, t, pick).hub, s.threads[u])
  {
  }

  lemma LoopOthers(s: Hub, t: Thread, pick: SubId, u: Thread)
    requires t in s.threads && IsLoop(s.threads[t]) && LoopStep(s, t, pick).Ok?
    requires u in s.threads && u != t && ThreadOk(s, t) && ThreadOk(s, u) && Apart(s.threads[t], s.threads[u])
    ensures u in LoopStep(s, t, pick).hub.threads && ThreadOk(LoopStep(s, t, pick).hub, u)
  {
    LoopChannel(s, t, pick, u);
    LoopHandles(s, t, pick, u);
    LoopPositioned(s, t, pick, u);
  }

  lemma SubscribeChannel(s: Hub, t: Thread, u: Thread)
    requires t in s.threads && IsSubscribe(s.threads[t]) && SubscribeStep(s, t).Ok?
    requires Locks(s) && Register(s) && u in s.threads && u != t && ThreadOk(s, t) && ChannelOk(s, s.threads[u])
    requires Apart(s.threads[t], s.threads[u])
    ensures u in SubscribeStep(s, t).hub.threads && SubscribeStep(s, t).hub.threads[u] == s.threads[u]
    ensures ChannelOk(SubscribeStep(s, t).hub, s.threads[u])
  {
  }

  lemma SubscribeHandles(s: Hub, t: Thread, u: Thread)
    requires t in s.threads && IsSubscribe(s.threads[t]) && SubscribeStep(s, t).Ok?
    requires Locks(s) && Register(s) && u in s.threads && u != t && ThreadOk(s, t) && Handles(s, s.threads[u])
    requires Apart(s.threads[t], s.threads[u])
    ensures Handles(SubscribeStep(s, t).hub, s.threads[u])
  {
  }

  lemma SubscribePositioned(s: Hub, t: Thread, u: Thread)
    requires t in s.threads && IsSubscribe(s.threads[t]) && SubscribeStep(s, t).Ok?
    requires u in s.threads && u != t && ThreadOk(s, t) && Positioned(s, s.threads[u])
    requires Apart(s.threads[t], s.threads[u])
    ensures Positioned(SubscribeStep(s, t).hub, s.threads[u])
  {
  }

  lemma SubscribeOthers(s: Hub, t: Thread, u: Thread)
    requires t in s.threads && IsSubscribe(s.threads[t]) && SubscribeStep(s, t).Ok?
    requires Locks(s) && Register(s)
    requires u in s.threads && u != t && ThreadOk(s, t) && ThreadOk(s, u) && Apart(s.threads[t], s.threads[u])
    ensures u in SubscribeStep(s, t).hub.threads && ThreadOk(SubscribeStep(s, t).hub, u)
  {
    SubscribeChannel(s, t, u);
    SubscribeHandles(s, t, u);
    SubscribePositioned(s, t, u);
  }

  lemma UnsubscribeOthers(s: Hub, t: Thread, u: Thread)
    requires t in s.threads && IsUnsubscribe(s.threads[t]) && UnsubscribeStep(s, t).Ok?
    requires Locks(s) && Register(s)
    requires u in s.threads && u != t && ThreadOk(s, t) && ThreadOk(s, u) && Apart(s.threads[t], s.threads[u])
    ensures u in UnsubscribeStep(s, t).hub.threads && ThreadOk(UnsubscribeStep(s, t).hub, u)
  {
  }

  lemma EmitItself(s: Hub, t: Thread)
    requires t in s.threads && IsEmit(s.threads[t]) && EmitStep(s, t).Ok?
    requires ThreadOk(s, t)
    ensures t in EmitStep(s, t).hub.threads && ThreadOk(EmitStep(s, t).hub, t)
  {
  }

  lemma InitItself(s: Hub, t: Thread)
    requires t in s.threads && IsInit(s.threads[t]) && InitStep(s, t).Ok?
    requires Installed(s) && ThreadOk(s, t)
    ensures t in InitStep(s, t).hub.threads && ThreadOk(InitStep(s, t).hub, t)
  {
  }

  lemma LoopItself(s: Hub, t: Thread, pick: SubId)
    requires t in s.threads && IsLoop(s.threads[t]) && LoopStep(s, t, pick).Ok?
    requires ThreadOk(s, t)
    ensures t in LoopStep(s, t, pick).hub.threads && ThreadOk(LoopStep(s, t, pick).hub, t)
  {
  }

  lemma CheckItself(s: Hub, t: Thread)
    requires t in s.threads && s.threads[t].SubscribeStart? && SubscribeStep(s, t).Ok? && Register(s)
    ensures t in SubscribeStep(s, t).hub.threads && ThreadOk(SubscribeStep(s, t).hub, t)
  {
  }

  lemma MakeItself(s: Hub, t: Thread)
    requires t in s.threads && s.threads[t].SubscribeMake? && SubscribeStep(s, t).Ok? && Register(s) && ThreadOk(s, t)
    ensures t in SubscribeStep(s, t).hub.threads && ThreadOk(SubscribeStep(s, t).hub, t)
  {
  }

  lemma InsertItself(s: Hub, t: Thread)
    requires t in s.threads && (s.threads[t].SubscribeMade? || s.threads[t].SubscribeLocked?)
    requires SubscribeStep(s, t).Ok? && ThreadOk(s, t)
    ensures t in SubscribeStep(s, t).hub.threads && ThreadOk(SubscribeStep(s, t).hub, t)
  {
  }

  lemma SubscribeItself(s: Hub, t: Thread)
    requires t in s.threads && IsSubscribe(s.threads[t]) && SubscribeStep(s, t).Ok?
    requires Register(s) && ThreadOk(s, t)
    ensures t in SubscribeStep(s, t).hub.threads && ThreadOk(SubscribeStep(s, t).hub, t)
  {
    if s.threads[t].SubscribeStart? {
      CheckItself(s, t);
    } else if s.threads[t].SubscribeMake? {
      MakeItself(s, t);
    } else {
      InsertItself(s, t);
    }
  }

  lemma UnsubscribeItself(s: Hub, t: Thread)
    requires t in s.threads && IsUnsubscribe(s.threads[t]) && UnsubscribeStep(s, t).Ok?
    requires ThreadOk(s, t)
    ensures t in UnsubscribeStep(s, t).hub.threads && ThreadOk(UnsubscribeStep(s, t).hub, t)
  {
  }

  lemma EmitApart(s: Hub, t: Thread, u: Thread)
    requires t in s.threads && IsEmit(s.threads[t]) && EmitStep(s, t).Ok?
    requires u in s.threads && t != u && ThreadOk(s, u) && Apart(s.threads[t], s.threads[u])
    ensures t in EmitStep(s, t).hub.threads && Apart(EmitStep(s, t).hub.threads[t], s.threads[u])
  {
  }

  lemma InitApart(s: Hub, t: Thread, u: Thread)
    requires t in s.threads && IsInit(s.threads[t]) && InitStep(s, t).Ok?
    requires u in s.threads && t != u && ThreadOk(s, u) && Apart(s.threads[t], s.threads[u])
    ensures t in InitStep(s, t).hub.threads && Apart(InitStep(s, t).hub.threads[t], s.threads[u])
  {
  }

  lemma LoopApart(s: Hub, t: Thread, pick: SubId, u: Thread)
    requires t in s.threads && IsLoop(s.threads[t]) && LoopStep(s, t, pick).Ok?
    requires u in s.threads && t != u && ThreadOk(s, u) && Apart(s.threads[t], s.threads[u])
    ensures t in LoopStep(s, t, pick).hub.threads && Apart(LoopStep(s, t, pick).hub.threads[t], s.threads[u])
  {
  }

  lemma OwnedIsKnown(s: Hub, u: Thread)
    requires u in s.threads && Register(s) && ThreadOk(s, u) && OwnedSub(s.threads[u]).Some?
    ensures OwnedSub(s.threads[u]).value <= s.nextId
  {
  }

  /** Subscribe comes to own nothing but the subscriber it has just made. */
  lemma SubscribeOwns(s: Hub, t: Thread)
    requires t in s.threads && IsSubscribe(s.threads[t]) && SubscribeStep(s, t).Ok?
    ensures t in SubscribeStep(s, t).hub.threads
    ensures var pc := SubscribeStep(s, t).hub.threads[t];
      && Owned(pc) == None && LoopChan(pc) == None
      && (OwnedSub(pc) in {None, OwnedSub(s.threads[t]), Some(s.nextId + 1)})
  {
  }

  lemma SubscribeApart(s: Hub, t: Thread, u: Thread)
    requires t in s.threads && IsSubscribe(s.threads[t]) && SubscribeStep(s, t).Ok?
    requires u in s.threads && t != u && Register(s) && ThreadOk(s, u) && Apart(s.threads[t], s.threads[u])
    ensures t in SubscribeStep(s, t).hub.threads && Apart(SubscribeStep(s, t).hub.threads[t], s.threads[u])
  {
    SubscribeOwns(s, t);
    if OwnedSub(s.threads[u]).Some? {
      OwnedIsKnown(s, u);
    }
  }

  lemma UnsubscribeApart(s: Hub, t: Thread, u: Thread)
    requires t in s.threads && IsUnsubscribe(s.threads[t]) && UnsubscribeStep(s, t).Ok?
    requires u in s.threads && t != u && ThreadOk(s, u) && Apart(s.threads[t], s.threads[u])
    ensures t in UnsubscribeStep(s, t).hub.threads && Apart(UnsubscribeStep(s, t).hub.threads[t], s.threads[u])
  {
  }

  lemma AloneApart(s: Hub, t: Thread, u: Thread)
    requires Alone(s) && t in s.threads && u in s.threads && t != u
    ensures Apart(s.threads[t], s.threads[u])
  {
  }

  /** All that one step keeps, for the thread that moves and for another one. */
  lemma ActKeeps(s: Hub, t: Thread, pick: SubId)
    requires Inv(s) && ActStep(s, t, pick).Ok?
    ensures var s' := ActStep(s, t, pick).hub;
      && Locks(s') && Installed(s') && Register(s') && Bounded(s') && t in s'.threads && ThreadOk(s', t)
  {
    assert ThreadOk(s, t);
    if IsEmit(s.threads[t]) {
      EmitLocks(s, t);
      EmitGlobals(s, t);
      EmitItself(s, t);
    } else if IsInit(s.threads[t]) {
      InitLocks(s, t);
      InitGlobals(s, t);
      InitItself(s, t);
    } else if IsLoop(s.threads[t]) {
      LoopLocks(s, t, pick);
      LoopGlobals(s, t, pick);
      LoopItself(s, t, pick);
    } else if IsSubscribe(s.threads[t]) {
      SubscribeLocks(s, t);
      SubscribeGlobals(s, t);
      SubscribeItself(s, t);
    } else {
      UnsubscribeLocks(s, t);
      UnsubscribeGlobals(s, t);
      UnsubscribeItself(s, t);
    }
  }

  lemma ActKeepsOther(s: Hub, t: Thread, pick: SubId, u: Thread)
    requires Locks(s) && Installed(s) && Register(s) && t in s.threads && ThreadOk(s, t) && ActStep(s, t, pick).Ok?
    requires u in s.threads && u != t && ThreadOk(s, u) && Apart(s.threads[t], s.threads[u])
    ensures var s' := ActStep(s, t, pick).hub;
      && u in s'.threads && ThreadOk(s', u)
      && t in s'.threads && Apart(s'.threads[t], s.threads[u])
  {
    if IsEmit(s.threads[t]) {
      EmitOthers(s, t, u);
      EmitApart(s, t, u);
    } else if IsInit(s.threads[t]) {
      InitOthers(s, t, u);
      InitApart(s, t, u);
    } else if IsLoop(s.threads[t]) {
      LoopOthers(s, t, pick, u);
      LoopApart(s, t, pick, u);
    } else if IsSubscribe(s.threads[t]) {
      SubscribeOthers(s, t, u);
      SubscribeApart(s, t, u);
    } else {
      UnsubscribeOthers(s, t, u);
      UnsubscribeApart(s, t, u);
    }
  }

  /** A step moves its own thread only. */
  ghost predicate MovesOnly(s: Hub, t: Thread, s': Hub) {
    t in s'.threads && s'.threads == s.threads[t := s'.threads[t]]
  }

  lemma EmitMoves(s: Hub, t: Thread)
    requires t in s.threads && IsEmit(s.threads[t]) && EmitStep(s, t).Ok?
    ensures MovesOnly(s, t, EmitStep(s, t).hub)
    ensures var pc := EmitStep(s, t).hub.threads[t]; IsEmit(pc) || pc.Idle?
  {
  }

  lemma InitMoves(s: Hub, t: Thread)
    requires t in s.threads && IsInit(s.threads[t]) && InitStep(s, t).Ok?
    ensures MovesOnly(s, t, InitStep(s, t).hub)
    ensures var pc := InitStep(s, t).hub.threads[t]; IsInit(pc) || pc.LoopReceive?
  {
  }

  lemma LoopMoves(s: Hub, t: Thread, pick: SubId)
    requires t in s.threads && IsLoop(s.threads[t]) && LoopStep(s, t, pick).Ok?
    ensures MovesOnly(s, t, LoopStep(s, t, pick).hub)
    ensures var pc := LoopStep(s, t, pick).hub.threads[t]; IsLoop(pc) || pc.Idle?
  {
  }

  lemma SubscribeMoves(s: Hub, t: Thread)
    requires t in s.threads && IsSubscribe(s.threads[t]) && SubscribeStep(s, t).Ok?
    ensures MovesOnly(s, t, SubscribeStep(s, t).hub)
    ensures var pc := SubscribeStep(s, t).hub.threads[t]; IsSubscribe(pc) || pc.Idle?
  {
  }

  lemma UnsubscribeMoves(s: Hub, t: Thread)
    requires t in s.threads && IsUnsubscribe(s.threads[t]) && UnsubscribeStep(s, t).Ok?
    ensures MovesOnly(s, t, UnsubscribeStep(s, t).hub)
    ensures var pc := UnsubscribeStep(s, t).hub.threads[t]; IsUnsubscribe(pc) || pc.Idle?
  {
  }

  lemma ActThreads(s: Hub, t: Thread, pick: SubId)
    requires ActStep(s, t, pick).Ok?
    ensures t in s.threads && MovesOnly(s, t, ActStep(s, t, pick).hub)
    ensures var pc, pc' := s.threads[t], ActStep(s, t, pick).hub.threads[t];
      && (!IsLoop(pc) ==> !pc'.LoopLock? && !pc'.LoopSend?)
      && (!IsSubscribe(pc) ==> !IsSubscribe(pc'))
  {
    if IsEmit(s.threads[t]) {
      EmitMoves(s, t);
    } else if IsInit(s.threads[t]) {
      InitMoves(s, t);
    } else if IsLoop(s.threads[t]) {
      LoopMoves(s, t, pick);
    } else if IsSubscribe(s.threads[t]) {
      SubscribeMoves(s, t);
    } else {
      UnsubscribeMoves(s, t);
    }
  }

  lemma StillAlone(s: Hub, t: Thread, pc: Pc)
    requires Alone(s) && forall u :: u in s.threads && u != t ==> Apart(pc, s.threads[u])
    ensures Alone(s.(threads := s.threads[t := pc]))
  {
  }

  lemma ActKeepsThreads(s: Hub, t: Thread, pick: SubId)
    requires Inv(s) && ActStep(s, t, pick).Ok? && ThreadOk(s, t)
    requires t in ActStep(s, t, pick).hub.threads && ThreadOk(ActStep(s, t, pick).hub, t)
    ensures Alone(ActStep(s, t, pick).hub)
    ensures forall u :: u in ActStep(s, t, pick).hub.threads ==> ThreadOk(ActStep(s, t, pick).hub, u)
  {
    var s' := ActStep(s, t, pick).hub;
    ActThreads(s, t, pick);
    forall u | u in s.threads && u != t
      ensures ThreadOk(s', u) && Apart(s'.threads[t], s.threads[u])
    {
      AloneApart(s, t, u);
      ActKeepsOther(s, t, pick, u);
    }
    StillAlone(s, t, s'.threads[t]);
  }

  lemma ActKeepsInv(s: Hub, t: Thread, pick: SubId)
    requires Inv(s) && ActStep(s, t, pick).Ok?
    ensures Inv(ActStep(s, t, pick).hub)
  {
    ActKeeps(s, t, pick);
    ActKeepsThreads(s, t, pick);
  }

  lemma ActNeverPanics(s: Hub, t: Thread, pick: SubId)
    requires Inv(s)
    ensures ActStep(s, t, pick) != Panic
  {
  }

  lemma BeginOther(s: Hub, t: Thread, call: Call, u: Thread)
    requires u in s.threads && ThreadOk(s, u) && BeginStep(s, t, call).Ok?
    ensures var s' := BeginStep(s, t, call).hub;
      && s'.threads.Keys == s.threads.Keys + {t} && s'.threads == s.threads[t := s'.threads[t]]
      && ThreadOk(s', u) && Apart(s'.threads[t], s.threads[u])
  {
  }

  lemma BeginLocks(s: Hub, t: Thread, call: Call)
    requires Locks(s) && BeginStep(s, t, call).Ok?
    ensures Locks(BeginStep(s, t, call).hub)
  {
  }

  lemma BeginGlobals(s: Hub, t: Thread, call: Call)
    requires Installed(s) && Register(s) && Bounded(s) && BeginStep(s, t, call).Ok?
    ensures var s' := BeginStep(s, t, call).hub; Installed(s') && Register(s') && Bounded(s')
  {
  }

  lemma BeginItself(s: Hub, t: Thread, call: Call)
    requires Register(s) && BeginStep(s, t, call).Ok?
    ensures var s' := BeginStep(s, t, call).hub;
      t in s'.threads && ThreadOk(s', t) && s'.threads == s.threads[t := s'.threads[t]]
  {
  }

  lemma BeginKeepsInv(s: Hub, t: Thread, call: Call)
    requires Inv(s) && BeginStep(s, t, call).Ok?
    ensures Inv(BeginStep(s, t, call).hub)
  {
    var s' := BeginStep(s, t, call).hub;
    BeginLocks(s, t, call);
    BeginGlobals(s, t, call);
    BeginItself(s, t, call);
    forall u | u in s.threads
      ensures ThreadOk(s', u) && Apart(s'.threads[t], s.threads[u])
    {
      BeginOther(s, t, call, u);
    }
    StillAlone(s, t, s'.threads[t]);
  }

  lemma ReadKeepsInv(s: Hub, sub: SubId)
    requires Inv(s) && ReadStep(s, sub).Ok?
    ensures Inv(ReadStep(s, sub).hub)
  {
    var s' := ReadStep(s, sub).hub;
    forall u | u in s.threads
      ensures ThreadOk(s', u)
    {
      assert ThreadOk(s, u);
    }
  }

  // ---------------------------------------------------------------- the theorem

  /** Every interleaving of any number of Emit, Init, Subscribe and Unsubscribe calls (one
      Unsubscribe per subscriber), old and new broadcast loops and reading clients: no step
      panics. */
  lemma {:induction false} NoRunPanics(moves: seq<Move>)
    ensures Run(moves).Ok? && Inv(Run(moves).hub)
  {
    if moves != [] {
      var move := moves[|moves| - 1];
      NoRunPanics(moves[..|moves| - 1]);
      var s := Run(moves[..|moves| - 1]).hub;
      match move
      case Begin(t, call) =>
        if BeginStep(s, t, call).Ok? {
          BeginKeepsInv(s, t, call);
        }
      case Act(t, pick) =>
        ActNeverPanics(s, t, pick);
        if ActStep(s, t, pick).Ok? {
          ActKeepsInv(s, t, pick);
        }
      case ReadOne(sub) =>
        if ReadStep(s, sub).Ok? {
          ReadKeepsInv(s, sub);
        }
    }
  }

  /** The lock is never held for good: whoever holds it, for reading or for writing, can always
      take its next step, so nobody waits on a thread that waits itself. */
  lemma LockHoldersGoOn(s: Hub, t: Thread)
    requires Inv(s) && (t in s.readers || s.writer == Some(t))
    ensures exists pick :: ActStep(s, t, pick).Ok?
  {
    var pc := s.threads[t];
    assert ThreadOk(s, t);
    var pick: SubId := 0;
    if pc.LoopSend? && pc.todo != {} {
      pick :| pick in pc.todo;
    }
    ActNeverPanics(s, t, pick);
    assert ActStep(s, t, pick) != Blocked;
  }

  /** Every run ends in a state where each thread in a critical section can go on. */
  lemma RunsNeverDeadlock(moves: seq<Move>, t: Thread)
    requires Run(moves).Ok?
    ensures var s := Run(moves).hub;
      t in s.readers || s.writer == Some(t) ==> exists pick :: ActStep(s, t, pick).Ok?
  {
    NoRunPanics(moves);
    var s := Run(moves).hub;
    if t in s.readers || s.writer == Some(t) {
      LockHoldersGoOn(s, t);
    }
  }

  /** Once per subscriber is needed: a second Unsubscribe of one whose channels are closed
      panics as soon as the lock is free. */
  lemma SecondUnsubscribePanics(s: Hub, t: Thread, sub: SubId, pick: SubId)
    requires LockFree(s) && sub in s.subs && s.subs[sub].doneClosed
    ensures var s1 := ActStep(At(s, t, UnsubscribeStart(sub)), t, pick);
      && s1.Ok? && ActStep(s1.hub, t, pick).Ok?
      && ActStep(ActStep(s1.hub, t, pick).hub, t, pick) == Panic
  {
  }
}
