/** The event hub as a protocol of atomic steps: Emit, Init, Subscribe, Unsubscribe and the
    broadcast loops, over a read-write lock and bounded channels. */
module SseHub {
  import opened Points

  type Thread = nat
  type ChanId = nat
  type SubId = nat

  datatype Event = Event(board: string, payload: int)

  /** A bounded broadcast channel: everything ever accepted, how much of it was received, and
      whether it is closed. What it holds is the part of `log` from `taken` on. */
  datatype Channel = Channel(cap: nat, log: seq<Event>, taken: nat, closed: bool)

  /** An event in a subscriber's channel, named by its place in a broadcast channel. */
  datatype Delivery = Delivery(chan: ChanId, index: nat)

  /** A subscriber: everything ever put in its channel, how much of it the client has read, and
      which of its two channels are closed. */
  datatype Subscriber = Subscriber(board: string, cap: nat, inbox: seq<Delivery>, read: nat,
                                   doneClosed: bool, eventsClosed: bool)

  datatype Call =
    | CallEmit(event: Event)
    | CallInit(bufferSize: int)
    | CallSubscribe(board: string, bufferSize: int)
    | CallUnsubscribe(sub: SubId)

  /** Where a thread stands; the arguments are its local variables. */
  datatype Pc =
    | EmitStart(event: Event)                       // before the read lock
    | EmitSend(event: Event, ch: ChanId)            // holds the read lock, about to select
    | EmitCount                                     // dropped, about to count it
    | InitStart(cap: nat)
    | InitMade(ch: ChanId)                          // before the write lock
    | InitLocked(ch: ChanId)                        // holds the write lock
    | InitClose(prev: Option<ChanId>, ch: ChanId)
    | InitSpawn(ch: ChanId)
    | LoopReceive(ch: ChanId)
    | LoopLock(ch: ChanId, index: nat)              // has an event, before the read lock
    | LoopSend(ch: ChanId, index: nat, todo: set<SubId>)  // holds the read lock
    | SubscribeStart(board: string, cap: nat)
    | SubscribeMake(board: string, cap: nat)        // passed the limit check
    | SubscribeMade(sub: SubId)                     // before the write lock
    | SubscribeLocked(sub: SubId)                   // holds the write lock
    | UnsubscribeStart(sub: SubId)                  // before the write lock
    | UnsubscribeLocked(sub: SubId)                 // holds the write lock
    | UnsubscribeCloseDone(sub: SubId)
    | UnsubscribeCloseEvents(sub: SubId)
    | Idle                                          // the call or loop has ended

  datatype Hub = Hub(
    chans: map<ChanId, Channel>,
    current: Option<ChanId>,                        // broadcastChan
    subscribers: Option<set<SubId>>,                // the subscribers map, nil before Init
    limit: nat,                                     // maxSubscribers
    nextId: nat,
    subs: map<SubId, Subscriber>,                   // every subscriber ever made
    returned: set<SubId>,                           // those whose Subscribe has returned
    leaving: set<SubId>,                            // those whose Unsubscribe has begun
    readers: set<Thread>, writer: Option<Thread>,   // the lock
    dropped: nat,                                   // droppedEvents
    busDrops: nat,                                  // history: events the full broadcast channel refused
    lost: set<(SubId, Delivery)>,                   // history: events full subscriber channels refused
    offered: map<Delivery, set<SubId>>,             // history: whom a loop found listed for an event
    threads: map<Thread, Pc>)

  datatype Outcome = Ok(hub: Hub) | Blocked | Panic

  datatype Move =
    | Begin(thread: Thread, call: Call)
    | Act(thread: Thread, pick: SubId)
    | ReadOne(sub: SubId)

  const DEFAULT_MAX_SUBSCRIBERS := 100

  const START := Hub(map[], None, None, 0, 0, map[], {}, {}, {}, None, 0, 0, {}, map[], map[])

  function Size(requested: int, default: nat): nat {
    if requested <= 0 then default else requested
  }

  function At(s: Hub, t: Thread, pc: Pc): Hub {
    s.(threads := s.threads[t := pc])
  }

  predicate LockFree(s: Hub) {
    s.writer == None && s.readers == {}
  }

  predicate Wants(sub: Subscriber, event: Event) {
    sub.board == "" || sub.board == event.board
  }

  function Count(s: Hub): nat {
    if s.subscribers.Some? then |s.subscribers.value| else 0
  }

  /** A fresh channel number. */
  ghost function FreshChan(s: Hub): (ch: ChanId)
    ensures ch !in s.chans
  {
    FreshExists(s.chans.Keys);
    var ch: ChanId :| ch !in s.chans;
    ch
  }

  lemma FreshExists(used: set<nat>)
    ensures exists n: nat :: n !in used
  {
    var n := Above(used);
    assert n !in used;
  }

  lemma Above(used: set<nat>) returns (n: nat)
    ensures forall m :: m in used ==> m < n
    decreases used
  {
    if used == {} {
      n := 0;
    } else {
      var x :| x in used;
      var k := Above(used - {x});
      assert forall m :: m in used ==> m == x || m in used - {x};
      n := if x < k then k else x + 1;
    }
  }

  /** A call begins on a new thread. Unsubscribe begins once per subscriber, after its
      Subscribe has returned. */
  ghost function BeginStep(s: Hub, t: Thread, call: Call): Outcome {
    if t in s.threads then Blocked
    else match call
      case CallEmit(event) => Ok(At(s, t, EmitStart(event)))
      case CallInit(size) => Ok(At(s, t, InitStart(Size(size, 100))))
      case CallSubscribe(board, size) => Ok(At(s, t, SubscribeStart(board, Size(size, 10))))
      case CallUnsubscribe(sub) =>
        if sub in s.returned && sub !in s.leaving
        then Ok(At(s, t, UnsubscribeStart(sub)).(leaving := s.leaving + {sub}))
        else Blocked
  }

  predicate IsEmit(pc: Pc) {
    pc.EmitStart? || pc.EmitSend? || pc.EmitCount?
  }

  /** Emit: read the channel variable and try to send, all under the read lock. */
  ghost function EmitStep(s: Hub, t: Thread): Outcome
    requires t in s.threads && IsEmit(s.threads[t])
  {
    match s.threads[t]
    case EmitStart(event) =>
      if s.writer.Some? then Blocked
      else if s.current == None then Ok(At(s, t, Idle))
      else Ok(At(s, t, EmitSend(event, s.current.value)).(readers := s.readers + {t}))
    case EmitSend(event, ch) =>
      if ch !in s.chans || s.chans[ch].closed then Panic
      else
        var c := s.chans[ch];
        var free := s.(readers := s.readers - {t});
        if |c.log| - c.taken < c.cap
        then Ok(At(free, t, Idle).(chans := s.chans[ch := c.(log := c.log + [event])]))
        else Ok(At(free, t, EmitCount).(busDrops := s.busDrops + 1))
    case EmitCount => Ok(At(s, t, Idle).(dropped := s.dropped + 1))
  }

  predicate IsInit(pc: Pc) {
    pc.InitStart? || pc.InitMade? || pc.InitLocked? || pc.InitClose? || pc.InitSpawn?
  }

  /** Init: make a channel, swap the globals under the write lock, close the previous channel,
      start a broadcast loop, which goes on as the same thread. */
  ghost function InitStep(s: Hub, t: Thread): Outcome
    requires t in s.threads && IsInit(s.threads[t])
  {
    match s.threads[t]
    case InitStart(cap) =>
      var ch := FreshChan(s);
      Ok(At(s, t, InitMade(ch)).(chans := s.chans[ch := Channel(cap, [], 0, false)]))
    case InitMade(ch) =>
      if LockFree(s) then Ok(At(s, t, InitLocked(ch)).(writer := Some(t))) else Blocked
    case InitLocked(ch) =>
      Ok(At(s, t, InitClose(s.current, ch)).(
        current := Some(ch), subscribers := Some({}), limit := DEFAULT_MAX_SUBSCRIBERS, writer := None))
    case InitClose(prev, ch) =>
      if prev == None then Ok(At(s, t, InitSpawn(ch)))
      else if prev.value !in s.chans || s.chans[prev.value].closed then Panic
      else Ok(At(s, t, InitSpawn(ch)).(chans := s.chans[prev.value := s.chans[prev.value].(closed := true)]))
    case InitSpawn(ch) => Ok(At(s, t, LoopReceive(ch)))
  }

  predicate IsLoop(pc: Pc) {
    pc.LoopReceive? || pc.LoopLock? || pc.LoopSend?
  }

  /** The broadcast loop: receive an event, then offer it to every subscriber under the read
      lock, in any order (`pick` is the next one of the map iteration). */
  ghost function LoopStep(s: Hub, t: Thread, pick: SubId): Outcome
    requires t in s.threads && IsLoop(s.threads[t])
  {
    match s.threads[t]
    case LoopReceive(ch) =>
      if ch !in s.chans then Panic
      else
        var c := s.chans[ch];
        if c.taken < |c.log| then Ok(At(s, t, LoopLock(ch, c.taken)).(chans := s.chans[ch := c.(taken := c.taken + 1)]))
        else if c.closed then Ok(At(s, t, Idle))
        else Blocked
    case LoopLock(ch, index) =>
      if s.writer.Some? then Blocked
      else
        var listed := if s.subscribers.Some? then s.subscribers.value else {};
        Ok(At(s, t, LoopSend(ch, index, listed)).(
          readers := s.readers + {t}, offered := s.offered[Delivery(ch, index) := listed]))
    case LoopSend(ch, index, todo) =>
      if todo == {} then Ok(At(s, t, LoopReceive(ch)).(readers := s.readers - {t}))
      else if pick !in todo then Blocked
      else if pick !in s.subs || ch !in s.chans || index >= |s.chans[ch].log| then Panic
      else
        var sub := s.subs[pick];
        var next := At(s, t, LoopSend(ch, index, todo - {pick}));
        if !Wants(sub, s.chans[ch].log[index]) then Ok(next)
        else if sub.eventsClosed then Panic
        else if |sub.inbox| - sub.read < sub.cap
        then Ok(next.(subs := s.subs[pick := sub.(inbox := sub.inbox + [Delivery(ch, index)])]))
        else Ok(next.(lost := s.lost + {(pick, Delivery(ch, index))}, dropped := s.dropped + 1))
  }

  predicate IsSubscribe(pc: Pc) {
    pc.SubscribeStart? || pc.SubscribeMake? || pc.SubscribeMade? || pc.SubscribeLocked?
  }

  /** Subscribe: check the limit under the read lock, make the subscriber, insert it under the
      write lock. */
  ghost function SubscribeStep(s: Hub, t: Thread): Outcome
    requires t in s.threads && IsSubscribe(s.threads[t])
  {
    match s.threads[t]
    case SubscribeStart(board, cap) =>
      if s.writer.Some? then Blocked
      else if Count(s) >= s.limit then Ok(At(s, t, Idle))
      else Ok(At(s, t, SubscribeMake(board, cap)))
    case SubscribeMake(board, cap) =>
      var id := s.nextId + 1;
      Ok(At(s, t, SubscribeMade(id)).(nextId := id, subs := s.subs[id := Subscriber(board, cap, [], 0, false, false)]))
    case SubscribeMade(sub) =>
      if LockFree(s) then Ok(At(s, t, SubscribeLocked(sub)).(writer := Some(t))) else Blocked
    case SubscribeLocked(sub) =>
      if s.subscribers == None then Panic
      else Ok(At(s, t, Idle).(
        subscribers := Some(s.subscribers.value + {sub}), returned := s.returned + {sub}, writer := None))
  }

  predicate IsUnsubscribe(pc: Pc) {
    pc.UnsubscribeStart? || pc.UnsubscribeLocked? || pc.UnsubscribeCloseDone? || pc.UnsubscribeCloseEvents?
  }

  /** Unsubscribe: delete under the write lock, then close both channels. */
  ghost function UnsubscribeStep(s: Hub, t: Thread): Outcome
    requires t in s.threads && IsUnsubscribe(s.threads[t])
  {
    match s.threads[t]
    case UnsubscribeStart(sub) =>
      if LockFree(s) then Ok(At(s, t, UnsubscribeLocked(sub)).(writer := Some(t))) else Blocked
    case UnsubscribeLocked(sub) =>
      Ok(At(s, t, UnsubscribeCloseDone(sub)).(
        subscribers := if s.subscribers.Some? then Some(s.subscribers.value - {sub}) else None, writer := None))
    case UnsubscribeCloseDone(sub) =>
      if sub !in s.subs || s.subs[sub].doneClosed then Panic
      else Ok(At(s, t, UnsubscribeCloseEvents(sub)).(subs := s.subs[sub := s.subs[sub].(doneClosed := true)]))
    case UnsubscribeCloseEvents(sub) =>
      if sub !in s.subs || s.subs[sub].eventsClosed then Panic
      else Ok(At(s, t, Idle).(subs := s.subs[sub := s.subs[sub].(eventsClosed := true)]))
  }

  /** One atomic step of a thread. */
  ghost function ActStep(s: Hub, t: Thread, pick: SubId): Outcome {
    if t !in s.threads then Blocked
    else if IsEmit(s.threads[t]) then EmitStep(s, t)
    else if IsInit(s.threads[t]) then InitStep(s, t)
    else if IsLoop(s.threads[t]) then LoopStep(s, t, pick)
    else if IsSubscribe(s.threads[t]) then SubscribeStep(s, t)
    else if IsUnsubscribe(s.threads[t]) then UnsubscribeStep(s, t)
    else Blocked
  }

  /** The client takes one event out of its subscriber's channel. */
  ghost function ReadStep(s: Hub, sub: SubId): Outcome {
    if sub in s.subs && s.subs[sub].read < |s.subs[sub].inbox|
    then Ok(s.(subs := s.subs[sub := s.subs[sub].(read := s.subs[sub].read + 1)]))
    else Blocked
  }

  ghost function Step(s: Hub, move: Move): Outcome {
    match move
    case Begin(t, call) => BeginStep(s, t, call)
    case Act(t, pick) => ActStep(s, t, pick)
    case ReadOne(sub) => ReadStep(s, sub)
  }

  /** A run of moves: a blocked move leaves the hub as it was, a panic ends everything. */
  ghost function Run(moves: seq<Move>): Outcome {
    if moves == [] then Ok(START)
    else
      match Run(moves[..|moves| - 1])
      case Ok(s) => (
        var outcome := Step(s, moves[|moves| - 1]);
        if outcome == Blocked then Ok(s) else outcome)
      case Blocked => Blocked
      case Panic => Panic
  }
}
