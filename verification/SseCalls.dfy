/** What Init, Subscribe, the broadcast loops and the clients do, told from the calls themselves. */
module SseCalls {
  import opened Points
  import opened SseHub
  import opened SseSafety
  import opened SseDelivery

  // ---------------------------------------------------------------- boards and sizes as asked for

  ghost predicate Called(moves: seq<Move>, call: Call) {
    exists t :: Begin(t, call) in moves
  }

  /** An Init call asked for that size, or for none and the size is 100. */
  ghost predicate InitAsked(moves: seq<Move>, cap: nat) {
    exists n :: Called(moves, CallInit(n)) && cap == if n > 0 then n else 100
  }

  /** A Subscribe call asked for that board and size, or for no size and the size is 10. */
  ghost predicate SubscribeAsked(moves: seq<Move>, board: string, cap: nat) {
    exists n :: Called(moves, CallSubscribe(board, n)) && cap == if n > 0 then n else 10
  }

  ghost predicate PcAsked(moves: seq<Move>, pc: Pc) {
    && (pc.InitStart? ==> InitAsked(moves, pc.cap))
    && (pc.SubscribeStart? ==> SubscribeAsked(moves, pc.board, pc.cap))
    && (pc.SubscribeMake? ==> SubscribeAsked(moves, pc.board, pc.cap))
  }

  ghost predicate AsAsked(moves: seq<Move>, s: Hub) {
    && (forall ch :: ch in s.chans ==> InitAsked(moves, s.chans[ch].cap))
    && (forall x :: x in s.subs ==> SubscribeAsked(moves, s.subs[x].board, s.subs[x].cap))
    && (forall t :: t in s.threads ==> PcAsked(moves, s.threads[t]))
  }

  lemma CalledMore(moves: seq<Move>, move: Move, call: Call)
    requires Called(moves, call)
    ensures Called(moves + [move], call)
  {
    var t :| Begin(t, call) in moves;
    assert Begin(t, call) in moves + [move];
  }

  lemma InitAskedMore(moves: seq<Move>, move: Move, cap: nat)
    requires InitAsked(moves, cap)
    ensures InitAsked(moves + [move], cap)
  {
    var n :| Called(moves, CallInit(n)) && cap == if n > 0 then n else 100;
    CalledMore(moves, move, CallInit(n));
  }

  lemma SubscribeAskedMore(moves: seq<Move>, move: Move, board: string, cap: nat)
    requires SubscribeAsked(moves, board, cap)
    ensures SubscribeAsked(moves + [move], board, cap)
  {
    var n :| Called(moves, CallSubscribe(board, n)) && cap == if n > 0 then n else 10;
    CalledMore(moves, move, CallSubscribe(board, n));
  }

  lemma AskedMore(moves: seq<Move>, move: Move, s: Hub)
    requires AsAsked(moves, s)
    ensures AsAsked(moves + [move], s)
  {
    forall ch | ch in s.chans
      ensures InitAsked(moves + [move], s.chans[ch].cap)
    {
      InitAskedMore(moves, move, s.chans[ch].cap);
    }
    forall x | x in s.subs
      ensures SubscribeAsked(moves + [move], s.subs[x].board, s.subs[x].cap)
    {
      SubscribeAskedMore(moves, move, s.subs[x].board, s.subs[x].cap);
    }
    forall t | t in s.threads
      ensures PcAsked(moves + [move], s.threads[t])
    {
      var pc := s.threads[t];
      if pc.InitStart? {
        InitAskedMore(moves, move, pc.cap);
      } else if pc.SubscribeStart? {
        SubscribeAskedMore(moves, move, pc.board, pc.cap);
      } else if pc.SubscribeMake? {
        SubscribeAskedMore(moves, move, pc.board, pc.cap);
      }
    }
  }

  /** New channels and subscribers have what their calls hold; old ones keep what they have. */
  lemma ActChannel(s: Hub, t: Thread, pick: SubId, s': Hub, ch: ChanId)
    requires ActStep(s, t, pick) == Ok(s') && ch in s'.chans
    ensures if ch in s.chans then s'.chans[ch].cap == s.chans[ch].cap
      else s.threads[t] == InitStart(s'.chans[ch].cap)
  {
    if IsInit(s.threads[t]) {
      InitChannel(s, t, s', ch);
    } else {
      OthersMakeNoChannel(s, t, pick, s', ch);
    }
  }

  lemma InitChannel(s: Hub, t: Thread, s': Hub, ch: ChanId)
    requires t in s.threads && IsInit(s.threads[t]) && InitStep(s, t) == Ok(s') && ch in s'.chans
    ensures if ch in s.chans then s'.chans[ch].cap == s.chans[ch].cap
      else s.threads[t] == InitStart(s'.chans[ch].cap)
  {
  }

  lemma OthersMakeNoChannel(s: Hub, t: Thread, pick: SubId, s': Hub, ch: ChanId)
    requires ActStep(s, t, pick) == Ok(s') && !IsInit(s.threads[t]) && ch in s'.chans
    ensures ch in s.chans && s'.chans[ch].cap == s.chans[ch].cap
  {
  }

  lemma ActMadeSubscriber(s: Hub, t: Thread, pick: SubId, s': Hub, x: SubId)
    requires Register(s) && ActStep(s, t, pick) == Ok(s') && x in s'.subs
    ensures if x in s.subs then s'.subs[x].board == s.subs[x].board && s'.subs[x].cap == s.subs[x].cap
      else s.threads[t] == SubscribeMake(s'.subs[x].board, s'.subs[x].cap)
  {
    if x in s.subs {
      ActSubscriber(s, t, pick, x);
    } else if IsSubscribe(s.threads[t]) {
      NewSubscriber(s, t, s', x);
    } else {
      OthersMakeNobody(s, t, pick, s', x);
    }
  }

  lemma NewSubscriber(s: Hub, t: Thread, s': Hub, x: SubId)
    requires t in s.threads && IsSubscribe(s.threads[t]) && SubscribeStep(s, t) == Ok(s')
    requires x in s'.subs && x !in s.subs
    ensures s.threads[t] == SubscribeMake(s'.subs[x].board, s'.subs[x].cap)
  {
  }

  lemma OthersMakeNobody(s: Hub, t: Thread, pick: SubId, s': Hub, x: SubId)
    requires ActStep(s, t, pick) == Ok(s') && !IsSubscribe(s.threads[t]) && x in s'.subs
    ensures x in s.subs
  {
  }

  lemma SubscribeCallPc(s: Hub, t: Thread, s': Hub)
    requires t in s.threads && IsSubscribe(s.threads[t]) && SubscribeStep(s, t) == Ok(s') && t in s'.threads
    ensures var pc := s'.threads[t];
      !pc.SubscribeStart? && (pc.SubscribeMake? ==> s.threads[t] == SubscribeStart(pc.board, pc.cap))
  {
  }

  lemma InitCallPc(s: Hub, t: Thread, s': Hub)
    requires t in s.threads && IsInit(s.threads[t]) && InitStep(s, t) == Ok(s') && t in s'.threads
    ensures !s'.threads[t].InitStart?
  {
  }

  lemma ActCallPc(s: Hub, t: Thread, pick: SubId, s': Hub)
    requires ActStep(s, t, pick) == Ok(s') && t in s'.threads
    ensures var pc := s'.threads[t];
      && !pc.InitStart? && !pc.SubscribeStart?
      && (pc.SubscribeMake? ==> s.threads[t] == SubscribeStart(pc.board, pc.cap))
  {
    if IsSubscribe(s.threads[t]) {
      SubscribeMoves(s, t);
      SubscribeCallPc(s, t, s');
    } else if IsInit(s.threads[t]) {
      InitMoves(s, t);
      InitCallPc(s, t, s');
    } else if IsEmit(s.threads[t]) {
      EmitMoves(s, t);
    } else if IsLoop(s.threads[t]) {
      LoopMoves(s, t, pick);
    } else {
      UnsubscribeMoves(s, t);
    }
  }

  lemma ActAsked(moves: seq<Move>, s: Hub, t: Thread, pick: SubId, s': Hub)
    requires Register(s) && AsAsked(moves, s) && ActStep(s, t, pick) == Ok(s')
    ensures AsAsked(moves, s')
  {
    ActThreads(s, t, pick);
    ActCallPc(s, t, pick, s');
    assert PcAsked(moves, s.threads[t]);
    forall ch | ch in s'.chans
      ensures InitAsked(moves, s'.chans[ch].cap)
    {
      ActChannel(s, t, pick, s', ch);
    }
    forall x | x in s'.subs
      ensures SubscribeAsked(moves, s'.subs[x].board, s'.subs[x].cap)
    {
      ActMadeSubscriber(s, t, pick, s', x);
    }
  }

  lemma BeginAsked(moves: seq<Move>, s: Hub, t: Thread, call: Call, s': Hub)
    requires AsAsked(moves, s) && Begin(t, call) in moves && BeginStep(s, t, call) == Ok(s')
    ensures AsAsked(moves, s')
  {
    assert Called(moves, call);
    assert PcAsked(moves, s'.threads[t]);
  }

  lemma StepAsked(moves: seq<Move>, s: Hub, move: Move, s': Hub)
    requires Register(s) && AsAsked(moves, s) && Step(s, move) == Ok(s')
    ensures AsAsked(moves + [move], s')
  {
    AskedMore(moves, move, s);
    match move
    case Begin(t, call) => BeginAsked(moves + [move], s, t, call, s');
    case Act(t, pick) => ActAsked(moves + [move], s, t, pick, s');
    case ReadOne(sub) =>
  }

  /** In every run each channel has the size that an Init call asked for, 100 if it asked for none,
      and each subscriber the board and the size that a Subscribe call asked for, 10 if for none. */
  lemma {:induction false} EverySizeIsAsAsked(moves: seq<Move>)
    ensures Run(moves).Ok? && AsAsked(moves, Run(moves).hub)
  {
    NoRunPanics(moves);
    if moves != [] {
      var front, move := moves[..|moves| - 1], moves[|moves| - 1];
      EverySizeIsAsAsked(front);
      NoRunPanics(front);
      assert moves == front + [move];
      if Step(Run(front).hub, move) == Blocked {
        AskedMore(front, move, Run(front).hub);
      } else {
        StepAsked(front, Run(front).hub, move, Run(moves).hub);
      }
    }
  }

  // ---------------------------------------------------------------- whom a loop serves

  ghost function Registered(s: Hub): set<SubId> {
    if s.subscribers.Some? then s.subscribers.value else {}
  }

  /** For each event a loop came to offer, whoever was registered when it took the lock. */
  ghost function Listings(moves: seq<Move>): map<Delivery, set<SubId>> {
    if moves == [] then map[]
    else
      var front, move := moves[..|moves| - 1], moves[|moves| - 1];
      if Run(front).Ok? then Entered(Run(front).hub, Listings(front), move) else Listings(front)
  }

  ghost function Entered(s: Hub, before: map<Delivery, set<SubId>>, move: Move): map<Delivery, set<SubId>> {
    if move.Act? && move.thread in s.threads && s.threads[move.thread].LoopLock? && s.writer == None
    then before[Delivery(s.threads[move.thread].ch, s.threads[move.thread].index) := Registered(s)]
    else before
  }

  lemma LoopLists(s: Hub, t: Thread, pick: SubId, s': Hub)
    requires ActStep(s, t, pick) == Ok(s') && IsLoop(s.threads[t])
    ensures s'.offered == Entered(s, s.offered, Act(t, pick))
  {
  }

  lemma StepLists(s: Hub, move: Move, s': Hub)
    requires Step(s, move) == Ok(s')
    ensures s'.offered == Entered(s, s.offered, move)
  {
    if move.Act? {
      if IsLoop(s.threads[move.thread]) {
        LoopLists(s, move.thread, move.pick, s');
      } else {
        OthersOfferNothing(s, move.thread, move.pick);
      }
    }
  }

  lemma BlockedLists(s: Hub, move: Move)
    requires Step(s, move) == Blocked
    ensures Entered(s, s.offered, move) == s.offered
  {
  }

  /** In every run each received event is offered to exactly the subscribers registered when its
      loop takes the lock. */
  lemma {:induction false} OffersGoToTheRegistered(moves: seq<Move>)
    ensures Run(moves).Ok? && Run(moves).hub.offered == Listings(moves)
  {
    NoRunPanics(moves);
    if moves != [] {
      var front, move := moves[..|moves| - 1], moves[|moves| - 1];
      OffersGoToTheRegistered(front);
      if Step(Run(front).hub, move) == Blocked {
        BlockedLists(Run(front).hub, move);
      } else {
        StepLists(Run(front).hub, move, Run(moves).hub);
      }
    }
  }

  // ---------------------------------------------------------------- what a client has read

  /** How many reads of the client found an event waiting. */
  ghost function Reads(moves: seq<Move>, x: SubId): nat {
    if moves == [] then 0
    else
      var front, move := moves[..|moves| - 1], moves[|moves| - 1];
      var before := Reads(front, x);
      if move == ReadOne(x) && Run(front).Ok? && x in Run(front).hub.subs && before < |Run(front).hub.subs[x].inbox|
      then before + 1 else before
  }

  lemma StepReads(s: Hub, move: Move, s': Hub, x: SubId)
    requires Register(s) && Step(s, move) == Ok(s') && x in s'.subs
    ensures x in s.subs ==> s'.subs[x].read == s.subs[x].read + if move == ReadOne(x) then 1 else 0
    ensures x !in s.subs ==> s'.subs[x].read == 0 && move != ReadOne(x)
    ensures x in s.subs && move == ReadOne(x) ==> s.subs[x].read < |s.subs[x].inbox|
  {
    if move.Act? {
      if x in s.subs {
        ActSubscriber(s, move.thread, move.pick, x);
      } else {
        ActNewSubscriber(s, move.thread, move.pick, x);
      }
    }
  }

  lemma {:induction false} NothingReadBefore(moves: seq<Move>, x: SubId)
    requires Run(moves).Ok? && x !in Run(moves).hub.subs
    ensures Reads(moves, x) == 0
  {
    NoRunPanics(moves);
    if moves != [] {
      var front, move := moves[..|moves| - 1], moves[|moves| - 1];
      NoRunPanics(front);
      if Step(Run(front).hub, move).Ok? && x in Run(front).hub.subs {
        StillThere(Run(front).hub, move, x);
      }
      NothingReadBefore(front, x);
    }
  }

  lemma StillThere(s: Hub, move: Move, x: SubId)
    requires Register(s) && x in s.subs && Step(s, move).Ok?
    ensures x in Step(s, move).hub.subs
  {
    if move.Act? {
      ActSubscriber(s, move.thread, move.pick, x);
    }
  }

  /** In every run a client has read as many events as it has read successfully: the front part of
      what was put in its channel, in order. */
  lemma {:induction false} ClientsReadInOrder(moves: seq<Move>, x: SubId)
    requires Run(moves).Ok? && x in Run(moves).hub.subs
    ensures Run(moves).hub.subs[x].read == Reads(moves, x) <= |Run(moves).hub.subs[x].inbox|
  {
    EveryRunAccounts(moves);
    assert GoodInbox(Run(moves).hub, Run(moves).hub.subs[x]);
    var front, move := moves[..|moves| - 1], moves[|moves| - 1];
    NoRunPanics(front);
    var s := Run(front).hub;
    if x in s.subs {
      ClientsReadInOrder(front, x);
    } else {
      NothingReadBefore(front, x);
    }
    if Step(s, move).Ok? {
      StepReads(s, move, Run(moves).hub, x);
    }
  }
}
