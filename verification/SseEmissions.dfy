/** What becomes of every Emit call, told from the calls and the state of the channels alone. */
module SseEmissions {
  import opened Points
  import opened Regions
  import opened SseHub
  import opened SseSafety
  import opened SseDelivery

  /** How far an Emit call has come: begun, holding the channel it found installed, its event in
      that channel, its event refused, or ended because no channel was installed. */
  datatype Stage = Begun | Aimed(ch: ChanId) | Queued(ch: ChanId) | Refused | Unheard

  datatype Emission = Emission(event: Event, stage: Stage)

  type Emissions = map<Thread, Emission>

  /** The channel holds as many events as it was made for. */
  ghost predicate Full(s: Hub, ch: ChanId) {
    ch in s.chans && |s.chans[ch].log| == s.chans[ch].taken + s.chans[ch].cap
  }

  /** The next stage of a call when its thread takes a step. */
  ghost function Onward(s: Hub, stage: Stage): Stage {
    match stage
    case Begun =>
      if s.writer.Some? then Begun else if s.current == None then Unheard else Aimed(s.current.value)
    case Aimed(ch) => if Full(s, ch) then Refused else Queued(ch)
    case _ => stage
  }

  ghost function Noted(s: Hub, before: Emissions, move: Move): Emissions {
    match move
    case Begin(t, CallEmit(event)) => if t in s.threads then before else before[t := Emission(event, Begun)]
    case Act(t, _) =>
      if t in before then before[t := Emission(before[t].event, Onward(s, before[t].stage))] else before
    case _ => before
  }

  /** The Emit calls of a run. */
  ghost function EmitsOf(moves: seq<Move>): Emissions {
    if moves == [] then map[]
    else
      var front := moves[..|moves| - 1];
      if Run(front).Ok? then Noted(Run(front).hub, EmitsOf(front), moves[|moves| - 1]) else EmitsOf(front)
  }

  /** The move puts the event of that call in the channel. */
  ghost predicate Puts(s: Hub, before: Emissions, move: Move, t: Thread, ch: ChanId) {
    move.Act? && move.thread == t && t in before && before[t].stage == Aimed(ch) && !Full(s, ch)
  }

  ghost function SentBy(s: Hub, before: Emissions, move: Move, ch: ChanId): seq<Thread> {
    if move.Act? && Puts(s, before, move, move.thread, ch) then [move.thread] else []
  }

  /** The calls whose events found room in the channel, in the order of their sends. */
  ghost function Senders(moves: seq<Move>, ch: ChanId): seq<Thread> {
    if moves == [] then []
    else
      var front := moves[..|moves| - 1];
      Senders(front, ch) +
        if Run(front).Ok? then SentBy(Run(front).hub, EmitsOf(front), moves[|moves| - 1], ch) else []
  }

  ghost function RefusedOf(emits: Emissions): set<Thread> {
    set t | t in emits && emits[t].stage == Refused
  }

  // ---------------------------------------------------------------- one step

  ghost predicate Matches(pc: Pc, e: Emission) {
    match e.stage
    case Begun => pc == EmitStart(e.event)
    case Aimed(ch) => pc == EmitSend(e.event, ch)
    case Queued(_) => pc == Idle
    case Refused => pc == EmitCount || pc == Idle
    case Unheard => pc == Idle
  }

  /** Each call is where its thread stands, and no thread is in an Emit call unnoted. */
  ghost predicate Linked(s: Hub, emits: Emissions) {
    && (forall t :: t in emits ==> t in s.threads && Matches(s.threads[t], emits[t]))
    && (forall t :: t in s.threads && IsEmit(s.threads[t]) ==> t in emits)
  }

  /** The log is the events of those calls. */
  ghost predicate LogIs(log: seq<Event>, senders: seq<Thread>, emits: Emissions) {
    |log| == |senders| && forall i :: 0 <= i < |log| ==> senders[i] in emits && log[i] == emits[senders[i]].event
  }

  ghost function LogOf(s: Hub, ch: ChanId): seq<Event> {
    if ch in s.chans then s.chans[ch].log else []
  }

  lemma EmitPlace(s: Hub, t: Thread, emits: Emissions, s': Hub)
    requires Inv(s) && Linked(s, emits) && t in emits && IsEmit(s.threads[t]) && EmitStep(s, t) == Ok(s')
    ensures t in s'.threads && Matches(s'.threads[t], Emission(emits[t].event, Onward(s, emits[t].stage)))
  {
    assert ThreadOk(s, t);
  }

  lemma EmitLogs(s: Hub, t: Thread, emits: Emissions, s': Hub, ch: ChanId)
    requires Inv(s) && Linked(s, emits) && t in emits && IsEmit(s.threads[t]) && EmitStep(s, t) == Ok(s')
    ensures LogOf(s', ch) ==
      LogOf(s, ch) + if emits[t].stage == Aimed(ch) && !Full(s, ch) then [emits[t].event] else []
    ensures ch in s.chans <==> ch in s'.chans
  {
    assert ThreadOk(s, t);
  }

  lemma EmitDrops(s: Hub, t: Thread, emits: Emissions, s': Hub)
    requires Inv(s) && Linked(s, emits) && t in emits && IsEmit(s.threads[t]) && EmitStep(s, t) == Ok(s')
    ensures s'.busDrops == s.busDrops +
      if emits[t].stage != Refused && Onward(s, emits[t].stage) == Refused then 1 else 0
  {
    assert ThreadOk(s, t);
  }

  /** No other step touches a log, or the count of refused events. */
  lemma OthersKeepLogs(s: Hub, t: Thread, pick: SubId, s': Hub, ch: ChanId)
    requires ActStep(s, t, pick) == Ok(s') && !IsEmit(s.threads[t])
    ensures LogOf(s', ch) == LogOf(s, ch) && s'.busDrops == s.busDrops
  {
  }

  /** Only a thread in an Emit call takes a step of one. */
  lemma ActsOfEmits(s: Hub, t: Thread, pick: SubId, emits: Emissions)
    requires Linked(s, emits) && ActStep(s, t, pick).Ok?
    ensures t in emits <==> IsEmit(s.threads[t])
  {
  }

  lemma LinkedAfter(s: Hub, emits: Emissions, t: Thread, s': Hub, e: Emission)
    requires Linked(s, emits) && MovesOnly(s, t, s') && t in s'.threads && Matches(s'.threads[t], e)
    ensures Linked(s', emits[t := e])
  {
  }

  lemma LinkedBeside(s: Hub, emits: Emissions, t: Thread, s': Hub)
    requires Linked(s, emits) && MovesOnly(s, t, s') && t in s'.threads && t !in emits && !IsEmit(s'.threads[t])
    ensures Linked(s', emits)
  {
  }

  lemma OthersEmitNothing(s: Hub, t: Thread, pick: SubId, s': Hub)
    requires ActStep(s, t, pick) == Ok(s') && !IsEmit(s.threads[t]) && t in s'.threads
    ensures !IsEmit(s'.threads[t])
  {
    if IsInit(s.threads[t]) {
      InitMoves(s, t);
    } else if IsLoop(s.threads[t]) {
      LoopMoves(s, t, pick);
    } else if IsSubscribe(s.threads[t]) {
      SubscribeMoves(s, t);
    } else {
      UnsubscribeMoves(s, t);
    }
  }

  lemma EmitLinked(s: Hub, t: Thread, emits: Emissions, s': Hub)
    requires Inv(s) && Linked(s, emits) && t in emits && IsEmit(s.threads[t]) && EmitStep(s, t) == Ok(s')
    ensures Linked(s', emits[t := Emission(emits[t].event, Onward(s, emits[t].stage))])
  {
    EmitMoves(s, t);
    EmitPlace(s, t, emits, s');
    LinkedAfter(s, emits, t, s', Emission(emits[t].event, Onward(s, emits[t].stage)));
  }

  lemma ActLinked(s: Hub, t: Thread, pick: SubId, emits: Emissions, s': Hub)
    requires Inv(s) && Linked(s, emits) && ActStep(s, t, pick) == Ok(s')
    ensures Linked(s', Noted(s, emits, Act(t, pick)))
  {
    ActsOfEmits(s, t, pick, emits);
    if t in emits {
      EmitLinked(s, t, emits, s');
    } else {
      ActThreads(s, t, pick);
      OthersEmitNothing(s, t, pick, s');
      LinkedBeside(s, emits, t, s');
    }
  }

  lemma BeginLinked(s: Hub, t: Thread, call: Call, emits: Emissions, s': Hub)
    requires Linked(s, emits) && BeginStep(s, t, call) == Ok(s')
    ensures Linked(s', Noted(s, emits, Begin(t, call)))
  {
    assert t !in emits;
  }

  lemma StepLinked(s: Hub, emits: Emissions, move: Move, s': Hub)
    requires Inv(s) && Linked(s, emits) && Step(s, move) == Ok(s')
    ensures Linked(s', Noted(s, emits, move))
  {
    match move
    case Begin(t, call) => BeginLinked(s, t, call, emits, s');
    case Act(t, pick) => ActLinked(s, t, pick, emits, s');
    case ReadOne(sub) => assert s'.threads == s.threads;
  }

  /** A move that blocks notes nothing. */
  lemma BlockedNotesNothing(s: Hub, emits: Emissions, move: Move, ch: ChanId)
    requires Inv(s) && Linked(s, emits) && Step(s, move) == Blocked
    ensures Noted(s, emits, move) == emits && SentBy(s, emits, move, ch) == []
  {
    if move.Act? && move.thread in emits {
      assert ThreadOk(s, move.thread);
    }
  }

  /** How a step moves a log: the event of the call that sends, or nothing. */
  lemma StepLog(s: Hub, emits: Emissions, move: Move, s': Hub, ch: ChanId)
    requires Inv(s) && Linked(s, emits) && Step(s, move) == Ok(s')
    ensures LogOf(s', ch) == LogOf(s, ch) +
      if SentBy(s, emits, move, ch) == [] then [] else [emits[move.thread].event]
  {
    if move.Act? {
      if IsEmit(s.threads[move.thread]) {
        EmitLogs(s, move.thread, emits, s', ch);
      } else {
        OthersKeepLogs(s, move.thread, move.pick, s', ch);
      }
    }
  }

  lemma NotedKeeps(s: Hub, emits: Emissions, move: Move)
    requires Linked(s, emits)
    ensures forall t :: t in emits ==> t in Noted(s, emits, move) && Noted(s, emits, move)[t].event == emits[t].event
  {
  }

  lemma StepLogIs(s: Hub, emits: Emissions, move: Move, s': Hub, ch: ChanId, senders: seq<Thread>)
    requires Inv(s) && Linked(s, emits) && Step(s, move) == Ok(s') && LogIs(LogOf(s, ch), senders, emits)
    ensures LogIs(LogOf(s', ch), senders + SentBy(s, emits, move, ch), Noted(s, emits, move))
  {
    StepLog(s, emits, move, s', ch);
    NotedKeeps(s, emits, move);
  }

  /** The calls whose events are in the channel are the senders, each once. */
  ghost predicate SendersAre(senders: seq<Thread>, emits: Emissions, ch: ChanId) {
    Distinct(senders) && forall t :: t in senders <==> t in emits && emits[t].stage == Queued(ch)
  }

  lemma StepSendersAre(s: Hub, emits: Emissions, move: Move, ch: ChanId, senders: seq<Thread>)
    requires Linked(s, emits) && SendersAre(senders, emits, ch)
    ensures SendersAre(senders + SentBy(s, emits, move, ch), Noted(s, emits, move), ch)
  {
  }

  lemma NotedRefused(s: Hub, emits: Emissions, t: Thread, e: Emission)
    requires t in emits && emits[t].stage == Refused ==> e.stage == Refused
    ensures |RefusedOf(emits[t := e])| == |RefusedOf(emits)| +
      if (t !in emits || emits[t].stage != Refused) && e.stage == Refused then 1 else 0
  {
    var more := RefusedOf(emits[t := e]);
    assert more == if e.stage == Refused then RefusedOf(emits) + {t} else RefusedOf(emits);
  }

  lemma ActRefused(s: Hub, t: Thread, pick: SubId, emits: Emissions, s': Hub)
    requires Inv(s) && Linked(s, emits) && ActStep(s, t, pick) == Ok(s') && s.busDrops == |RefusedOf(emits)|
    ensures s'.busDrops == |RefusedOf(Noted(s, emits, Act(t, pick)))|
  {
    ActsOfEmits(s, t, pick, emits);
    if t in emits {
      EmitDrops(s, t, emits, s');
      NotedRefused(s, emits, t, Emission(emits[t].event, Onward(s, emits[t].stage)));
    } else {
      OthersKeepLogs(s, t, pick, s', 0);
    }
  }

  lemma BeginRefused(s: Hub, t: Thread, call: Call, emits: Emissions, s': Hub)
    requires Linked(s, emits) && BeginStep(s, t, call) == Ok(s')
    ensures s'.busDrops == s.busDrops && |RefusedOf(Noted(s, emits, Begin(t, call)))| == |RefusedOf(emits)|
  {
    assert t !in emits;
    if call.CallEmit? {
      NotedRefused(s, emits, t, Emission(call.event, Begun));
    }
  }

  lemma StepRefused(s: Hub, emits: Emissions, move: Move, s': Hub)
    requires Inv(s) && Linked(s, emits) && Step(s, move) == Ok(s') && s.busDrops == |RefusedOf(emits)|
    ensures s'.busDrops == |RefusedOf(Noted(s, emits, move))|
  {
    match move
    case Begin(t, call) => BeginRefused(s, t, call, emits, s');
    case Act(t, pick) => ActRefused(s, t, pick, emits, s');
    case ReadOne(sub) => assert s'.busDrops == s.busDrops;
  }

  // ---------------------------------------------------------------- every run

  /** Each log is the events of its senders in the order of their sends, each call is a sender of
      at most one log and once at most, and the refused calls are counted. */
  ghost predicate Accounted(moves: seq<Move>)
    requires Run(moves).Ok?
  {
    var s, emits := Run(moves).hub, EmitsOf(moves);
    && Linked(s, emits)
    && (forall ch :: LogIs(LogOf(s, ch), Senders(moves, ch), emits))
    && (forall ch :: SendersAre(Senders(moves, ch), emits, ch))
    && s.busDrops == |RefusedOf(emits)|
  }

  lemma SendersSnoc(moves: seq<Move>, move: Move, s: Hub, ch: ChanId)
    requires Run(moves) == Ok(s)
    ensures EmitsOf(moves + [move]) == Noted(s, EmitsOf(moves), move)
    ensures Senders(moves + [move], ch) == Senders(moves, ch) + SentBy(s, EmitsOf(moves), move, ch)
  {
    assert (moves + [move])[..|moves|] == moves;
  }

  lemma BlockedAccounted(moves: seq<Move>, move: Move, s: Hub)
    requires Run(moves) == Ok(s) && Inv(s) && Accounted(moves)
    requires Step(s, move) == Blocked && Run(moves + [move]) == Ok(s)
    ensures Accounted(moves + [move])
  {
    SendersSnoc(moves, move, s, 0);
    BlockedNotesNothing(s, EmitsOf(moves), move, 0);
    forall ch
      ensures Senders(moves + [move], ch) == Senders(moves, ch)
    {
      SendersSnoc(moves, move, s, ch);
      BlockedNotesNothing(s, EmitsOf(moves), move, ch);
    }
  }

  lemma LogAccounted(moves: seq<Move>, move: Move, s: Hub, s': Hub, ch: ChanId)
    requires Run(moves) == Ok(s) && Inv(s) && Accounted(moves) && Step(s, move) == Ok(s')
    ensures LogIs(LogOf(s', ch), Senders(moves + [move], ch), EmitsOf(moves + [move]))
    ensures SendersAre(Senders(moves + [move], ch), EmitsOf(moves + [move]), ch)
  {
    SendersSnoc(moves, move, s, ch);
    StepLogIs(s, EmitsOf(moves), move, s', ch, Senders(moves, ch));
    StepSendersAre(s, EmitsOf(moves), move, ch, Senders(moves, ch));
  }

  lemma StepAccounted(moves: seq<Move>, move: Move, s: Hub, s': Hub)
    requires Run(moves) == Ok(s) && Inv(s) && Accounted(moves)
    requires Step(s, move) == Ok(s') && Run(moves + [move]) == Ok(s')
    ensures Accounted(moves + [move])
  {
    SendersSnoc(moves, move, s, 0);
    StepLinked(s, EmitsOf(moves), move, s');
    StepRefused(s, EmitsOf(moves), move, s');
    forall ch
      ensures LogIs(LogOf(s', ch), Senders(moves + [move], ch), EmitsOf(moves + [move]))
      ensures SendersAre(Senders(moves + [move], ch), EmitsOf(moves + [move]), ch)
    {
      LogAccounted(moves, move, s, s', ch);
    }
  }

  lemma MoveAccounted(moves: seq<Move>, move: Move, s: Hub)
    requires Run(moves) == Ok(s) && Inv(s) && Accounted(moves) && Run(moves + [move]).Ok?
    ensures Accounted(moves + [move])
  {
    assert (moves + [move])[..|moves|] == moves;
    if Step(s, move) == Blocked {
      BlockedAccounted(moves, move, s);
    } else {
      StepAccounted(moves, move, s, Run(moves + [move]).hub);
    }
  }

  /** In every run the log of each channel is exactly, in send order, the events whose sends found
      room in it, each once and as it was emitted; an event whose send found the channel holding
      as many events as it was made for is counted as refused; no other event is. */
  lemma {:induction false} EveryEmitIsAccountedFor(moves: seq<Move>)
    ensures Run(moves).Ok? && Accounted(moves)
  {
    NoRunPanics(moves);
    if moves == [] {
      assert RefusedOf(map[]) == {};
    } else {
      var front, move := moves[..|moves| - 1], moves[|moves| - 1];
      EveryEmitIsAccountedFor(front);
      NoRunPanics(front);
      assert moves == front + [move];
      MoveAccounted(front, move, Run(front).hub);
    }
  }

  /** The events noted are those the calls were made with. */
  lemma {:induction false} EmitsAreCalls(moves: seq<Move>, t: Thread)
    requires t in EmitsOf(moves)
    ensures Begin(t, CallEmit(EmitsOf(moves)[t].event)) in moves
  {
    var front, move := moves[..|moves| - 1], moves[|moves| - 1];
    if t in EmitsOf(front) && EmitsOf(moves)[t].event == EmitsOf(front)[t].event {
      EmitsAreCalls(front, t);
    }
  }

  /** The place in the order of sends that a delivery names, and the event sent there. */
  ghost predicate Names(moves: seq<Move>, d: Delivery, event: Event) {
    && d.index < |Senders(moves, d.chan)|
    && Senders(moves, d.chan)[d.index] in EmitsOf(moves)
    && EmitsOf(moves)[Senders(moves, d.chan)[d.index]].event == event
  }

  lemma EntryIsEmitted(moves: seq<Move>, s: Hub, sub: Subscriber, d: Delivery)
    requires Run(moves) == Ok(s) && Accounted(moves) && Genuine(s, sub, d)
    ensures exists event :: Names(moves, d, event) && (sub.board == "" || sub.board == event.board)
  {
    assert LogIs(LogOf(s, d.chan), Senders(moves, d.chan), EmitsOf(moves));
    assert Names(moves, d, s.chans[d.chan].log[d.index]);
  }

  /** So a subscriber is given nothing but emitted events, of its own board if it named one, and
      the events sent to one channel in the order of their sends, none twice. */
  lemma SubscribersReceiveEmitted(moves: seq<Move>, x: SubId)
    requires Run(moves).Ok? && x in Run(moves).hub.subs
    ensures var sub := Run(moves).hub.subs[x];
      && (forall d :: d in sub.inbox ==>
          exists event :: Names(moves, d, event) && (sub.board == "" || sub.board == event.board))
      && (forall i, j :: 0 <= i < j < |sub.inbox| && sub.inbox[i].chan == sub.inbox[j].chan ==>
          sub.inbox[i].index < sub.inbox[j].index)
  {
    EveryEmitIsAccountedFor(moves);
    EveryRunAccounts(moves);
    var s, sub := Run(moves).hub, Run(moves).hub.subs[x];
    assert GoodInbox(s, sub);
    forall d | d in sub.inbox
      ensures exists event :: Names(moves, d, event) && (sub.board == "" || sub.board == event.board)
    {
      EntryIsEmitted(moves, s, sub, d);
    }
  }
}
