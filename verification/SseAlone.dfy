/** What each call to the hub comes to when nothing else moves meanwhile, and the way of one event
    from its Emit to its reader. */
module SseAlone {
  import opened Points
  import opened SseHub

  /** The hub after these moves, none of which blocks. */
  ghost function Ran(s: Hub, moves: seq<Move>): Outcome {
    if moves == [] then Ok(s)
    else
      var before := Ran(s, moves[..|moves| - 1]);
      if before.Ok? then Step(before.hub, moves[|moves| - 1]) else before
  }

  lemma RanOne(s: Hub, moves: seq<Move>, mid: Hub, move: Move)
    requires Ran(s, moves) == Ok(mid)
    ensures Ran(s, moves + [move]) == Step(mid, move)
  {
    assert (moves + [move])[..|moves|] == moves;
  }

  lemma {:induction false} RanOn(s: Hub, moves: seq<Move>, mid: Hub, more: seq<Move>)
    requires Ran(s, moves) == Ok(mid)
    ensures Ran(s, moves + more) == Ran(mid, more)
  {
    if more == [] {
      assert moves + more == moves;
    } else {
      var front := more[..|more| - 1];
      RanOn(s, moves, mid, front);
      assert (moves + more)[..|moves + more| - 1] == moves + front;
    }
  }

  lemma {:induction false} RanIsRun(moves: seq<Move>)
    requires Ran(START, moves).Ok?
    ensures Run(moves) == Ran(START, moves)
  {
    if moves != [] {
      RanIsRun(moves[..|moves| - 1]);
    }
  }

  /** A call that begins on a thread and takes some steps. */
  function Steps(t: Thread, call: Call, n: nat): seq<Move> {
    if n == 0 then [Begin(t, call)] else Steps(t, call, n - 1) + [Act(t, 0)]
  }

  lemma StepsOne(s: Hub, t: Thread, call: Call, n: nat, mid: Hub, next: Hub)
    requires Ran(s, Steps(t, call, n)) == Ok(mid) && ActStep(mid, t, 0) == Ok(next)
    ensures Ran(s, Steps(t, call, n + 1)) == Ok(next)
  {
    RanOne(s, Steps(t, call, n), mid, Act(t, 0));
  }

  lemma StepsTwo(s: Hub, t: Thread, call: Call, n: nat, mid: Hub, next: Hub, last: Hub)
    requires Ran(s, Steps(t, call, n)) == Ok(mid) && ActStep(mid, t, 0) == Ok(next) && ActStep(next, t, 0) == Ok(last)
    ensures Ran(s, Steps(t, call, n + 2)) == Ok(last)
  {
    StepsOne(s, t, call, n, mid, next);
    StepsOne(s, t, call, n + 1, next, last);
  }

  lemma StepsBegin(s: Hub, t: Thread, call: Call, next: Hub)
    requires BeginStep(s, t, call) == Ok(next)
    ensures Ran(s, Steps(t, call, 0)) == Ok(next)
  {
    RanOne(s, [], s, Begin(t, call));
    assert [] + [Begin(t, call)] == [Begin(t, call)];
  }

  lemma Overwritten(threads: map<Thread, Pc>, t: Thread, a: Pc, b: Pc)
    ensures threads[t := a][t := b] == threads[t := b]
  {
  }

  // ---------------------------------------------------------------- emitting

  /** A call that begins with an installed channel takes the lock for reading and holds it. */
  lemma EmitAims(s: Hub, t: Thread, event: Event, ch: ChanId, s2: Hub)
    requires t !in s.threads && s.writer == None && s.current == Some(ch)
    requires s2 == s.(threads := s.threads[t := EmitSend(event, ch)], readers := s.readers + {t})
    ensures Ran(s, Steps(t, CallEmit(event), 1)) == Ok(s2)
  {
    var s1 := s.(threads := s.threads[t := EmitStart(event)]);
    StepsBegin(s, t, CallEmit(event), s1);
    StepsOne(s, t, CallEmit(event), 0, s1, s2);
  }

  /** An event for which the channel has room is put at its end; nothing else changes. */
  lemma EmitAlone(s: Hub, t: Thread, event: Event, ch: ChanId)
    requires t !in s.threads && s.writer == None && t !in s.readers
    requires s.current == Some(ch) && ch in s.chans && !s.chans[ch].closed
    requires |s.chans[ch].log| < s.chans[ch].taken + s.chans[ch].cap
    ensures Ran(s, Steps(t, CallEmit(event), 2)) == Ok(s.(
      threads := s.threads[t := Idle],
      chans := s.chans[ch := s.chans[ch].(log := s.chans[ch].log + [event])]))
  {
    var s2 := s.(threads := s.threads[t := EmitSend(event, ch)], readers := s.readers + {t});
    EmitAims(s, t, event, ch, s2);
    assert s2.readers - {t} == s.readers;
    StepsOne(s, t, CallEmit(event), 1, s2, s.(
      threads := s.threads[t := Idle],
      chans := s.chans[ch := s.chans[ch].(log := s.chans[ch].log + [event])]));
  }

  /** An event for which it has none is dropped and counted. */
  lemma EmitRefused(s: Hub, t: Thread, event: Event, ch: ChanId)
    requires t !in s.threads && s.writer == None && t !in s.readers
    requires s.current == Some(ch) && ch in s.chans && !s.chans[ch].closed
    requires |s.chans[ch].log| >= s.chans[ch].taken + s.chans[ch].cap
    ensures Ran(s, Steps(t, CallEmit(event), 3)) == Ok(s.(
      threads := s.threads[t := Idle], busDrops := s.busDrops + 1, dropped := s.dropped + 1))
  {
    var s2 := s.(threads := s.threads[t := EmitSend(event, ch)], readers := s.readers + {t});
    EmitAims(s, t, event, ch, s2);
    var s3 := s.(threads := s.threads[t := EmitCount], busDrops := s.busDrops + 1);
    var s4 := s.(threads := s.threads[t := Idle], busDrops := s.busDrops + 1, dropped := s.dropped + 1);
    RefuseAndCount(s, t, event, ch, s2, s3, s4);
    StepsTwo(s, t, CallEmit(event), 1, s2, s3, s4);
  }

  lemma RefuseAndCount(s: Hub, t: Thread, event: Event, ch: ChanId, s2: Hub, s3: Hub, s4: Hub)
    requires ch in s.chans && !s.chans[ch].closed && |s.chans[ch].log| >= s.chans[ch].taken + s.chans[ch].cap
    requires t !in s.readers
    requires s2 == s.(threads := s.threads[t := EmitSend(event, ch)], readers := s.readers + {t})
    requires s3 == s.(threads := s.threads[t := EmitCount], busDrops := s.busDrops + 1)
    requires s4 == s.(threads := s.threads[t := Idle], busDrops := s.busDrops + 1, dropped := s.dropped + 1)
    ensures ActStep(s2, t, 0) == Ok(s3) && ActStep(s3, t, 0) == Ok(s4)
  {
    assert s2.readers - {t} == s.readers;
    assert s2.threads[t := EmitCount] == s3.threads && s3.threads[t := Idle] == s4.threads;
  }

  /** Before any Init an event is dropped and not counted. */
  lemma EmitUnheard(s: Hub, t: Thread, event: Event)
    requires t !in s.threads && s.writer == None && s.current == None
    ensures Ran(s, Steps(t, CallEmit(event), 1)) == Ok(s.(threads := s.threads[t := Idle]))
  {
    var s1 := s.(threads := s.threads[t := EmitStart(event)]);
    StepsBegin(s, t, CallEmit(event), s1);
    StepsOne(s, t, CallEmit(event), 0, s1, s.(threads := s.threads[t := Idle]));
  }

  /** A call that begins and takes four steps. */
  lemma FourSteps(s: Hub, t: Thread, call: Call, s1: Hub, s2: Hub, s3: Hub, s4: Hub, s5: Hub)
    requires BeginStep(s, t, call) == Ok(s1) && ActStep(s1, t, 0) == Ok(s2) && ActStep(s2, t, 0) == Ok(s3)
    requires ActStep(s3, t, 0) == Ok(s4) && ActStep(s4, t, 0) == Ok(s5)
    ensures Ran(s, Steps(t, call, 4)) == Ok(s5)
  {
    StepsBegin(s, t, call, s1);
    StepsOne(s, t, call, 0, s1, s2);
    StepsOne(s, t, call, 1, s2, s3);
    StepsOne(s, t, call, 2, s3, s4);
    StepsOne(s, t, call, 3, s4, s5);
  }

  // ---------------------------------------------------------------- initializing

  lemma BeginInit(s: Hub, t: Thread, n: int, cap: nat, s1: Hub)
    requires t !in s.threads && cap == if n > 0 then n else 100
    requires s1 == s.(threads := s.threads[t := InitStart(cap)])
    ensures BeginStep(s, t, CallInit(n)) == Ok(s1)
  {
  }

  lemma MakeChannel(s: Hub, t: Thread, cap: nat) returns (ch: ChanId, s1: Hub)
    requires t in s.threads && s.threads[t] == InitStart(cap)
    ensures ch !in s.chans && ActStep(s, t, 0) == Ok(s1)
    ensures s1 == s.(threads := s.threads[t := InitMade(ch)], chans := s.chans[ch := Channel(cap, [], 0, false)])
  {
    ch, s1 := FreshChan(s), ActStep(s, t, 0).hub;
  }

  lemma LockForInit(s: Hub, t: Thread, ch: ChanId, s1: Hub, s2: Hub)
    requires t in s.threads && s.threads[t] == InitMade(ch) && s.writer == None && s.readers == {}
    requires s1 == s.(threads := s.threads[t := InitLocked(ch)], writer := Some(t))
    requires s2 == s.(threads := s.threads[t := InitClose(s.current, ch)], current := Some(ch),
                      subscribers := Some({}), limit := 100)
    ensures ActStep(s, t, 0) == Ok(s1) && ActStep(s1, t, 0) == Ok(s2)
  {
  }

  lemma CloseAndSpawn(s: Hub, t: Thread, prev: Option<ChanId>, ch: ChanId, s1: Hub, s2: Hub)
    requires t in s.threads && s.threads[t] == InitClose(prev, ch)
    requires prev.Some? ==> prev.value in s.chans && !s.chans[prev.value].closed
    requires s1 == s.(threads := s.threads[t := InitSpawn(ch)],
                      chans := if prev == None then s.chans
                        else s.chans[prev.value := s.chans[prev.value].(closed := true)])
    requires s2 == s1.(threads := s.threads[t := LoopReceive(ch)])
    ensures ActStep(s, t, 0) == Ok(s1) && ActStep(s1, t, 0) == Ok(s2)
  {
  }

  lemma InitMakes(s: Hub, t: Thread, n: int, cap: nat) returns (ch: ChanId, s2: Hub)
    requires t !in s.threads && cap == if n > 0 then n else 100
    ensures ch !in s.chans && Ran(s, Steps(t, CallInit(n), 1)) == Ok(s2)
    ensures s2 == s.(threads := s.threads[t := InitMade(ch)], chans := s.chans[ch := Channel(cap, [], 0, false)])
  {
    var s1 := s.(threads := s.threads[t := InitStart(cap)]);
    BeginInit(s, t, n, cap, s1);
    StepsBegin(s, t, CallInit(n), s1);
    ch, s2 := MakeChannel(s1, t, cap);
    StepsOne(s, t, CallInit(n), 0, s1, s2);
    assert s2.threads == s.threads[t := InitMade(ch)];
  }

  lemma InitInstalls(s: Hub, t: Thread, n: int, cap: nat) returns (ch: ChanId, s4: Hub)
    requires t !in s.threads && s.writer == None && s.readers == {} && cap == if n > 0 then n else 100
    ensures ch !in s.chans && Ran(s, Steps(t, CallInit(n), 3)) == Ok(s4)
    ensures s4 == s.(
      threads := s.threads[t := InitClose(s.current, ch)], current := Some(ch), subscribers := Some({}), limit := 100,
      chans := s.chans[ch := Channel(cap, [], 0, false)])
  {
    var s2;
    ch, s2 := InitMakes(s, t, n, cap);
    var s3 := s2.(threads := s2.threads[t := InitLocked(ch)], writer := Some(t));
    s4 := s2.(threads := s2.threads[t := InitClose(s.current, ch)], current := Some(ch),
              subscribers := Some({}), limit := 100);
    LockForInit(s2, t, ch, s3, s4);
    StepsTwo(s, t, CallInit(n), 1, s2, s3, s4);
    Overwritten(s.threads, t, InitMade(ch), InitClose(s.current, ch));
  }

  lemma InitRetires(s: Hub, t: Thread, n: int, s4: Hub, prev: Option<ChanId>, ch: ChanId, after: Hub)
    requires Ran(s, Steps(t, CallInit(n), 3)) == Ok(s4) && t in s4.threads && s4.threads[t] == InitClose(prev, ch)
    requires prev.Some? ==> prev.value in s4.chans && !s4.chans[prev.value].closed
    requires after == s4.(
      threads := s4.threads[t := LoopReceive(ch)],
      chans := if prev == None then s4.chans else s4.chans[prev.value := s4.chans[prev.value].(closed := true)])
    ensures Ran(s, Steps(t, CallInit(n), 5)) == Ok(after)
  {
    var s5 := after.(threads := s4.threads[t := InitSpawn(ch)]);
    CloseAndSpawn(s4, t, prev, ch, s5, after);
    StepsTwo(s, t, CallInit(n), 3, s4, s5, after);
  }

  /** The installed channel is closed, if there is one. */
  ghost function Retired(s: Hub): map<ChanId, Channel> {
    if s.current.Some? && s.current.value in s.chans
    then s.chans[s.current.value := s.chans[s.current.value].(closed := true)] else s.chans
  }

  lemma RetiredBeside(s: Hub, ch: ChanId, c: Channel, chans: map<ChanId, Channel>)
    requires s.current.Some? && s.current.value in s.chans && ch !in s.chans && chans == s.chans[ch := c]
    ensures chans[s.current.value := chans[s.current.value].(closed := true)] == Retired(s)[ch := c]
  {
  }

  /** A new channel of the size asked for, or 100, is installed and its loop started; nobody is
      subscribed any more, and the previous channel, if any, is closed. */
  lemma InitAlone(s: Hub, t: Thread, n: int) returns (ch: ChanId)
    requires t !in s.threads && s.writer == None && s.readers == {}
    requires s.current.Some? ==> s.current.value in s.chans && !s.chans[s.current.value].closed
    ensures ch !in s.chans && Ran(s, Steps(t, CallInit(n), 5)) == Ok(s.(
      threads := s.threads[t := LoopReceive(ch)], current := Some(ch), subscribers := Some({}), limit := 100,
      chans := Retired(s)[ch := Channel(if n > 0 then n else 100, [], 0, false)]))
  {
    var cap: nat := if n > 0 then n else 100;
    var s4;
    ch, s4 := InitInstalls(s, t, n, cap);
    if s.current.Some? {
      RetiredBeside(s, ch, Channel(cap, [], 0, false), s4.chans);
    }
    Overwritten(s.threads, t, InitClose(s.current, ch), LoopReceive(ch));
    InitRetires(s, t, n, s4, s.current, ch, s.(
      threads := s.threads[t := LoopReceive(ch)], current := Some(ch), subscribers := Some({}), limit := 100,
      chans := Retired(s)[ch := Channel(cap, [], 0, false)]));
  }

  // ---------------------------------------------------------------- subscribing

  lemma CheckLimit(s: Hub, t: Thread, board: string, n: int, cap: nat, s1: Hub, s2: Hub)
    requires t !in s.threads && s.writer == None && s.subscribers.Some? && |s.subscribers.value| < s.limit
    requires cap == if n > 0 then n else 10
    requires s1 == s.(threads := s.threads[t := SubscribeStart(board, cap)])
    requires s2 == s.(threads := s.threads[t := SubscribeMake(board, cap)])
    ensures BeginStep(s, t, CallSubscribe(board, n)) == Ok(s1) && ActStep(s1, t, 0) == Ok(s2)
  {
  }

  lemma MakeSubscriber(s: Hub, t: Thread, board: string, cap: nat, s1: Hub)
    requires t in s.threads && s.threads[t] == SubscribeMake(board, cap)
    requires s1 == s.(threads := s.threads[t := SubscribeMade(s.nextId + 1)], nextId := s.nextId + 1,
                      subs := s.subs[s.nextId + 1 := Subscriber(board, cap, [], 0, false, false)])
    ensures ActStep(s, t, 0) == Ok(s1)
  {
  }

  lemma Register(s: Hub, t: Thread, x: SubId, s1: Hub, s2: Hub)
    requires t in s.threads && s.threads[t] == SubscribeMade(x)
    requires s.writer == None && s.readers == {} && s.subscribers.Some?
    requires s1 == s.(threads := s.threads[t := SubscribeLocked(x)], writer := Some(t))
    requires s2 == s.(threads := s.threads[t := Idle], returned := s.returned + {x},
                      subscribers := Some(s.subscribers.value + {x}))
    ensures ActStep(s, t, 0) == Ok(s1) && ActStep(s1, t, 0) == Ok(s2)
  {
  }

  lemma SubscribeMakes(s: Hub, t: Thread, board: string, n: int, cap: nat, s3: Hub)
    requires t !in s.threads && s.writer == None && s.subscribers.Some? && |s.subscribers.value| < s.limit
    requires cap == if n > 0 then n else 10
    requires s3 == s.(threads := s.threads[t := SubscribeMade(s.nextId + 1)], nextId := s.nextId + 1,
                      subs := s.subs[s.nextId + 1 := Subscriber(board, cap, [], 0, false, false)])
    ensures Ran(s, Steps(t, CallSubscribe(board, n), 2)) == Ok(s3)
  {
    var s1 := s.(threads := s.threads[t := SubscribeStart(board, cap)]);
    var s2 := s.(threads := s.threads[t := SubscribeMake(board, cap)]);
    CheckLimit(s, t, board, n, cap, s1, s2);
    StepsBegin(s, t, CallSubscribe(board, n), s1);
    StepsOne(s, t, CallSubscribe(board, n), 0, s1, s2);
    assert s2.threads[t := SubscribeMade(s.nextId + 1)] == s3.threads;
    MakeSubscriber(s2, t, board, cap, s3);
    StepsOne(s, t, CallSubscribe(board, n), 1, s2, s3);
  }

  /** Below the limit a new subscriber is registered, for that board and with the size asked for, or 10. */
  lemma SubscribeAlone(s: Hub, t: Thread, board: string, n: int)
    requires t !in s.threads && s.writer == None && s.readers == {}
    requires s.subscribers.Some? && |s.subscribers.value| < s.limit
    ensures var x := s.nextId + 1;
      Ran(s, Steps(t, CallSubscribe(board, n), 4)) == Ok(s.(
        threads := s.threads[t := Idle], nextId := x, returned := s.returned + {x},
        subscribers := Some(s.subscribers.value + {x}),
        subs := s.subs[x := Subscriber(board, if n > 0 then n else 10, [], 0, false, false)]))
  {
    var x, cap: nat := s.nextId + 1, if n > 0 then n else 10;
    var s3 := s.(threads := s.threads[t := SubscribeMade(x)], nextId := x,
                 subs := s.subs[x := Subscriber(board, cap, [], 0, false, false)]);
    SubscribeMakes(s, t, board, n, cap, s3);
    var s4 := s3.(threads := s3.threads[t := SubscribeLocked(x)], writer := Some(t));
    var s5 := s3.(threads := s3.threads[t := Idle], returned := s.returned + {x},
                  subscribers := Some(s.subscribers.value + {x}));
    Register(s3, t, x, s4, s5);
    StepsTwo(s, t, CallSubscribe(board, n), 2, s3, s4, s5);
    Overwritten(s.threads, t, SubscribeMade(x), Idle);
  }

  /** At the limit the call is refused. */
  lemma SubscribeRefused(s: Hub, t: Thread, board: string, n: int)
    requires t !in s.threads && s.writer == None && s.subscribers.Some? && |s.subscribers.value| >= s.limit
    ensures Ran(s, Steps(t, CallSubscribe(board, n), 1)) == Ok(s.(threads := s.threads[t := Idle]))
  {
    var call := CallSubscribe(board, n);
    var s1 := BeginStep(s, t, call).hub;
    StepsBegin(s, t, call, s1);
    StepsOne(s, t, call, 0, s1, s.(threads := s.threads[t := Idle]));
  }

  /** A subscriber is taken off the register and both its channels are closed. */
  lemma UnsubscribeAlone(s: Hub, t: Thread, x: SubId)
    requires t !in s.threads && s.writer == None && s.readers == {} && s.subscribers.Some?
    requires x in s.returned && x !in s.leaving && x in s.subs && !s.subs[x].doneClosed && !s.subs[x].eventsClosed
    ensures Ran(s, Steps(t, CallUnsubscribe(x), 4)) == Ok(s.(
      threads := s.threads[t := Idle], leaving := s.leaving + {x},
      subscribers := Some(s.subscribers.value - {x}),
      subs := s.subs[x := s.subs[x].(doneClosed := true, eventsClosed := true)]))
  {
    var s1 := s.(threads := s.threads[t := UnsubscribeStart(x)], leaving := s.leaving + {x});
    var s2 := s1.(threads := s1.threads[t := UnsubscribeLocked(x)], writer := Some(t));
    var s3 := s1.(threads := s1.threads[t := UnsubscribeCloseDone(x)],
                  subscribers := Some(s.subscribers.value - {x}));
    BeginUnsubscribe(s, t, x, s1);
    Deregister(s1, t, x, s2, s3);
    var s4 := s3.(threads := s3.threads[t := UnsubscribeCloseEvents(x)],
                  subs := s.subs[x := s.subs[x].(doneClosed := true)]);
    var s5 := s3.(threads := s3.threads[t := Idle],
                  subs := s.subs[x := s.subs[x].(doneClosed := true, eventsClosed := true)]);
    CloseBoth(s3, t, x, s4, s5);
    FourSteps(s, t, CallUnsubscribe(x), s1, s2, s3, s4, s5);
    Overwritten(s.threads, t, UnsubscribeStart(x), UnsubscribeCloseDone(x));
    Overwritten(s.threads, t, UnsubscribeCloseDone(x), Idle);
  }

  lemma BeginUnsubscribe(s: Hub, t: Thread, x: SubId, s1: Hub)
    requires t !in s.threads && x in s.returned && x !in s.leaving
    requires s1 == s.(threads := s.threads[t := UnsubscribeStart(x)], leaving := s.leaving + {x})
    ensures BeginStep(s, t, CallUnsubscribe(x)) == Ok(s1)
  {
  }

  lemma Deregister(s: Hub, t: Thread, x: SubId, s1: Hub, s2: Hub)
    requires t in s.threads && s.threads[t] == UnsubscribeStart(x)
    requires s.writer == None && s.readers == {} && s.subscribers.Some?
    requires s1 == s.(threads := s.threads[t := UnsubscribeLocked(x)], writer := Some(t))
    requires s2 == s.(threads := s.threads[t := UnsubscribeCloseDone(x)],
                      subscribers := Some(s.subscribers.value - {x}))
    ensures ActStep(s, t, 0) == Ok(s1) && ActStep(s1, t, 0) == Ok(s2)
  {
  }

  lemma CloseBoth(s: Hub, t: Thread, x: SubId, s1: Hub, s2: Hub)
    requires t in s.threads && s.threads[t] == UnsubscribeCloseDone(x)
    requires x in s.subs && !s.subs[x].doneClosed && !s.subs[x].eventsClosed
    requires s1 == s.(threads := s.threads[t := UnsubscribeCloseEvents(x)],
                      subs := s.subs[x := s.subs[x].(doneClosed := true)])
    requires s2 == s.(threads := s.threads[t := Idle],
                      subs := s.subs[x := s.subs[x].(doneClosed := true, eventsClosed := true)])
    ensures ActStep(s, t, 0) == Ok(s1) && ActStep(s1, t, 0) == Ok(s2)
  {
  }

  // ---------------------------------------------------------------- broadcasting

  /** What one event does to a subscriber's channel: it is put at its end if the subscriber wants it
      and has room. */
  function Given(sub: Subscriber, event: Event, d: Delivery): Subscriber {
    if (sub.board == "" || sub.board == event.board) && |sub.inbox| < sub.read + sub.cap
    then sub.(inbox := sub.inbox + [d]) else sub
  }

  /** A loop takes the next event of its channel and serves the only subscriber. */
  lemma LoopServes(s: Hub, t: Thread, ch: ChanId, x: SubId)
    requires t in s.threads && s.threads[t] == LoopReceive(ch) && s.writer == None && t !in s.readers
    requires ch in s.chans && s.chans[ch].taken < |s.chans[ch].log|
    requires s.subscribers == Some({x}) && x in s.subs && !s.subs[x].eventsClosed
    requires |s.subs[x].inbox| < s.subs[x].read + s.subs[x].cap
    ensures var d := Delivery(ch, s.chans[ch].taken);
      Ran(s, [Act(t, 0), Act(t, 0), Act(t, x), Act(t, 0)]) == Ok(s.(
        chans := s.chans[ch := s.chans[ch].(taken := s.chans[ch].taken + 1)],
        subs := s.subs[x := Given(s.subs[x], s.chans[ch].log[d.index], d)],
        offered := s.offered[d := {x}]))
  {
    var index := s.chans[ch].taken;
    var d, event := Delivery(ch, index), s.chans[ch].log[index];
    var s1 := s.(threads := s.threads[t := LoopLock(ch, index)],
                 chans := s.chans[ch := s.chans[ch].(taken := index + 1)]);
    var s2 := s1.(threads := s.threads[t := LoopSend(ch, index, {x})], readers := s.readers + {t},
                  offered := s.offered[d := {x}]);
    var s3 := s2.(threads := s.threads[t := LoopSend(ch, index, {})],
                  subs := s.subs[x := Given(s.subs[x], event, d)]);
    var s4 := s3.(threads := s.threads, readers := s.readers);
    assert s.subs[x := s.subs[x]] == s.subs;
    assert s.threads[t := LoopReceive(ch)] == s.threads;
    TakeAndLock(s, t, ch, x, s1, s2);
    ServeOne(s2, t, ch, index, x, s3);
    assert s3.readers - {t} == s.readers;
    assert ActStep(s3, t, 0) == Ok(s4);
    RanFour(s, Act(t, 0), s1, Act(t, 0), s2, Act(t, x), s3, Act(t, 0), s4);
  }

  lemma TakeAndLock(s: Hub, t: Thread, ch: ChanId, x: SubId, s1: Hub, s2: Hub)
    requires t in s.threads && s.threads[t] == LoopReceive(ch) && s.writer == None
    requires ch in s.chans && s.chans[ch].taken < |s.chans[ch].log| && s.subscribers == Some({x})
    requires s1 == s.(threads := s.threads[t := LoopLock(ch, s.chans[ch].taken)],
                      chans := s.chans[ch := s.chans[ch].(taken := s.chans[ch].taken + 1)])
    requires s2 == s1.(threads := s.threads[t := LoopSend(ch, s.chans[ch].taken, {x})], readers := s.readers + {t},
                       offered := s.offered[Delivery(ch, s.chans[ch].taken) := {x}])
    ensures ActStep(s, t, 0) == Ok(s1) && ActStep(s1, t, 0) == Ok(s2)
  {
  }

  lemma ServeOne(s: Hub, t: Thread, ch: ChanId, index: nat, x: SubId, s': Hub)
    requires t in s.threads && s.threads[t] == LoopSend(ch, index, {x})
    requires ch in s.chans && index < |s.chans[ch].log| && x in s.subs && !s.subs[x].eventsClosed
    requires |s.subs[x].inbox| < s.subs[x].read + s.subs[x].cap
    requires s' == s.(threads := s.threads[t := LoopSend(ch, index, {})],
                      subs := s.subs[x := Given(s.subs[x], s.chans[ch].log[index], Delivery(ch, index))])
    ensures ActStep(s, t, x) == Ok(s')
  {
    assert {x} - {x} == {};
    assert s.subs[x := s.subs[x]] == s.subs;
  }

  lemma RanFour(s: Hub, a: Move, s1: Hub, b: Move, s2: Hub, c: Move, s3: Hub, d: Move, s4: Hub)
    requires Step(s, a) == Ok(s1) && Step(s1, b) == Ok(s2) && Step(s2, c) == Ok(s3) && Step(s3, d) == Ok(s4)
    ensures Ran(s, [a, b, c, d]) == Ok(s4)
  {
    assert [a, b, c, d] == [] + [a] + [b] + [c] + [d];
    RanOne(s, [], s, a);
    RanOne(s, [] + [a], s1, b);
    RanOne(s, [] + [a] + [b], s2, c);
    RanOne(s, [] + [a] + [b] + [c], s3, d);
  }

  /** The loop of a closed channel that is empty ends. */
  lemma LoopEnds(s: Hub, t: Thread, ch: ChanId, pick: SubId)
    requires t in s.threads && s.threads[t] == LoopReceive(ch)
    requires ch in s.chans && s.chans[ch].closed && s.chans[ch].taken == |s.chans[ch].log|
    ensures ActStep(s, t, pick) == Ok(s.(threads := s.threads[t := Idle]))
  {
  }

  // ---------------------------------------------------------------- from emit to reader

  /** The loop of channel ch on thread 0, one subscriber, and nothing sent yet. */
  ghost predicate OneListener(s: Hub, ch: ChanId, board: string) {
    && s.threads == map[0 := LoopReceive(ch), 1 := Idle] && s.writer == None && s.readers == {}
    && s.current == Some(ch) && s.subscribers == Some({1}) && s.returned == {1} && s.leaving == {}
    && ch in s.chans && s.chans[ch].log == [] && s.chans[ch].taken == 0 && s.chans[ch].cap > 0 && !s.chans[ch].closed
    && 1 in s.subs && s.subs[1].board == board && s.subs[1].inbox == [] && s.subs[1].read == 0 && s.subs[1].cap > 0
    && !s.subs[1].doneClosed && !s.subs[1].eventsClosed && s.dropped == 0 && s.lost == {}
  }

  lemma Listening(size: int, board: string, n: int) returns (ch: ChanId, s: Hub)
    ensures Ran(START, Steps(0, CallInit(size), 5) + Steps(1, CallSubscribe(board, n), 4)) == Ok(s)
    ensures OneListener(s, ch, board)
  {
    ch := InitAlone(START, 0, size);
    var s1 := Ran(START, Steps(0, CallInit(size), 5)).hub;
    SubscribeAlone(s1, 1, board, n);
    RanOn(START, Steps(0, CallInit(size), 5), s1, Steps(1, CallSubscribe(board, n), 4));
    s := Ran(s1, Steps(1, CallSubscribe(board, n), 4)).hub;
  }

  /** What the subscriber is given of the event. */
  function Inbox(ch: ChanId, board: string, event: Event): seq<Delivery> {
    if board == "" || board == event.board then [Delivery(ch, 0)] else []
  }

  lemma Hearing(s: Hub, ch: ChanId, board: string, event: Event) returns (s': Hub)
    requires OneListener(s, ch, board)
    ensures Ran(s, Steps(2, CallEmit(event), 2) + [Act(0, 0), Act(0, 0), Act(0, 1), Act(0, 0)]) == Ok(s')
    ensures s'.threads == s.threads[2 := Idle] && s'.subscribers == Some({1}) && s'.writer == None && s'.readers == {}
    ensures s'.returned == {1} && s'.leaving == {} && s'.dropped == 0 && s'.lost == {}
    ensures ch in s'.chans && s'.chans[ch].log == [event] && s'.chans[ch].taken == 1
    ensures 1 in s'.subs && s'.subs[1] == s.subs[1].(inbox := Inbox(ch, board, event))
  {
    EmitAlone(s, 2, event, ch);
    var s1 := Ran(s, Steps(2, CallEmit(event), 2)).hub;
    LoopServes(s1, 0, ch, 1);
    RanOn(s, Steps(2, CallEmit(event), 2), s1, [Act(0, 0), Act(0, 0), Act(0, 1), Act(0, 0)]);
    s' := Ran(s1, [Act(0, 0), Act(0, 0), Act(0, 1), Act(0, 0)]).hub;
  }

  /** The client reads its event, if it has one. */
  lemma Reading(s: Hub, ch: ChanId, board: string, event: Event) returns (picked: seq<Move>, s': Hub)
    requires 1 in s.subs && s.subs[1].inbox == Inbox(ch, board, event) && s.subs[1].read == 0
    ensures Ran(s, picked) == Ok(s')
    ensures s' == s.(subs := s.subs[1 := s.subs[1].(read := |Inbox(ch, board, event)|)])
  {
    picked := [];
    s' := s;
    if Inbox(ch, board, event) == [] {
      assert s.subs[1 := s.subs[1].(read := 0)] == s.subs;
    } else {
      RanOne(s, [], s, ReadOne(1));
      picked, s' := [] + [ReadOne(1)], ReadStep(s, 1).hub;
    }
  }

  lemma Leaving(s: Hub) returns (s': Hub)
    requires s.threads.Keys == {0, 1, 2} && s.writer == None && s.readers == {} && s.subscribers == Some({1})
    requires s.returned == {1} && s.leaving == {} && 1 in s.subs && !s.subs[1].doneClosed && !s.subs[1].eventsClosed
    ensures Ran(s, Steps(3, CallUnsubscribe(1), 4)) == Ok(s')
    ensures s'.subscribers == Some({}) && s'.chans == s.chans && s'.dropped == s.dropped && s'.lost == s.lost
    ensures 1 in s'.subs && s'.subs[1] == s.subs[1].(doneClosed := true, eventsClosed := true)
  {
    UnsubscribeAlone(s, 3, 1);
    assert {1} - {1} == {};
    s' := Ran(s, Steps(3, CallUnsubscribe(1), 4)).hub;
  }

  lemma RanAll(a: seq<Move>, s1: Hub, b: seq<Move>, s2: Hub, c: seq<Move>, s3: Hub, d: seq<Move>, s4: Hub)
    requires Ran(START, a) == Ok(s1) && Ran(s1, b) == Ok(s2) && Ran(s2, c) == Ok(s3) && Ran(s3, d) == Ok(s4)
    ensures Run(a + b + c + d) == Ok(s4)
  {
    RanOn(START, a, s1, b);
    RanOn(START, a + b, s2, c);
    RanOn(START, a + b + c, s3, d);
    RanIsRun(a + b + c + d);
  }

  /** An emitted event arrives: after Init, Subscribe and Emit, each alone, the loop puts it in the
      channel of a subscriber of its board, or of every board, whose client reads it; a subscriber
      of another board gets nothing; and after its Unsubscribe it is gone and closed. */
  lemma EventArrives(size: int, board: string, n: int, event: Event) returns (moves: seq<Move>, ch: ChanId)
    ensures Run(moves).Ok?
    ensures var s := Run(moves).hub;
      && ch in s.chans && s.chans[ch].log == [event] && s.chans[ch].taken == 1 && s.dropped == 0 && s.lost == {}
      && s.subscribers == Some({}) && 1 in s.subs && s.subs[1].doneClosed && s.subs[1].eventsClosed
      && s.subs[1].inbox == (if board == "" || board == event.board then [Delivery(ch, 0)] else [])
      && s.subs[1].read == |s.subs[1].inbox|
  {
    var s1, s2, s3, s4, picked;
    ch, s1 := Listening(size, board, n);
    s2 := Hearing(s1, ch, board, event);
    picked, s3 := Reading(s2, ch, board, event);
    s4 := Leaving(s3);
    var begin := Steps(0, CallInit(size), 5) + Steps(1, CallSubscribe(board, n), 4);
    var hear := Steps(2, CallEmit(event), 2) + [Act(0, 0), Act(0, 0), Act(0, 1), Act(0, 0)];
    RanAll(begin, s1, hear, s2, picked, s3, Steps(3, CallUnsubscribe(1), 4), s4);
    moves := begin + hear + picked + Steps(3, CallUnsubscribe(1), 4);
  }
}
