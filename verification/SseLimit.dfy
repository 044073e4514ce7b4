/** The subscriber limit: Subscribe checks the count and inserts in two critical sections, so
    with k calls in flight at once the count can pass the limit by k - 1, and by no more. */
module SseLimit {
  import opened Points
  import opened Regions
  import opened SseHub
  import opened SseSafety

  predicate Passed(pc: Pc) {
    pc.SubscribeMake? || pc.SubscribeMade? || pc.SubscribeLocked?
  }

  /** Subscribe calls that have passed the limit check and are not inserted yet. */
  ghost function Passing(s: Hub): set<Thread> {
    set t | t in s.threads && Passed(s.threads[t])
  }

  /** Subscribe calls under way. */
  ghost function InFlight(s: Hub): set<Thread> {
    set t | t in s.threads && IsSubscribe(s.threads[t])
  }

  ghost predicate WithinLimit(s: Hub, k: nat) {
    && (s.limit == 0 || s.limit == DEFAULT_MAX_SUBSCRIBERS)
    && Count(s) + |Passing(s)| <= DEFAULT_MAX_SUBSCRIBERS - 1 + k
  }

  lemma PassingMoves(s: Hub, t: Thread, s': Hub)
    requires t in s.threads && t in s'.threads && s'.threads == s.threads[t := s'.threads[t]]
    ensures |Passing(s')| == |Passing(s)|
      - (if Passed(s.threads[t]) then 1 else 0) + (if Passed(s'.threads[t]) then 1 else 0)
  {
    var rest := Passing(s) - {t};
    assert Passing(s) == if Passed(s.threads[t]) then rest + {t} else rest;
    assert Passing(s') == if Passed(s'.threads[t]) then rest + {t} else rest;
  }

  /** What a step does to the subscribers map and the limit. */
  ghost predicate MapMoves(s: Hub, pc: Pc, s': Hub) {
    && s'.subscribers == (
       if pc.InitLocked? then Some({})
       else if pc.SubscribeLocked? && s.subscribers.Some? then Some(s.subscribers.value + {pc.sub})
       else if pc.UnsubscribeLocked? && s.subscribers.Some? then Some(s.subscribers.value - {pc.sub})
       else s.subscribers)
    && s'.limit == (if pc.InitLocked? then DEFAULT_MAX_SUBSCRIBERS else s.limit)
  }

  lemma EmitMap(s: Hub, t: Thread)
    requires t in s.threads && IsEmit(s.threads[t]) && EmitStep(s, t).Ok?
    ensures MapMoves(s, s.threads[t], EmitStep(s, t).hub)
  {
  }

  lemma InitMap(s: Hub, t: Thread)
    requires t in s.threads && IsInit(s.threads[t]) && InitStep(s, t).Ok?
    ensures MapMoves(s, s.threads[t], InitStep(s, t).hub)
  {
  }

  lemma LoopMap(s: Hub, t: Thread, pick: SubId)
    requires t in s.threads && IsLoop(s.threads[t]) && LoopStep(s, t, pick).Ok?
    ensures MapMoves(s, s.threads[t], LoopStep(s, t, pick).hub)
  {
  }

  lemma SubscribeMap(s: Hub, t: Thread)
    requires t in s.threads && IsSubscribe(s.threads[t]) && SubscribeStep(s, t).Ok?
    ensures MapMoves(s, s.threads[t], SubscribeStep(s, t).hub)
  {
  }

  lemma UnsubscribeMap(s: Hub, t: Thread)
    requires t in s.threads && IsUnsubscribe(s.threads[t]) && UnsubscribeStep(s, t).Ok?
    ensures MapMoves(s, s.threads[t], UnsubscribeStep(s, t).hub)
  {
  }

  lemma ActMap(s: Hub, t: Thread, pick: SubId, s': Hub)
    requires ActStep(s, t, pick) == Ok(s') && t in s'.threads
    ensures MapMoves(s, s.threads[t], s')
  {
    if IsEmit(s.threads[t]) {
      EmitMap(s, t);
    } else if IsInit(s.threads[t]) {
      InitMap(s, t);
    } else if IsLoop(s.threads[t]) {
      LoopMap(s, t, pick);
    } else if IsSubscribe(s.threads[t]) {
      SubscribeMap(s, t);
    } else {
      UnsubscribeMap(s, t);
    }
  }

  lemma ActLeaves(s: Hub, t: Thread, pick: SubId, s': Hub)
    requires ActStep(s, t, pick) == Ok(s') && t in s'.threads && Passed(s.threads[t])
    ensures !Passed(s'.threads[t]) <==> s.threads[t].SubscribeLocked?
  {
  }

  lemma ActEnters(s: Hub, t: Thread, pick: SubId, s': Hub)
    requires ActStep(s, t, pick) == Ok(s') && t in s'.threads && !Passed(s.threads[t]) && Passed(s'.threads[t])
    ensures s.threads[t].SubscribeStart? && Count(s) < s.limit
  {
    ActThreads(s, t, pick);
    assert IsSubscribe(s.threads[t]);
    assert SubscribeStep(s, t) == Ok(s');
  }

  /** How one step moves the count: the check, an insertion, a deletion, a reset, or nothing. */
  lemma ActCount(s: Hub, t: Thread, pick: SubId, s': Hub)
    requires ActStep(s, t, pick) == Ok(s') && t in s'.threads
    ensures s'.limit == s.limit || s'.limit == DEFAULT_MAX_SUBSCRIBERS
    ensures var before, after := Passed(s.threads[t]), Passed(s'.threads[t]);
      || (before == after && Count(s') <= Count(s))
      || (before && !after && Count(s') <= Count(s) + 1)
      || (!before && after && Count(s') == Count(s) < s.limit)
  {
    ActMap(s, t, pick, s');
    if Passed(s.threads[t]) {
      ActLeaves(s, t, pick, s');
    } else if Passed(s'.threads[t]) {
      ActEnters(s, t, pick, s');
    }
    if s.threads[t].UnsubscribeLocked? && s.subscribers.Some? {
      Smaller(s.subscribers.value - {s.threads[t].sub}, s.subscribers.value);
    }
  }

  lemma ActWithin(s: Hub, t: Thread, pick: SubId, k: nat)
    requires k >= 1 && WithinLimit(s, k) && ActStep(s, t, pick).Ok?
    requires |InFlight(ActStep(s, t, pick).hub)| <= k
    ensures WithinLimit(ActStep(s, t, pick).hub, k)
  {
    var s' := ActStep(s, t, pick).hub;
    ActThreads(s, t, pick);
    ActCount(s, t, pick, s');
    PassingMoves(s, t, s');
    Smaller(Passing(s'), InFlight(s'));
  }

  lemma BeginWithin(s: Hub, t: Thread, call: Call, k: nat)
    requires WithinLimit(s, k) && BeginStep(s, t, call).Ok?
    ensures WithinLimit(BeginStep(s, t, call).hub, k)
  {
    assert Passing(BeginStep(s, t, call).hub) == Passing(s);
  }

  lemma StepWithin(s: Hub, move: Move, k: nat)
    requires k >= 1 && WithinLimit(s, k) && Step(s, move).Ok? && |InFlight(Step(s, move).hub)| <= k
    ensures WithinLimit(Step(s, move).hub, k)
  {
    match move
    case Begin(t, call) => BeginWithin(s, t, call, k);
    case Act(t, pick) => ActWithin(s, t, pick, k);
    case ReadOne(sub) => assert Passing(ReadStep(s, sub).hub) == Passing(s);
  }

  /** At no moment of the run are more than k Subscribe calls under way. */
  ghost predicate AtMostInFlight(moves: seq<Move>, k: nat) {
    forall n :: 0 <= n <= |moves| && Run(moves[..n]).Ok? ==> |InFlight(Run(moves[..n]).hub)| <= k
  }

  /** With at most k Subscribe calls in flight at once there are never more than limit - 1 + k
      subscribers. */
  lemma {:induction false} SubscribersBounded(moves: seq<Move>, k: nat)
    requires k >= 1 && AtMostInFlight(moves, k)
    ensures Run(moves).Ok? && WithinLimit(Run(moves).hub, k)
    ensures Count(Run(moves).hub) <= 99 + k
  {
    NoRunPanics(moves);
    if moves == [] {
      assert Passing(START) == {};
    } else {
      var front, move := moves[..|moves| - 1], moves[|moves| - 1];
      forall n | 0 <= n <= |front| && Run(front[..n]).Ok?
        ensures |InFlight(Run(front[..n]).hub)| <= k
      {
        assert front[..n] == moves[..n];
      }
      SubscribersBounded(front, k);
      NoRunPanics(front);
      var s := Run(front).hub;
      assert moves[..|moves|] == moves;
      if Step(s, move).Ok? {
        StepWithin(s, move, k);
      }
    }
  }

  /** Subscribe calls that do not overlap never pass the limit. */
  lemma SerialSubscribersWithinLimit(moves: seq<Move>)
    requires AtMostInFlight(moves, 1)
    ensures Run(moves).Ok? && Count(Run(moves).hub) <= 100
  {
    SubscribersBounded(moves, 1);
  }

  /** Subscribe on a thread of its own, alone: after the check, the rest of the call. */
  ghost function Finish(s: Hub, t: Thread, board: string, cap: nat): Hub {
    var id := s.nextId + 1;
    At(s, t, Idle).(nextId := id, subs := s.subs[id := Subscriber(board, cap, [], 0, false, false)],
      subscribers := if s.subscribers.Some? then Some(s.subscribers.value + {id}) else None,
      returned := s.returned + {id}, writer := None)
  }

  /** Steps of these threads, one after the other. */
  ghost function ActAll(s: Hub, order: seq<Thread>): Outcome
    decreases |order|
  {
    if order == [] then Ok(s)
    else
      var first := ActStep(s, order[0], 0);
      if first.Ok? then ActAll(first.hub, order[1..]) else first
  }

  lemma {:induction false} ActAllConcat(s: Hub, front: seq<Thread>, rest: seq<Thread>)
    requires ActAll(s, front).Ok?
    ensures ActAll(s, front + rest) == ActAll(ActAll(s, front).hub, rest)
    decreases |front|
  {
    if front == [] {
      assert front + rest == rest;
    } else {
      assert (front + rest)[1..] == front[1..] + rest;
      ActAllConcat(ActStep(s, front[0], 0).hub, front[1..], rest);
    }
  }

  lemma ThreeSteps(s: Hub, t: Thread, s1: Hub, s2: Hub, s3: Hub)
    requires ActStep(s, t, 0) == Ok(s1) && ActStep(s1, t, 0) == Ok(s2) && ActStep(s2, t, 0) == Ok(s3)
    ensures ActAll(s, [t, t, t]) == Ok(s3)
  {
    assert [t, t, t][1..] == [t, t] && [t, t][1..] == [t] && [t][1..] == [];
    assert ActAll(s2, [t]) == Ok(s3);
    assert ActAll(s1, [t, t]) == Ok(s3);
  }

  lemma MakeStep(s: Hub, t: Thread, board: string, cap: nat)
    requires t in s.threads && s.threads[t] == SubscribeMake(board, cap)
    ensures var id := s.nextId + 1;
      ActStep(s, t, 0) == Ok(At(s, t, SubscribeMade(id)).(
        nextId := id, subs := s.subs[id := Subscriber(board, cap, [], 0, false, false)]))
  {
  }

  lemma LockStep(s: Hub, t: Thread, sub: SubId)
    requires t in s.threads && s.threads[t] == SubscribeMade(sub) && LockFree(s)
    ensures ActStep(s, t, 0) == Ok(At(s, t, SubscribeLocked(sub)).(writer := Some(t)))
  {
  }

  lemma InsertStep(s: Hub, t: Thread, sub: SubId)
    requires t in s.threads && s.threads[t] == SubscribeLocked(sub) && s.subscribers.Some?
    ensures ActStep(s, t, 0) == Ok(At(s, t, Idle).(
      subscribers := Some(s.subscribers.value + {sub}), returned := s.returned + {sub}, writer := None))
  {
  }

  lemma FinishIsThreeSteps(s: Hub, t: Thread, board: string, cap: nat)
    requires t in s.threads && s.threads[t] == SubscribeMake(board, cap) && LockFree(s) && s.subscribers.Some?
    ensures ActAll(s, [t, t, t]) == Ok(Finish(s, t, board, cap))
  {
    var id := s.nextId + 1;
    var s1 := At(s, t, SubscribeMade(id)).(
      nextId := id, subs := s.subs[id := Subscriber(board, cap, [], 0, false, false)]);
    var s2 := At(s1, t, SubscribeLocked(id)).(writer := Some(t));
    MakeStep(s, t, board, cap);
    LockStep(s1, t, id);
    InsertStep(s2, t, id);
    assert s2.threads[t := Idle] == s.threads[t := Idle];
    ThreeSteps(s, t, s1, s2, Finish(s, t, board, cap));
  }

  lemma FinishCounts(s: Hub, t1: Thread, t2: Thread, board: string, cap: nat)
    requires Register(s) && s.subscribers.Some?
    ensures Count(Finish(Finish(s, t1, board, cap), t2, board, cap)) == Count(s) + 2
  {
  }

  lemma BothCheck(s: Hub, t1: Thread, t2: Thread, board: string, cap: nat)
    requires t1 in s.threads && s.threads[t1] == SubscribeStart(board, cap)
    requires t2 in s.threads && s.threads[t2] == SubscribeStart(board, cap)
    requires t1 != t2 && s.writer == None && Count(s) < s.limit
    ensures ActAll(s, [t1, t2]) == Ok(At(At(s, t1, SubscribeMake(board, cap)), t2, SubscribeMake(board, cap)))
  {
    assert [t1, t2][1..] == [t2] && [t2][1..] == [];
    var s1 := At(s, t1, SubscribeMake(board, cap));
    assert ActStep(s, t1, 0) == Ok(s1);
    assert ActAll(s1, [t2]) == ActStep(s1, t2, 0);
  }

  lemma BothFinish(s: Hub, t1: Thread, t2: Thread, board: string, cap: nat)
    requires t1 in s.threads && s.threads[t1] == SubscribeMake(board, cap)
    requires t2 in s.threads && s.threads[t2] == SubscribeMake(board, cap)
    requires t1 != t2 && LockFree(s) && s.subscribers.Some?
    ensures ActAll(s, [t1, t1, t1] + [t2, t2, t2]) == Ok(Finish(Finish(s, t1, board, cap), t2, board, cap))
  {
    FinishIsThreeSteps(s, t1, board, cap);
    FinishIsThreeSteps(Finish(s, t1, board, cap), t2, board, cap);
    ActAllConcat(s, [t1, t1, t1], [t2, t2, t2]);
  }

  lemma CheckedCounts(s: Hub, t1: Thread, t2: Thread, board: string, cap: nat)
    requires Register(s) && s.subscribers.Some?
    ensures var checked := At(At(s, t1, SubscribeMake(board, cap)), t2, SubscribeMake(board, cap));
      Count(Finish(Finish(checked, t1, board, cap), t2, board, cap)) == Count(s) + 2
  {
    FinishCounts(At(At(s, t1, SubscribeMake(board, cap)), t2, SubscribeMake(board, cap)), t1, t2, board, cap);
  }

  /** What the two calls come to, as eight steps. */
  lemma OverlappingSteps(s: Hub, t1: Thread, t2: Thread, board: string, cap: nat)
    requires t1 in s.threads && s.threads[t1] == SubscribeStart(board, cap)
    requires t2 in s.threads && s.threads[t2] == SubscribeStart(board, cap)
    requires t1 != t2 && LockFree(s) && Count(s) < s.limit && s.subscribers.Some?
    ensures var checked := At(At(s, t1, SubscribeMake(board, cap)), t2, SubscribeMake(board, cap));
      ActAll(s, [t1, t2] + ([t1, t1, t1] + [t2, t2, t2])) == Ok(Finish(Finish(checked, t1, board, cap), t2, board, cap))
  {
    BothCheck(s, t1, t2, board, cap);
    BothFinish(At(At(s, t1, SubscribeMake(board, cap)), t2, SubscribeMake(board, cap)), t1, t2, board, cap);
    ActAllConcat(s, [t1, t2], [t1, t1, t1] + [t2, t2, t2]);
  }

  lemma BelowLimitIsInstalled(s: Hub)
    requires Inv(s) && Count(s) < s.limit
    ensures Register(s) && s.subscribers.Some?
  {
  }

  /** Two overlapping calls do pass it: both check one below the limit, then both insert. */
  lemma OverlappingCallsPassTheLimit(s: Hub, t1: Thread, t2: Thread, board: string, cap: nat)
    requires Inv(s) && LockFree(s) && t1 != t2
    requires t1 in s.threads && s.threads[t1] == SubscribeStart(board, cap)
    requires t2 in s.threads && s.threads[t2] == SubscribeStart(board, cap)
    requires Count(s) + 1 == s.limit
    ensures var after := ActAll(s, [t1, t2] + ([t1, t1, t1] + [t2, t2, t2]));
      after.Ok? && Count(after.hub) == s.limit + 1
  {
    BelowLimitIsInstalled(s);
    OverlappingSteps(s, t1, t2, board, cap);
    CheckedCounts(s, t1, t2, board, cap);
  }

  // ---------------------------------------------------------------- runs that attain the bound

  /** After these moves the hub is in that state, and at no moment of them were more than k
      Subscribe calls under way. */
  ghost predicate Reached(moves: seq<Move>, k: nat, s: Hub) {
    Run(moves) == Ok(s) && AtMostInFlight(moves, k)
  }

  lemma RunSnoc(moves: seq<Move>, s: Hub, move: Move, s': Hub)
    requires Run(moves) == Ok(s) && Step(s, move) == Ok(s')
    ensures Run(moves + [move]) == Ok(s')
  {
    assert (moves + [move])[..|moves|] == moves;
  }

  lemma InFlightSnoc(moves: seq<Move>, k: nat, last: seq<Move>)
    requires AtMostInFlight(moves, k) && |last| == |moves| + 1 && last[..|moves|] == moves
    requires Run(last).Ok? ==> |InFlight(Run(last).hub)| <= k
    ensures AtMostInFlight(last, k)
  {
    forall n | 0 <= n <= |last| && Run(last[..n]).Ok?
      ensures |InFlight(Run(last[..n]).hub)| <= k
    {
      if n <= |moves| {
        assert last[..n] == moves[..n];
      } else {
        assert last[..n] == last;
      }
    }
  }

  lemma OneMoreMove(moves: seq<Move>, k: nat, s: Hub, move: Move, s': Hub)
    requires Reached(moves, k, s) && Step(s, move) == Ok(s') && |InFlight(s')| <= k
    ensures Reached(moves + [move], k, s')
  {
    RunSnoc(moves, s, move, s');
    InFlightSnoc(moves, k, moves + [move]);
  }

  lemma ReachedInFlight(moves: seq<Move>, k: nat, s: Hub)
    requires Reached(moves, k, s)
    ensures |InFlight(s)| <= k
  {
    assert moves[..|moves|] == moves;
  }

  /** Only a call that begins comes to be in flight. */
  lemma ActInFlight(s: Hub, t: Thread)
    requires ActStep(s, t, 0).Ok?
    ensures |InFlight(ActStep(s, t, 0).hub)| <= |InFlight(s)|
  {
    ActThreads(s, t, 0);
    Smaller(InFlight(ActStep(s, t, 0).hub), InFlight(s));
  }

  /** Steps of threads that have begun can always be added to a run. */
  lemma {:induction false} MoreActs(before: seq<Move>, k: nat, s: Hub, order: seq<Thread>) returns (moves: seq<Move>)
    requires Reached(before, k, s) && ActAll(s, order).Ok?
    ensures Reached(moves, k, ActAll(s, order).hub)
    decreases |order|
  {
    if order == [] {
      moves := before;
    } else {
      ReachedInFlight(before, k, s);
      ActInFlight(s, order[0]);
      OneMoreMove(before, k, s, Act(order[0], 0), ActStep(s, order[0], 0).hub);
      moves := MoreActs(before + [Act(order[0], 0)], k, ActStep(s, order[0], 0).hub, order[1..]);
    }
  }

  lemma {:induction false} Interval(threads: set<Thread>, a: nat, b: nat)
    requires a <= b && forall t :: t in threads ==> a <= t < b
    ensures |threads| <= b - a
    decreases b - a
  {
    if a == b {
      assert threads == {};
    } else {
      Interval(threads - {b - 1}, a, b - 1);
    }
  }

  const PASSED := SubscribeMake("", 10)

  /** Thread 0 is the broadcast loop; the threads from 1 on have ended, those from a on are
      Subscribe calls that have passed the check, and there are none from b on. */
  ghost predicate Lined(threads: map<Thread, Pc>, a: nat, b: nat) {
    && 1 <= a <= b
    && (forall t :: t in threads <==> 0 <= t < b)
    && threads[0].LoopReceive?
    && (forall t :: 0 < t < a ==> threads[t] == Idle)
    && (forall t :: a <= t < b ==> threads[t] == PASSED)
  }

  /** A hub at rest with n subscribers and its threads in that line. */
  ghost predicate Rests(s: Hub, a: nat, b: nat, n: nat) {
    && Lined(s.threads, a, b) && LockFree(s) && s.limit == DEFAULT_MAX_SUBSCRIBERS
    && s.subscribers.Some? && |s.subscribers.value| == n
  }

  /** Init on thread 0, begun on a hub that nothing else has touched. */
  lemma BootSteps() returns (s: Hub)
    ensures var begun := At(START, 0, InitStart(100));
      && Step(START, Begin(0, CallInit(0))) == Ok(begun) && ActAll(begun, [0, 0, 0, 0, 0]) == Ok(s)
    ensures Rests(s, 1, 1, 0)
  {
    var s1 := At(START, 0, InitStart(100));
    var s2 := InitStep(s1, 0).hub;
    var s3 := InitStep(s2, 0).hub;
    var s4 := InitStep(s3, 0).hub;
    var s5 := InitStep(s4, 0).hub;
    s := InitStep(s5, 0).hub;
    assert ActAll(s3, [0, 0, 0]) == Ok(s) by {
      ThreeSteps(s3, 0, s4, s5, s);
    }
    assert ActAll(s2, [0] + [0, 0, 0]) == Ok(s);
    assert ActAll(s1, [0] + [0, 0, 0, 0]) == Ok(s);
  }

  lemma Boot(k: nat) returns (moves: seq<Move>, s: Hub)
    ensures Reached(moves, k, s) && Rests(s, 1, 1, 0)
  {
    s := BootSteps();
    var begun := At(START, 0, InitStart(100));
    assert InFlight(START) == {} && InFlight(begun) == {};
    OneMoreMove([], k, START, Begin(0, CallInit(0)), begun);
    moves := MoreActs([] + [Begin(0, CallInit(0))], k, begun, [0, 0, 0, 0, 0]);
  }

  lemma EnterSteps(s: Hub, a: nat, b: nat, n: nat)
    requires Rests(s, a, b, n) && n < DEFAULT_MAX_SUBSCRIBERS
    ensures var begun := At(s, b, SubscribeStart("", 10));
      && Step(s, Begin(b, CallSubscribe("", 0))) == Ok(begun)
      && ActAll(begun, [b]) == Ok(At(begun, b, PASSED))
    ensures |InFlight(At(s, b, SubscribeStart("", 10)))| <= b + 1 - a
    ensures Rests(At(At(s, b, SubscribeStart("", 10)), b, PASSED), a, b + 1, n)
  {
    var begun := At(s, b, SubscribeStart("", 10));
    assert ActAll(At(begun, b, PASSED), [b][1..]) == Ok(At(begun, b, PASSED));
    Interval(InFlight(begun), a, b + 1);
  }

  /** One more call begins and passes the check. */
  lemma Enter(before: seq<Move>, s: Hub, k: nat, a: nat, b: nat, n: nat) returns (moves: seq<Move>, s': Hub)
    requires Reached(before, k, s) && Rests(s, a, b, n) && n < DEFAULT_MAX_SUBSCRIBERS && b + 1 - a <= k
    ensures Reached(moves, k, s') && Rests(s', a, b + 1, n)
  {
    var begun := At(s, b, SubscribeStart("", 10));
    s' := At(begun, b, PASSED);
    EnterSteps(s, a, b, n);
    OneMoreMove(before, k, s, Begin(b, CallSubscribe("", 0)), begun);
    moves := MoreActs(before + [Begin(b, CallSubscribe("", 0))], k, begun, [b]);
  }

  lemma FinishLine(threads: map<Thread, Pc>, a: nat, b: nat)
    requires Lined(threads, a, b) && a < b
    ensures Lined(threads[a := Idle], a + 1, b)
  {
  }

  lemma FinishRests(s: Hub, a: nat, b: nat, n: nat)
    requires Rests(s, a, b, n) && a < b && Register(s)
    ensures Rests(Finish(s, a, "", 10), a + 1, b, n + 1)
  {
    assert forall sub :: sub in s.subscribers.value ==> Listed(s, sub);
    FinishLine(s.threads, a, b);
  }

  /** The first call in the line is carried to its end. */
  lemma Leave(before: seq<Move>, s: Hub, k: nat, a: nat, b: nat, n: nat) returns (moves: seq<Move>, s': Hub)
    requires Reached(before, k, s) && Rests(s, a, b, n) && a < b
    ensures Reached(moves, k, s') && Rests(s', a + 1, b, n + 1)
  {
    NoRunPanics(before);
    s' := Finish(s, a, "", 10);
    FinishIsThreeSteps(s, a, "", 10);
    FinishRests(s, a, b, n);
    moves := MoreActs(before, k, s, [a, a, a]);
  }

  /** Subscribe calls one after the other. */
  lemma {:induction false} InTurn(k: nat, n: nat) returns (moves: seq<Move>, s: Hub)
    requires k >= 1 && n < DEFAULT_MAX_SUBSCRIBERS
    ensures Reached(moves, k, s) && Rests(s, n + 1, n + 1, n)
  {
    if n == 0 {
      moves, s := Boot(k);
    } else {
      moves, s := InTurn(k, n - 1);
      moves, s := Enter(moves, s, k, n, n, n - 1);
      moves, s := Leave(moves, s, k, n, n + 1, n - 1);
    }
  }

  /** One below the limit, j more calls pass the check. */
  lemma {:induction false} AllEnter(k: nat, j: nat) returns (moves: seq<Move>, s: Hub)
    requires k >= 1 && j <= k
    ensures Reached(moves, k, s)
      && Rests(s, DEFAULT_MAX_SUBSCRIBERS, DEFAULT_MAX_SUBSCRIBERS + j, DEFAULT_MAX_SUBSCRIBERS - 1)
  {
    if j == 0 {
      moves, s := InTurn(k, DEFAULT_MAX_SUBSCRIBERS - 1);
    } else {
      moves, s := AllEnter(k, j - 1);
      moves, s := Enter(moves, s, k, DEFAULT_MAX_SUBSCRIBERS, DEFAULT_MAX_SUBSCRIBERS + j - 1,
                        DEFAULT_MAX_SUBSCRIBERS - 1);
    }
  }

  /** Then j of them are carried to their end. */
  lemma {:induction false} AllLeave(k: nat, j: nat) returns (moves: seq<Move>, s: Hub)
    requires k >= 1 && j <= k
    ensures Reached(moves, k, s)
    ensures Rests(s, DEFAULT_MAX_SUBSCRIBERS + j, DEFAULT_MAX_SUBSCRIBERS + k, DEFAULT_MAX_SUBSCRIBERS - 1 + j)
  {
    if j == 0 {
      moves, s := AllEnter(k, k);
    } else {
      moves, s := AllLeave(k, j - 1);
      moves, s := Leave(moves, s, k, DEFAULT_MAX_SUBSCRIBERS + j - 1, DEFAULT_MAX_SUBSCRIBERS + k,
                        DEFAULT_MAX_SUBSCRIBERS - 2 + j);
    }
  }

  /** The run ends, without a panic, with that many subscribers. */
  ghost predicate EndsWith(moves: seq<Move>, n: nat) {
    Run(moves).Ok? && Count(Run(moves).hub) == n
  }

  /** The bound is attained: for every k there is a run from the start, with at most k Subscribe
      calls in flight at once, that ends with limit - 1 + k subscribers. */
  lemma BoundAttained(k: nat)
    requires k >= 1
    ensures exists moves :: AtMostInFlight(moves, k) && EndsWith(moves, 99 + k)
  {
    var moves, s := AllLeave(k, k);
    assert EndsWith(moves, DEFAULT_MAX_SUBSCRIBERS - 1 + k);
  }

  ghost predicate KeepsLimit(moves: seq<Move>) {
    Run(moves).Ok? && Count(Run(moves).hub) <= 100
  }

  /** So the limit is kept by every run exactly when Subscribe calls never overlap. */
  lemma LimitKeptIff(k: nat)
    ensures (forall moves :: AtMostInFlight(moves, k) ==> KeepsLimit(moves)) <==> k <= 1
  {
    if k <= 1 {
      forall moves | AtMostInFlight(moves, k)
        ensures KeepsLimit(moves)
      {
        SerialSubscribersWithinLimit(moves);
      }
    } else {
      BoundAttained(k);
      var moves :| AtMostInFlight(moves, k) && EndsWith(moves, DEFAULT_MAX_SUBSCRIBERS - 1 + k);
      assert !KeepsLimit(moves);
    }
  }
}
