/** What subscribers receive and what becomes of every event that is not received. */
module SseDelivery {
  import opened Points
  import opened Regions
  import opened SseHub
  import opened SseSafety

  // ---------------------------------------------------------------- order of delivery

  /** An entry names a received event of its broadcast channel that the subscriber wants. */
  ghost predicate Genuine(s: Hub, sub: Subscriber, d: Delivery) {
    && d.chan in s.chans
    && d.index < s.chans[d.chan].taken <= |s.chans[d.chan].log|
    && Wants(sub, s.chans[d.chan].log[d.index])
  }

  /** The entries from one broadcast channel come in its order, none twice. */
  ghost predicate InOrder(inbox: seq<Delivery>) {
    forall i, j :: 0 <= i < j < |inbox| && inbox[i].chan == inbox[j].chan ==> inbox[i].index < inbox[j].index
  }

  ghost predicate Before(inbox: seq<Delivery>, ch: ChanId, index: nat) {
    forall i :: 0 <= i < |inbox| && inbox[i].chan == ch ==> inbox[i].index < index
  }

  ghost predicate GoodInbox(s: Hub, sub: Subscriber) {
    && sub.read <= |sub.inbox| <= sub.read + sub.cap
    && InOrder(sub.inbox)
    && forall i :: 0 <= i < |sub.inbox| ==> Genuine(s, sub, sub.inbox[i])
  }

  ghost predicate Inboxes(s: Hub) {
    forall sub :: sub in s.subs ==> GoodInbox(s, s.subs[sub])
  }

  /** Neither delivered to the subscriber nor lost for it: anything of the channel from `index` on. */
  ghost predicate NotYet(s: Hub, sub: SubId, ch: ChanId, index: nat) {
    && (sub in s.subs ==> Before(s.subs[sub].inbox, ch, index))
    && (forall d :: (sub, d) in s.lost && d.chan == ch ==> d.index < index)
  }

  /** A loop that still has to offer event `index` to a subscriber has offered it only earlier ones. */
  ghost predicate Offers(s: Hub, pc: Pc) {
    && (pc.LoopLock? ==> forall sub :: NotYet(s, sub, pc.ch, pc.index))
    && (pc.LoopSend? ==> forall sub :: sub in pc.todo ==> NotYet(s, sub, pc.ch, pc.index))
  }

  /** Recorded losses are of received events. */
  ghost predicate Losses(s: Hub) {
    forall sub, d :: (sub, d) in s.lost ==> d.chan in s.chans && d.index < s.chans[d.chan].taken
  }

  ghost predicate Delivered(s: Hub) {
    Inboxes(s) && Losses(s) && forall t :: t in s.threads ==> Offers(s, s.threads[t])
  }

  /** Channels only ever grow: what was accepted or received stays so. */
  ghost predicate ChansGrow(s: Hub, s': Hub) {
    forall ch :: ch in s.chans ==>
      && ch in s'.chans && s.chans[ch].taken <= s'.chans[ch].taken
      && s.chans[ch].log <= s'.chans[ch].log
  }

  lemma ActChansGrow(s: Hub, t: Thread, pick: SubId)
    requires ActStep(s, t, pick).Ok?
    ensures ChansGrow(s, ActStep(s, t, pick).hub)
  {
  }

  lemma GoodInboxGrows(s: Hub, s': Hub, sub: Subscriber)
    requires GoodInbox(s, sub) && ChansGrow(s, s') && Bounded(s')
    ensures GoodInbox(s', sub)
  {
  }

  /** What a step does to a subscriber: nothing, a closing, or the delivery a loop makes. */
  lemma ActSubscriber(s: Hub, t: Thread, pick: SubId, sub: SubId)
    requires sub in s.subs && Register(s) && ActStep(s, t, pick).Ok?
    ensures var s' := ActStep(s, t, pick).hub;
      && sub in s'.subs
      && s'.subs[sub].board == s.subs[sub].board && s'.subs[sub].cap == s.subs[sub].cap
        && s'.subs[sub].read == s.subs[sub].read
      && (s'.subs[sub].inbox == s.subs[sub].inbox ||
          (&& s.threads[t].LoopSend? && sub == pick && pick in s.threads[t].todo
           && s.threads[t].ch in s.chans && s.threads[t].index < |s.chans[s.threads[t].ch].log|
           && Wants(s.subs[sub], s.chans[s.threads[t].ch].log[s.threads[t].index])
           && |s.subs[sub].inbox| - s.subs[sub].read < s.subs[sub].cap
           && s'.subs[sub].inbox == s.subs[sub].inbox + [Delivery(s.threads[t].ch, s.threads[t].index)]))
  {
  }

  /** The only new subscriber is one with an empty channel. */
  lemma ActNewSubscriber(s: Hub, t: Thread, pick: SubId, sub: SubId)
    requires ActStep(s, t, pick).Ok? && sub in ActStep(s, t, pick).hub.subs && sub !in s.subs
    ensures ActStep(s, t, pick).hub.subs[sub].inbox == [] && ActStep(s, t, pick).hub.subs[sub].read == 0
  {
  }

  lemma ActInboxes(s: Hub, t: Thread, pick: SubId)
    requires Inv(s) && Delivered(s) && ActStep(s, t, pick).Ok?
    ensures Inboxes(ActStep(s, t, pick).hub)
  {
    var s' := ActStep(s, t, pick).hub;
    ActKeepsInv(s, t, pick);
    ActChansGrow(s, t, pick);
    forall sub | sub in s'.subs
      ensures GoodInbox(s', s'.subs[sub])
    {
      if sub in s.subs {
        ActSubscriber(s, t, pick, sub);
        GoodInboxGrows(s, s', s.subs[sub]);
        assert ThreadOk(s, t) && Offers(s, s.threads[t]);
        if s'.subs[sub].inbox != s.subs[sub].inbox {
          DeliverKeepsGood(s, s', t, sub);
        }
      } else {
        ActNewSubscriber(s, t, pick, sub);
      }
    }
  }

  lemma DeliverKeepsGood(s: Hub, s': Hub, t: Thread, sub: SubId)
    requires sub in s.subs && sub in s'.subs && t in s.threads && s.threads[t].LoopSend? && GoodInbox(s', s.subs[sub])
    requires var pc := s.threads[t];
      && pc.ch in s.chans && pc.index < |s.chans[pc.ch].log| && pc.index + 1 == s.chans[pc.ch].taken
      && Wants(s.subs[sub], s.chans[pc.ch].log[pc.index])
      && Before(s.subs[sub].inbox, pc.ch, pc.index)
      && s'.subs[sub].inbox == s.subs[sub].inbox + [Delivery(pc.ch, pc.index)]
    requires ChansGrow(s, s') && Bounded(s')
    requires s'.subs[sub].board == s.subs[sub].board && s'.subs[sub].cap == s.subs[sub].cap
      && s'.subs[sub].read == s.subs[sub].read
    requires |s.subs[sub].inbox| - s.subs[sub].read < s.subs[sub].cap
    ensures GoodInbox(s', s'.subs[sub])
  {
  }

  /** The only new loss is the one a loop records for the subscriber it is serving. */
  lemma ActLost(s: Hub, t: Thread, pick: SubId)
    requires ActStep(s, t, pick).Ok?
    ensures var s' := ActStep(s, t, pick).hub;
      s'.lost == s.lost ||
      (s.threads[t].LoopSend? && pick in s.threads[t].todo
       && s'.lost == s.lost + {(pick, Delivery(s.threads[t].ch, s.threads[t].index))})
  {
  }

  /** Only the loop of a channel, serving a subscriber, gives it or loses it an event of that channel. */
  lemma NotYetStays(s: Hub, t: Thread, pick: SubId, sub: SubId, ch: ChanId, index: nat)
    requires Register(s) && ActStep(s, t, pick).Ok? && NotYet(s, sub, ch, index)
    requires !(s.threads[t].LoopSend? && s.threads[t].ch == ch && sub == pick && pick in s.threads[t].todo)
    ensures NotYet(ActStep(s, t, pick).hub, sub, ch, index)
  {
    ActLost(s, t, pick);
    if sub in s.subs {
      ActSubscriber(s, t, pick, sub);
    } else if sub in ActStep(s, t, pick).hub.subs {
      ActNewSubscriber(s, t, pick, sub);
    }
  }

  lemma ReceivedNotYet(s: Hub, sub: SubId, ch: ChanId)
    requires Inboxes(s) && Losses(s) && ch in s.chans
    ensures NotYet(s, sub, ch, s.chans[ch].taken)
  {
  }

  /** How a loop gets to hold an event and to go through its subscribers. */
  ghost predicate LoopGoesOn(s: Hub, pc: Pc, pc': Pc, pick: SubId) {
    && (pc'.LoopLock? ==> pc.LoopReceive? && pc'.ch == pc.ch && pc.ch in s.chans && pc'.index == s.chans[pc.ch].taken)
    && (pc'.LoopSend? ==>
        (pc.LoopLock? && pc'.ch == pc.ch && pc'.index == pc.index)
        || (pc.LoopSend? && pc'.ch == pc.ch && pc'.index == pc.index && pc'.todo == pc.todo - {pick}))
  }

  lemma LoopPc(s: Hub, t: Thread, pick: SubId)
    requires t in s.threads && IsLoop(s.threads[t]) && LoopStep(s, t, pick).Ok?
    ensures t in LoopStep(s, t, pick).hub.threads
    ensures LoopGoesOn(s, s.threads[t], LoopStep(s, t, pick).hub.threads[t], pick)
  {
  }

  lemma ActPc(s: Hub, t: Thread, pick: SubId, s': Hub)
    requires ActStep(s, t, pick) == Ok(s') && t in s'.threads
    ensures LoopGoesOn(s, s.threads[t], s'.threads[t], pick)
  {
    ActThreads(s, t, pick);
    if IsLoop(s.threads[t]) {
      LoopPc(s, t, pick);
    }
  }

  lemma ActOffers(s: Hub, t: Thread, pick: SubId, s': Hub)
    requires Register(s) && Delivered(s) && ActStep(s, t, pick) == Ok(s') && t in s'.threads
    ensures Offers(s', s'.threads[t])
  {
    var pc := s'.threads[t];
    ActPc(s, t, pick, s');
    assert Offers(s, s.threads[t]);
    if pc.LoopLock? {
      forall sub
        ensures NotYet(s', sub, pc.ch, pc.index)
      {
        ReceivedNotYet(s, sub, pc.ch);
        NotYetStays(s, t, pick, sub, pc.ch, pc.index);
      }
    } else if pc.LoopSend? {
      forall sub | sub in pc.todo
        ensures NotYet(s', sub, pc.ch, pc.index)
      {
        NotYetStays(s, t, pick, sub, pc.ch, pc.index);
      }
    }
  }

  lemma ActOffersOther(s: Hub, t: Thread, pick: SubId, u: Thread)
    requires Inv(s) && Delivered(s) && ActStep(s, t, pick).Ok? && u in s.threads && u != t
    ensures Offers(ActStep(s, t, pick).hub, s.threads[u])
  {
    var s', pc := ActStep(s, t, pick).hub, s.threads[u];
    AloneApart(s, t, u);
    assert Offers(s, pc);
    if pc.LoopLock? {
      forall sub
        ensures NotYet(s', sub, pc.ch, pc.index)
      {
        NotYetStays(s, t, pick, sub, pc.ch, pc.index);
      }
    } else if pc.LoopSend? {
      forall sub | sub in pc.todo
        ensures NotYet(s', sub, pc.ch, pc.index)
      {
        NotYetStays(s, t, pick, sub, pc.ch, pc.index);
      }
    }
  }

  lemma ActDelivered(s: Hub, t: Thread, pick: SubId)
    requires Inv(s) && Delivered(s) && ActStep(s, t, pick).Ok?
    ensures Delivered(ActStep(s, t, pick).hub)
  {
    var s' := ActStep(s, t, pick).hub;
    ActInboxes(s, t, pick);
    ActLost(s, t, pick);
    ActChansGrow(s, t, pick);
    ActThreads(s, t, pick);
    assert ThreadOk(s, t);
    forall u | u in s'.threads
      ensures Offers(s', s'.threads[u])
    {
      if u == t {
        ActOffers(s, t, pick, s');
      } else {
        ActOffersOther(s, t, pick, u);
      }
    }
  }

  // ---------------------------------------------------------------- nothing gets lost uncounted

  /** A subscriber a loop found listed has the event, does not want it, or its loss is on record. */
  ghost predicate Settled(s: Hub, x: SubId, d: Delivery) {
    && x in s.subs && d.chan in s.chans && d.index < |s.chans[d.chan].log|
    && (Wants(s.subs[x], s.chans[d.chan].log[d.index]) ==> d in s.subs[x].inbox || (x, d) in s.lost)
  }

  /** A loop is still to offer the event to the subscriber. */
  ghost predicate Pending(s: Hub, x: SubId, d: Delivery) {
    exists t :: t in s.threads && s.threads[t].LoopSend?
      && s.threads[t].ch == d.chan && s.threads[t].index == d.index && x in s.threads[t].todo
  }

  ghost predicate AllSettled(s: Hub) {
    forall d, x :: d in s.offered && x in s.offered[d] ==> Settled(s, x, d) || Pending(s, x, d)
  }

  lemma SettledStays(s: Hub, t: Thread, pick: SubId, x: SubId, d: Delivery)
    requires Register(s) && ActStep(s, t, pick).Ok? && Settled(s, x, d)
    ensures Settled(ActStep(s, t, pick).hub, x, d)
  {
    ActSubscriber(s, t, pick, x);
    ActLost(s, t, pick);
    ActChansGrow(s, t, pick);
  }

  /** When a loop serves a subscriber, that settles the event for it. */
  lemma ServingSettles(s: Hub, t: Thread, pick: SubId)
    requires ActStep(s, t, pick).Ok? && s.threads[t].LoopSend? && pick in s.threads[t].todo
    ensures Settled(ActStep(s, t, pick).hub, pick, Delivery(s.threads[t].ch, s.threads[t].index))
  {
  }

  lemma PendingSettles(s: Hub, t: Thread, pick: SubId, x: SubId, d: Delivery)
    requires ActStep(s, t, pick).Ok? && Pending(s, x, d)
    ensures var s' := ActStep(s, t, pick).hub; Settled(s', x, d) || Pending(s', x, d)
  {
    var s' := ActStep(s, t, pick).hub;
    ActThreads(s, t, pick);
    var u :| u in s.threads && s.threads[u].LoopSend?
      && s.threads[u].ch == d.chan && s.threads[u].index == d.index && x in s.threads[u].todo;
    if u == t && x == pick {
      ServingSettles(s, t, pick);
    } else if u == t {
      StillOffering(s, t, pick);
      assert s'.threads[t].LoopSend? && x in s'.threads[t].todo;
    } else {
      assert s'.threads[u] == s.threads[u];
    }
  }

  lemma StillOffering(s: Hub, t: Thread, pick: SubId)
    requires ActStep(s, t, pick).Ok? && s.threads[t].LoopSend? && s.threads[t].todo != {}
    ensures ActStep(s, t, pick).hub.threads[t] == s.threads[t].(todo := s.threads[t].todo - {pick})
  {
  }

  lemma ActOffered(s: Hub, t: Thread, pick: SubId, d: Delivery, x: SubId)
    requires ActStep(s, t, pick).Ok?
    requires d in ActStep(s, t, pick).hub.offered && x in ActStep(s, t, pick).hub.offered[d]
    ensures (d in s.offered && x in s.offered[d]) || Pending(ActStep(s, t, pick).hub, x, d)
  {
    var s' := ActStep(s, t, pick).hub;
    if s.threads[t].LoopLock? && d == Delivery(s.threads[t].ch, s.threads[t].index) {
      assert s'.threads[t].LoopSend? && x in s'.threads[t].todo;
    }
  }

  lemma ActSettled(s: Hub, t: Thread, pick: SubId)
    requires Register(s) && AllSettled(s) && ActStep(s, t, pick).Ok?
    ensures AllSettled(ActStep(s, t, pick).hub)
  {
    var s' := ActStep(s, t, pick).hub;
    forall d, x | d in s'.offered && x in s'.offered[d]
      ensures Settled(s', x, d) || Pending(s', x, d)
    {
      ActOffered(s, t, pick, d, x);
      if d in s.offered && x in s.offered[d] {
        if Settled(s, x, d) {
          SettledStays(s, t, pick, x, d);
        } else {
          PendingSettles(s, t, pick, x, d);
        }
      }
    }
  }

  // ---------------------------------------------------------------- nothing gets lost or delivered unoffered

  /** A loop found the subscriber listed when it came to offer the event. */
  ghost predicate Offered(s: Hub, x: SubId, d: Delivery) {
    d in s.offered && x in s.offered[d]
  }

  /** A recorded loss is of an event offered to the subscriber, wanted by it and not delivered to it. */
  ghost predicate TrueLoss(s: Hub, x: SubId, d: Delivery) {
    && Offered(s, x, d) && x in s.subs && d.chan in s.chans && d.index < |s.chans[d.chan].log|
    && Wants(s.subs[x], s.chans[d.chan].log[d.index]) && d !in s.subs[x].inbox
  }

  ghost predicate TrueLosses(s: Hub) {
    forall x, d :: (x, d) in s.lost ==> TrueLoss(s, x, d)
  }

  ghost predicate TrueDeliveries(s: Hub) {
    forall x, d :: x in s.subs && d in s.subs[x].inbox ==> Offered(s, x, d)
  }

  /** A loop has received the event and is about to look at who is listed. */
  ghost predicate Awaiting(s: Hub, d: Delivery) {
    exists t :: t in s.threads && s.threads[t] == LoopLock(d.chan, d.index)
  }

  /** Only received events have been offered. */
  ghost predicate OfferedAreReceived(s: Hub) {
    forall d :: d in s.offered ==> d.chan in s.chans && d.index < s.chans[d.chan].taken
  }

  /** Every received event has been offered, or a loop is about to offer it. */
  ghost predicate ReceivedAreOffered(s: Hub) {
    forall d: Delivery :: d.chan in s.chans && d.index < s.chans[d.chan].taken ==> d in s.offered || Awaiting(s, d)
  }

  /** What a loop is about to offer is new; whom it still has to serve was listed. */
  ghost predicate LoopTraced(s: Hub, pc: Pc) {
    && (pc.LoopLock? ==> Delivery(pc.ch, pc.index) !in s.offered)
    && (pc.LoopSend? ==> forall x :: x in pc.todo ==> Offered(s, x, Delivery(pc.ch, pc.index)))
  }

  ghost predicate Traced(s: Hub) {
    && TrueLosses(s) && TrueDeliveries(s) && OfferedAreReceived(s) && ReceivedAreOffered(s)
    && forall t :: t in s.threads ==> LoopTraced(s, s.threads[t])
  }

  /** How a step moves the record of offers: a loop enters whom it finds listed, or nothing. */
  lemma ActOfferedMap(s: Hub, t: Thread, pick: SubId)
    requires ActStep(s, t, pick).Ok? && t in ActStep(s, t, pick).hub.threads
    ensures var s' := ActStep(s, t, pick).hub;
      var pc, pc' := s.threads[t], s'.threads[t];
      if pc.LoopLock? then
        && pc'.LoopSend? && pc'.ch == pc.ch && pc'.index == pc.index
        && s'.offered == s.offered[Delivery(pc.ch, pc.index) := pc'.todo]
      else s'.offered == s.offered
  {
    if IsLoop(s.threads[t]) {
    } else {
      OthersOfferNothing(s, t, pick);
    }
  }

  lemma OthersOfferNothing(s: Hub, t: Thread, pick: SubId)
    requires ActStep(s, t, pick).Ok? && !IsLoop(s.threads[t])
    ensures ActStep(s, t, pick).hub.offered == s.offered
  {
  }

  lemma OfferedStays(s: Hub, t: Thread, pick: SubId, x: SubId, d: Delivery)
    requires ActStep(s, t, pick).Ok? && t in ActStep(s, t, pick).hub.threads
    requires LoopTraced(s, s.threads[t]) && Offered(s, x, d)
    ensures Offered(ActStep(s, t, pick).hub, x, d)
  {
    ActOfferedMap(s, t, pick);
  }

  /** How a step moves what has been received: a loop takes one event and holds it, or nothing. */
  lemma ActTaken(s: Hub, t: Thread, pick: SubId, d: Delivery)
    requires ActStep(s, t, pick).Ok? && t in ActStep(s, t, pick).hub.threads
    requires var s' := ActStep(s, t, pick).hub; d.chan in s'.chans && d.index < s'.chans[d.chan].taken
    ensures (d.chan in s.chans && d.index < s.chans[d.chan].taken)
      || (d.chan in s.chans && d.index == s.chans[d.chan].taken
          && s.threads[t] == LoopReceive(d.chan)
          && ActStep(s, t, pick).hub.threads[t] == LoopLock(d.chan, d.index))
  {
  }

  lemma ActOfferedReceived(s: Hub, t: Thread, pick: SubId)
    requires Inv(s) && OfferedAreReceived(s) && ActStep(s, t, pick).Ok?
    ensures OfferedAreReceived(ActStep(s, t, pick).hub)
  {
    ActThreads(s, t, pick);
    ActOfferedMap(s, t, pick);
    ActChansGrow(s, t, pick);
    assert ThreadOk(s, t);
  }

  lemma ActReceived(s: Hub, t: Thread, pick: SubId)
    requires ReceivedAreOffered(s) && ActStep(s, t, pick).Ok?
    ensures ReceivedAreOffered(ActStep(s, t, pick).hub)
  {
    var s' := ActStep(s, t, pick).hub;
    ActThreads(s, t, pick);
    ActOfferedMap(s, t, pick);
    forall d: Delivery | d.chan in s'.chans && d.index < s'.chans[d.chan].taken
      ensures d in s'.offered || Awaiting(s', d)
    {
      ActTaken(s, t, pick, d);
      if d.chan in s.chans && d.index < s.chans[d.chan].taken {
        if d !in s.offered {
          var u :| u in s.threads && s.threads[u] == LoopLock(d.chan, d.index);
          assert u != t ==> s'.threads[u] == s.threads[u];
        }
      }
    }
  }

  lemma ActLoopTraced(s: Hub, t: Thread, pick: SubId, u: Thread)
    requires Inv(s) && Traced(s) && ActStep(s, t, pick).Ok? && u in ActStep(s, t, pick).hub.threads
    ensures LoopTraced(ActStep(s, t, pick).hub, ActStep(s, t, pick).hub.threads[u])
  {
    var s' := ActStep(s, t, pick).hub;
    ActThreads(s, t, pick);
    ActOfferedMap(s, t, pick);
    assert LoopTraced(s, s.threads[t]) && LoopTraced(s, s.threads[u]);
    if u == t {
      ActPc(s, t, pick, s');
    } else {
      AloneApart(s, t, u);
    }
  }

  /** What a delivery or a loss takes: the event is wanted. */
  lemma ActLossIsWanted(s: Hub, t: Thread, pick: SubId)
    requires ActStep(s, t, pick).Ok? && ActStep(s, t, pick).hub.lost != s.lost
    ensures var pc := s.threads[t];
      && pc.LoopSend? && pick in pc.todo && pick in s.subs && pc.ch in s.chans && pc.index < |s.chans[pc.ch].log|
      && Wants(s.subs[pick], s.chans[pc.ch].log[pc.index])
      && ActStep(s, t, pick).hub.lost == s.lost + {(pick, Delivery(pc.ch, pc.index))}
      && ActStep(s, t, pick).hub.subs == s.subs
  {
  }

  lemma TrueLossStays(s: Hub, t: Thread, pick: SubId, x: SubId, d: Delivery)
    requires Register(s) && Delivered(s) && Traced(s) && ActStep(s, t, pick).Ok? && (x, d) in s.lost
    ensures TrueLoss(ActStep(s, t, pick).hub, x, d)
  {
    ActThreads(s, t, pick);
    assert LoopTraced(s, s.threads[t]) && Offers(s, s.threads[t]) && TrueLoss(s, x, d);
    OfferedStays(s, t, pick, x, d);
    ActSubscriber(s, t, pick, x);
    ActChansGrow(s, t, pick);
  }

  lemma ActTrueLosses(s: Hub, t: Thread, pick: SubId)
    requires Register(s) && Delivered(s) && Traced(s) && ActStep(s, t, pick).Ok?
    ensures TrueLosses(ActStep(s, t, pick).hub)
  {
    var s' := ActStep(s, t, pick).hub;
    ActThreads(s, t, pick);
    ActChansGrow(s, t, pick);
    forall x, d | (x, d) in s'.lost
      ensures TrueLoss(s', x, d)
    {
      if (x, d) in s.lost {
        TrueLossStays(s, t, pick, x, d);
      } else {
        ActLossIsWanted(s, t, pick);
        assert LoopTraced(s, s.threads[t]) && Offers(s, s.threads[t]);
        OfferedStays(s, t, pick, x, d);
      }
    }
  }

  lemma ActTrueDeliveries(s: Hub, t: Thread, pick: SubId)
    requires Register(s) && Traced(s) && ActStep(s, t, pick).Ok?
    ensures TrueDeliveries(ActStep(s, t, pick).hub)
  {
    var s' := ActStep(s, t, pick).hub;
    ActThreads(s, t, pick);
    assert LoopTraced(s, s.threads[t]);
    forall x, d | x in s'.subs && d in s'.subs[x].inbox
      ensures Offered(s', x, d)
    {
      if x in s.subs {
        ActSubscriber(s, t, pick, x);
        assert Offered(s, x, d);
        OfferedStays(s, t, pick, x, d);
      } else {
        ActNewSubscriber(s, t, pick, x);
      }
    }
  }

  lemma ActTraced(s: Hub, t: Thread, pick: SubId)
    requires Inv(s) && Delivered(s) && Traced(s) && ActStep(s, t, pick).Ok?
    ensures Traced(ActStep(s, t, pick).hub)
  {
    ActOfferedReceived(s, t, pick);
    ActReceived(s, t, pick);
    ActTrueLosses(s, t, pick);
    ActTrueDeliveries(s, t, pick);
    forall u | u in ActStep(s, t, pick).hub.threads
      ensures LoopTraced(ActStep(s, t, pick).hub, ActStep(s, t, pick).hub.threads[u])
    {
      ActLoopTraced(s, t, pick, u);
    }
  }

  // ---------------------------------------------------------------- the drop counter

  /** Emit calls that have dropped their event and not yet counted it. */
  ghost function Uncounted(s: Hub): set<Thread> {
    set t | t in s.threads && s.threads[t] == EmitCount
  }

  /** The counter is the events the broadcast channel refused plus those subscribers refused. */
  ghost predicate DropsCounted(s: Hub) {
    s.dropped + |Uncounted(s)| == s.busDrops + |s.lost|
  }

  /** How one step moves the counters: not at all, an Emit drop, its counting, or a loop's drop. */
  ghost predicate CountersMove(s: Hub, t: Thread, pick: SubId, s': Hub)
    requires t in s.threads && t in s'.threads
  {
    var before, after := s.threads[t] == EmitCount, s'.threads[t] == EmitCount;
    || (s'.dropped == s.dropped && s'.busDrops == s.busDrops && s'.lost == s.lost && before == after)
    || (s'.dropped == s.dropped && s'.busDrops == s.busDrops + 1 && s'.lost == s.lost && !before && after)
    || (s'.dropped == s.dropped + 1 && s'.busDrops == s.busDrops && s'.lost == s.lost && before && !after)
    || (s'.dropped == s.dropped + 1 && s'.busDrops == s.busDrops && !before && !after
        && s.threads[t].LoopSend? && pick in s.threads[t].todo
        && s'.lost == s.lost + {(pick, Delivery(s.threads[t].ch, s.threads[t].index))})
  }

  lemma EmitCounters(s: Hub, t: Thread, pick: SubId)
    requires t in s.threads && IsEmit(s.threads[t]) && EmitStep(s, t).Ok? && t in EmitStep(s, t).hub.threads
    ensures CountersMove(s, t, pick, EmitStep(s, t).hub)
  {
  }

  lemma LoopCounters(s: Hub, t: Thread, pick: SubId)
    requires t in s.threads && IsLoop(s.threads[t]) && LoopStep(s, t, pick).Ok? && t in LoopStep(s, t, pick).hub.threads
    ensures CountersMove(s, t, pick, LoopStep(s, t, pick).hub)
  {
  }

  lemma InitCounters(s: Hub, t: Thread, pick: SubId)
    requires t in s.threads && IsInit(s.threads[t]) && InitStep(s, t).Ok? && t in InitStep(s, t).hub.threads
    ensures CountersMove(s, t, pick, InitStep(s, t).hub)
  {
  }

  lemma SubscribeCounters(s: Hub, t: Thread, pick: SubId)
    requires t in s.threads && IsSubscribe(s.threads[t]) && SubscribeStep(s, t).Ok?
    requires t in SubscribeStep(s, t).hub.threads
    ensures CountersMove(s, t, pick, SubscribeStep(s, t).hub)
  {
  }

  lemma UnsubscribeCounters(s: Hub, t: Thread, pick: SubId)
    requires t in s.threads && IsUnsubscribe(s.threads[t]) && UnsubscribeStep(s, t).Ok?
    requires t in UnsubscribeStep(s, t).hub.threads
    ensures CountersMove(s, t, pick, UnsubscribeStep(s, t).hub)
  {
  }

  lemma ActCounters(s: Hub, t: Thread, pick: SubId, s': Hub)
    requires ActStep(s, t, pick) == Ok(s') && t in s'.threads
    ensures CountersMove(s, t, pick, s')
  {
    if IsEmit(s.threads[t]) {
      EmitCounters(s, t, pick);
    } else if IsLoop(s.threads[t]) {
      LoopCounters(s, t, pick);
    } else if IsInit(s.threads[t]) {
      InitCounters(s, t, pick);
    } else if IsSubscribe(s.threads[t]) {
      SubscribeCounters(s, t, pick);
    } else {
      UnsubscribeCounters(s, t, pick);
    }
  }

  lemma ActUncounted(s: Hub, t: Thread, s': Hub)
    requires t in s.threads && t in s'.threads && s'.threads == s.threads[t := s'.threads[t]]
    ensures |Uncounted(s')| == |Uncounted(s)|
      - (if s.threads[t] == EmitCount then 1 else 0) + (if s'.threads[t] == EmitCount then 1 else 0)
  {
    var rest := Uncounted(s) - {t};
    assert Uncounted(s) == if s.threads[t] == EmitCount then rest + {t} else rest;
    assert Uncounted(s') == if s'.threads[t] == EmitCount then rest + {t} else rest;
  }

  lemma ActDrops(s: Hub, t: Thread, pick: SubId)
    requires Delivered(s) && DropsCounted(s) && ActStep(s, t, pick).Ok?
    ensures DropsCounted(ActStep(s, t, pick).hub)
  {
    var s' := ActStep(s, t, pick).hub;
    ActThreads(s, t, pick);
    ActCounters(s, t, pick, s');
    ActUncounted(s, t, s');
    assert Offers(s, s.threads[t]);
  }

  // ---------------------------------------------------------------- every run

  ghost predicate Account(s: Hub) {
    Delivered(s) && AllSettled(s) && Traced(s) && DropsCounted(s)
  }

  /** Steps of the environment move no event and no thread. */
  ghost predicate Quiet(s: Hub, s': Hub) {
    && s'.lost == s.lost && s'.offered == s.offered && s'.chans == s.chans
    && s'.dropped == s.dropped && s'.busDrops == s.busDrops
    && s'.subs.Keys == s.subs.Keys
    && (forall sub :: sub in s.subs ==>
        s'.subs[sub].inbox == s.subs[sub].inbox && s'.subs[sub].board == s.subs[sub].board
        && s.subs[sub].cap == s'.subs[sub].cap && s.subs[sub].read <= s'.subs[sub].read <= |s.subs[sub].inbox|)
    && (forall t :: t in s.threads ==> t in s'.threads && s'.threads[t] == s.threads[t])
    && (forall t :: t in s'.threads && t !in s.threads ==> !IsLoop(s'.threads[t]) && s'.threads[t] != EmitCount)
  }

  lemma QuietDelivered(s: Hub, s': Hub)
    requires Delivered(s) && Quiet(s, s') && forall sub :: sub in s.subs ==> s.subs[sub].read <= |s.subs[sub].inbox|
    ensures Delivered(s')
  {
    forall u | u in s'.threads
      ensures Offers(s', s'.threads[u])
    {
      if u in s.threads {
        assert Offers(s, s.threads[u]);
        forall sub, ch, index: nat | NotYet(s, sub, ch, index)
          ensures NotYet(s', sub, ch, index)
        {
        }
      }
    }
    forall sub | sub in s'.subs
      ensures GoodInbox(s', s'.subs[sub])
    {
      assert GoodInbox(s, s.subs[sub]);
      forall i | 0 <= i < |s.subs[sub].inbox|
        ensures Genuine(s', s'.subs[sub], s.subs[sub].inbox[i])
      {
        assert Genuine(s, s.subs[sub], s.subs[sub].inbox[i]);
      }
    }
  }

  lemma QuietTraced(s: Hub, s': Hub)
    requires Traced(s) && Quiet(s, s')
    ensures Traced(s')
  {
    forall d | Awaiting(s, d)
      ensures Awaiting(s', d)
    {
      var t :| t in s.threads && s.threads[t] == LoopLock(d.chan, d.index);
      assert s'.threads[t] == s.threads[t];
    }
    forall x, d | (x, d) in s'.lost
      ensures TrueLoss(s', x, d)
    {
      assert TrueLoss(s, x, d);
    }
    forall u | u in s'.threads
      ensures LoopTraced(s', s'.threads[u])
    {
      assert u in s.threads ==> LoopTraced(s, s.threads[u]);
    }
  }

  lemma QuietAccount(s: Hub, s': Hub)
    requires Account(s) && Quiet(s, s')
    ensures Account(s')
  {
    QuietDelivered(s, s');
    QuietTraced(s, s');
    assert Uncounted(s') == Uncounted(s);
    forall d, x | d in s'.offered && x in s'.offered[d]
      ensures Settled(s', x, d) || Pending(s', x, d)
    {
      if !Settled(s, x, d) {
        var u :| u in s.threads && s.threads[u].LoopSend?
          && s.threads[u].ch == d.chan && s.threads[u].index == d.index && x in s.threads[u].todo;
        assert s'.threads[u] == s.threads[u];
      }
    }
  }

  lemma BeginIsQuiet(s: Hub, t: Thread, call: Call)
    requires Inboxes(s) && BeginStep(s, t, call).Ok?
    ensures Quiet(s, BeginStep(s, t, call).hub)
  {
  }

  lemma ReadIsQuiet(s: Hub, sub: SubId)
    requires Inboxes(s) && ReadStep(s, sub).Ok?
    ensures Quiet(s, ReadStep(s, sub).hub)
  {
  }

  lemma StepAccount(s: Hub, move: Move)
    requires Inv(s) && Account(s) && Step(s, move).Ok?
    ensures Account(Step(s, move).hub)
  {
    match move
    case Begin(t, call) =>
      BeginIsQuiet(s, t, call);
      QuietAccount(s, BeginStep(s, t, call).hub);
    case Act(t, pick) =>
      ActDelivered(s, t, pick);
      ActSettled(s, t, pick);
      ActTraced(s, t, pick);
      ActDrops(s, t, pick);
    case ReadOne(sub) =>
      ReadIsQuiet(s, sub);
      QuietAccount(s, ReadStep(s, sub).hub);
  }

  /** In every run each subscriber's channel holds, for each broadcast channel, events of that
      channel which match its board filter, in order and none twice. Every received event is
      offered to the subscribers then listed, or is about to be; each of them has it, does not
      want it, or its loss is on record, and not two of these; nobody else gets it. The drop
      counter is the broadcast refusals plus those losses. */
  lemma {:induction false} EveryRunAccounts(moves: seq<Move>)
    ensures Run(moves).Ok? && Account(Run(moves).hub)
  {
    NoRunPanics(moves);
    if moves == [] {
      assert Uncounted(START) == {};
    } else {
      var front, move := moves[..|moves| - 1], moves[|moves| - 1];
      EveryRunAccounts(front);
      NoRunPanics(front);
      if Step(Run(front).hub, move).Ok? {
        StepAccount(Run(front).hub, move);
      }
    }
  }
}
