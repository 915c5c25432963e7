/** The hub's promises about every run, stated on its observable histories. */
module HubTheorems {
  import opened Collections
  import opened HubModel
  import opened HubInvariants
  import opened HubFanout

  // ----- what a loop broadcasts -----

  /** The messages that the upstream of loop `p` handed over in a run, in order. */
  function Received(steps: seq<Step>, p: nat): (r: seq<Payload>)
  {
    if steps == [] then [] else
    var last := steps[|steps| - 1];
    Received(steps[..|steps| - 1], p) +
    if last.LoopStep? && last.p == p && last.lact.Message? then [last.lact.payload] else []
  }

  /** The message that a loop has received and not yet begun to fan out. */
  function Held(f: Feed): (r: seq<Payload>)
  {
    match f.pc
    case AskRead(payload) => [payload]
    case Copying(payload) => [payload]
    case _ => []
  }

  lemma {:induction false} LoopBroadcasts(s: Hub, p: nat, a: LoopAct)
    requires LoopEnabled(s, p, a)
    ensures p < |LoopApply(s, p, a).feeds|
    ensures var f, f' := s.feeds[p], LoopApply(s, p, a).feeds[p];
            f'.log + Held(f') == f.log + Held(f) + if a.Message? then [a.payload] else []
  {
    var f' := LoopApply(s, p, a).feeds[p];
    assert f'.log + [] == f'.log;
  }

  /** Every message is broadcast, once, whole and in order: over any run a loop's broadcasts,
      with the message it holds, if any, are what its upstream handed over. */
  lemma {:induction false} BroadcastsAreMessages(option: int, steps: seq<Step>, s: Hub, p: nat)
    requires Run(Init(option), steps) == Some(s) && p < 2
    ensures p < |s.feeds| && Received(steps, p) == s.feeds[p].log + Held(s.feeds[p])
  {
    if steps != [] {
      var k := |steps| - 1;
      var mid := Run(Init(option), steps[..k]).value;
      BroadcastsAreMessages(option, steps[..k], mid, p);
      if steps[k].LoopStep? && steps[k].p == p {
        LoopBroadcasts(mid, p, steps[k].lact);
      } else {
        OtherFeedSame(mid, steps[k], p);
      }
    }
  }

  // ----- gapless delivery -----

  /** The payloads of the frames that loop `p` put on a channel, in order. */
  function PayloadsFrom(frames: seq<Frame>, p: nat, log: seq<Payload>): (r: seq<Payload>)
  {
    if frames == [] then [] else
    var last := frames[|frames| - 1];
    PayloadsFrom(frames[..|frames| - 1], p, log) + if last.src == p && last.num < |log| then [log[last.num]] else []
  }

  /** The numbers go up from `first` one by one. */
  ghost predicate UpFrom(ns: seq<nat>, first: nat)
  {
    forall x :: 0 <= x < |ns| ==> ns[x] == first + x
  }

  lemma {:induction false} PayloadsOfNums(frames: seq<Frame>, p: nat, log: seq<Payload>, first: nat)
    requires UpFrom(Nums(frames, p), first) && first + |Nums(frames, p)| <= |log|
    ensures PayloadsFrom(frames, p, log) == log[first..first + |Nums(frames, p)|]
  {
    if frames != [] {
      var front, last := frames[..|frames| - 1], frames[|frames| - 1];
      var ns, all := Nums(front, p), Nums(frames, p);
      assert UpFrom(ns, first) by { assert forall x :: 0 <= x < |ns| ==> all[x] == ns[x]; }
      PayloadsOfNums(front, p, log, first);
      if last.src == p {
        assert all[|ns|] == last.num;
        assert log[first..first + |ns| + 1] == log[first..first + |ns|] + [log[first + |ns|]];
      }
    }
  }

  /** Loop `p` is not in the middle of a broadcast. */
  predicate Between(s: Hub, p: nat)
    requires p < |s.feeds|
  {
    var pc := s.feeds[p].pc;
    pc.Test? || pc.Upstream? || pc.Check? || pc.Sleeping? || pc.Ended? || pc.AskRead? || pc.Copying?
  }

  /** Gapless delivery, in every interleaving: what loop `p` enqueued to client `c` is a
      contiguous segment of the messages that the loop received, frame by frame; the segment
      reaches up to the last one fanned out while the client is registered and the loop between
      broadcasts; and what the client was sent is a prefix of everything enqueued to it. */
  lemma {:induction false} GaplessDelivery(option: int, steps: seq<Step>, s: Hub, c: nat, p: nat)
    returns (lo: nat, hi: nat)
    requires Run(Init(option), steps) == Some(s) && c < |s.conns| && p < 2
    ensures lo <= hi <= |Received(steps, p)| && |Nums(s.conns[c].enqueued, p)| == hi - lo
    ensures PayloadsFrom(s.conns[c].enqueued, p, Received(steps, p)) == Received(steps, p)[lo..hi]
    ensures p < |s.feeds| && (c in s.clients && Between(s, p) && lo < hi ==>
              hi == |Received(steps, p)| - |Held(s.feeds[p])|)
    ensures s.conns[c].delivered <= s.conns[c].enqueued
  {
    InitInv(option);
    RunInv(Init(option), steps, s);
    assert GapOk(s, c, p) && QueueOk(s.conns[c], s.capacity);
    var ns := Nums(s.conns[c].enqueued, p);
    lo := if ns == [] then 0 else ns[0];
    hi := lo + |ns|;
    BroadcastsAreMessages(option, steps, s, p);
    PayloadsAt(s.conns[c].enqueued, p, Received(steps, p), lo);
    assert ns != [] ==> ns[|ns| - 1] == hi - 1;
    if Between(s, p) {
      IdleDropsNobody(s, c, p);
    }
  }

  lemma {:induction false} IdleDropsNobody(s: Hub, c: nat, p: nat)
    requires CallsInv(s) && MemberInv(s) && p < |s.feeds| && Between(s, p)
    ensures s.feeds[p].todo == {} && !Dropping(s, p, c)
  {
    assert FeedInv(s, p);
    assert Loop(p) in s.calls ==> CallOk(s, Loop(p));
  }

  // ----- where the segment starts -----

  /** The frames that loop `p` put on the channel of `c` are its broadcasts from number `first` on. */
  ghost predicate StartsAt(s: Hub, c: nat, p: nat, first: nat)
  {
    && Registered(s, c) && p < |s.feeds|
    && var ns, f := Nums(s.conns[c].enqueued, p), s.feeds[p];
       && first <= |f.log|
       && (ns != [] ==> ns[0] == first)
       && (c in f.todo ==> |ns| == |f.log| - 1 - first)
       && (c in s.clients && c !in f.todo && !Dropping(s, p, c) ==> |ns| == |f.log| - first)
  }

  lemma {:induction false} InsertStarts(s: Hub, c: nat, p: nat)
    requires Inv(s) && ReaderEnabled(s, c, Insert) && p < |s.feeds|
    ensures StartsAt(ReaderApply(s, c, Insert), c, p, |s.feeds[p].log|)
  {
    assert ConnOk(s, c) && FeedInv(s, p);
  }

  /** A registered client never enters the fan-out set again. */
  lemma {:induction false} InsertedOnce(s: Hub, step: Step, c: nat)
    requires Enabled(s, step) && Registered(s, c) && c in Apply(s, step).clients
    ensures c in s.clients
  {
    match step
    case CloseStep(t) => CloseFrame(s, t);
    case LoopStep(p, a) => LoopFrame(s, p, a);
    case _ =>
  }

  lemma {:induction false} OfferStartsKept(s: Hub, c: nat, p: nat, first: nat)
    requires LoopEnabled(s, p, Offer(c)) && FeedInv(s, p) && StartsAt(s, c, p, first) && GapOk(s, c, p)
    ensures StartsAt(LoopApply(s, p, Offer(c)), c, p, first)
  {
    var f, k := s.feeds[p], s.conns[c];
    LoopFrame(s, p, Offer(c));
    LoopConnFrame(s, p, Offer(c), c);
    OfferEffect(s, p, c);
    if |k.send| < s.capacity {
      NumsAppend(k.enqueued, Frame(p, |f.log| - 1), p);
    } else {
      assert Victim(LoopApply(s, p, Offer(c)).feeds[p], c);
    }
  }

  lemma {:induction false} LoopStartsKept(s: Hub, c: nat, p: nat, a: LoopAct, first: nat)
    requires LoopEnabled(s, p, a) && FeedInv(s, p) && a != Offer(c) && StartsAt(s, c, p, first)
    ensures StartsAt(LoopApply(s, p, a), c, p, first)
  {
    LoopFrame(s, p, a);
    LoopConnFrame(s, p, a, c);
  }

  /** A step of a close that loop `p` itself is running. */
  lemma {:induction false} DropStartsKept(s: Hub, c: nat, p: nat, first: nat)
    requires Inv(s) && CloseEnabled(s, Loop(p)) && StartsAt(s, c, p, first)
    ensures StartsAt(CloseApply(s, Loop(p)), c, p, first)
  {
    var t := Loop(p);
    CloseFrame(s, t);
    CloseConnFrame(s, t, c);
    CloseCalls(s, t, t);
    if t !in CloseApply(s, t).calls {
      CloseEndsOut(s, t);
    }
  }

  lemma {:induction false} OtherStartsKept(s: Hub, step: Step, c: nat, p: nat, first: nat)
    requires OnceInv(s) && Enabled(s, step) && StartsAt(s, c, p, first) && Actor(step) != Loop(p)
    ensures StartsAt(Apply(s, step), c, p, first)
  {
    OtherEffect(s, step, c, p);
    RegisteredKept(s, step, c);
    if c in Apply(s, step).clients {
      InsertedOnce(s, step, c);
    }
  }

  lemma {:induction false} StartsKept(s: Hub, step: Step, c: nat, p: nat, first: nat)
    requires Inv(s) && Enabled(s, step) && StartsAt(s, c, p, first)
    ensures StartsAt(Apply(s, step), c, p, first)
  {
    assert FeedInv(s, p) && GapOk(s, c, p);
    if step == CloseStep(Loop(p)) {
      DropStartsKept(s, c, p, first);
    } else if step == LoopStep(p, Offer(c)) {
      OfferStartsKept(s, c, p, first);
    } else if step.LoopStep? && step.p == p {
      LoopStartsKept(s, c, p, step.lact, first);
    } else {
      OtherStartsKept(s, step, c, p, first);
    }
  }

  lemma {:induction false} StartsForever(s: Hub, steps: seq<Step>, s': Hub, c: nat, p: nat, first: nat)
    requires Inv(s) && Run(s, steps) == Some(s') && StartsAt(s, c, p, first)
    ensures StartsAt(s', c, p, first)
  {
    if steps != [] {
      var n := |steps| - 1;
      var mid := Run(s, steps[..n]).value;
      RunInv(s, steps[..n], mid);
      StartsForever(s, steps[..n], mid, c, p, first);
      StartsKept(mid, steps[n], c, p, first);
    }
  }

  /** What loop `p` enqueued to client `c` are the messages of `log` from number `first` on,
      one frame each, up to number `last` while the client is registered and the loop
      between broadcasts. */
  ghost predicate ReceivesFrom(s: Hub, c: nat, p: nat, log: seq<Payload>, first: nat, last: nat)
  {
    && c < |s.conns| && p < |s.feeds| && last <= |log|
    && var frames := s.conns[c].enqueued;
       var hi := first + |Nums(frames, p)|;
       && hi <= last && PayloadsFrom(frames, p, log) == log[first..hi]
       && (c in s.clients && Between(s, p) ==> hi == last)
  }

  /** Nothing is missed: in every continuation from its registration on, what loop `p`
      enqueued to the client is exactly the messages that the loop received and had not begun
      to fan out at that moment, in order, up to the last one fanned out while the client is
      registered and the loop between broadcasts. */
  lemma {:induction false} GaplessFromRegistration(option: int, before: seq<Step>, s: Hub, rest: seq<Step>, s': Hub,
                                                   c: nat, p: nat)
    requires Run(Init(option), before) == Some(s) && Run(s, rest) == Some(s') && p < 2
    requires rest != [] && rest[0] == ReaderStep(c, Insert)
    ensures p < |s.feeds| && p < |s'.feeds|
    ensures var msgs := Received(before + rest, p);
            && |Held(s.feeds[p])| <= |Received(before, p)| && |Held(s'.feeds[p])| <= |msgs|
            && ReceivesFrom(s', c, p, msgs, |Received(before, p)| - |Held(s.feeds[p])|, |msgs| - |Held(s'.feeds[p])|)
  {
    BroadcastsAreMessages(option, before, s, p);
    RunJoin(Init(option), before, s, rest);
    BroadcastsAreMessages(option, before + rest, s', p);
    assert Inv(s) by { InitInv(option); RunInv(Init(option), before, s); }
    ReceivesFromInsert(s, rest, s', c, p, Received(before + rest, p));
  }

  lemma {:induction false} ReceivesFromInsert(s: Hub, rest: seq<Step>, s': Hub, c: nat, p: nat, msgs: seq<Payload>)
    requires Inv(s) && Run(s, rest) == Some(s') && rest != [] && rest[0] == ReaderStep(c, Insert)
    requires p < |s.feeds| && p < |s'.feeds| && s'.feeds[p].log <= msgs
    ensures ReceivesFrom(s', c, p, msgs, |s.feeds[p].log|, |s'.feeds[p].log|)
  {
    FirstEnabled(s, rest);
    assert [rest[0]] + rest[1..] == rest;
    RunPrepend(s, rest[0], rest[1..]);
    InsertStarts(s, c, p);
    assert Inv(Apply(s, rest[0])) by { InvKept(s, rest[0]); }
    ReceivesFromThen(Apply(s, rest[0]), rest[1..], s', c, p, |s.feeds[p].log|, msgs);
  }

  lemma {:induction false} FirstEnabled(s: Hub, steps: seq<Step>)
    requires steps != [] && Run(s, steps).Some?
    ensures Enabled(s, steps[0])
  {
    if |steps| > 1 {
      FirstEnabled(s, steps[..|steps| - 1]);
    } else {
      assert steps[..0] == [];
    }
  }

  lemma {:induction false} ReceivesFromThen(s: Hub, steps: seq<Step>, s': Hub, c: nat, p: nat, first: nat,
                                            msgs: seq<Payload>)
    requires Inv(s) && Run(s, steps) == Some(s') && StartsAt(s, c, p, first)
    requires p < |s'.feeds| && s'.feeds[p].log <= msgs
    ensures ReceivesFrom(s', c, p, msgs, first, |s'.feeds[p].log|)
  {
    StartsForever(s, steps, s', c, p, first);
    RunInv(s, steps, s');
    assert GapOk(s', c, p);
    if Between(s', p) { IdleDropsNobody(s', c, p); }
    SegmentFrom(s', c, p, first, msgs);
  }

  lemma {:induction false} SegmentFrom(s: Hub, c: nat, p: nat, first: nat, msgs: seq<Payload>)
    requires StartsAt(s, c, p, first) && GapOk(s, c, p) && s.feeds[p].log <= msgs
    requires Between(s, p) ==> c !in s.feeds[p].todo && !Dropping(s, p, c)
    ensures ReceivesFrom(s, c, p, msgs, first, |s.feeds[p].log|)
  {
    PayloadsAt(s.conns[c].enqueued, p, msgs, first);
  }

  lemma {:induction false} PayloadsAt(frames: seq<Frame>, p: nat, log: seq<Payload>, first: nat)
    requires first <= |log| && Consecutive(Nums(frames, p))
    requires var ns := Nums(frames, p); ns != [] ==> ns[0] == first && ns[|ns| - 1] < |log|
    ensures first + |Nums(frames, p)| <= |log|
    ensures PayloadsFrom(frames, p, log) == log[first..first + |Nums(frames, p)|]
  {
    var ns := Nums(frames, p);
    assert ns != [] ==> ns[|ns| - 1] == first + |ns| - 1;
    PayloadsOfNums(frames, p, log, first);
  }

  // ----- drop accounting -----

  /** The drops counted in a run, as pairs of loop and client, in order. */
  function DropEvents(s: Hub, steps: seq<Step>): (r: seq<(nat, nat)>)
  {
    if steps == [] then [] else
    var n := |steps| - 1;
    DropEvents(s, steps[..n]) +
    match Run(s, steps[..n])
    case None => []
    case Some(mid) =>
      if steps[n].LoopStep? && steps[n].lact == CountDrop && Enabled(mid, steps[n])
      then [(steps[n].p, mid.feeds[steps[n].p].pc.victim)] else []
  }

  lemma {:induction false} DropEventsRecorded(option: int, steps: seq<Step>, s: Hub)
    requires Run(Init(option), steps) == Some(s)
    ensures var events := DropEvents(Init(option), steps);
            && |s.feeds| == 2 && |events| == s.drops
            && (forall x :: 0 <= x < |events| ==> events[x].0 < 2 && events[x].1 in s.feeds[events[x].0].dropped)
            && (forall x, y :: 0 <= x < y < |events| ==> events[x] != events[y])
  {
    if steps != [] {
      var n := |steps| - 1;
      var mid := Run(Init(option), steps[..n]).value;
      var step := steps[n];
      DropEventsRecorded(option, steps[..n], mid);
      InitInv(option);
      RunInv(Init(option), steps[..n], mid);
      SizesKept(mid, step);
      DropRecordKept(mid, step, DropEvents(Init(option), steps[..n]));
    }
  }

  lemma {:induction false} DropRecordKept(s: Hub, step: Step, events: seq<(nat, nat)>)
    requires |s.feeds| == 2 && DropInv(s) && Enabled(s, step) && |events| == s.drops
    requires forall x :: 0 <= x < |events| ==> events[x].0 < 2 && events[x].1 in s.feeds[events[x].0].dropped
    requires forall x, y :: 0 <= x < y < |events| ==> events[x] != events[y]
    ensures var s' := Apply(s, step);
            var now := events +
                if step.LoopStep? && step.lact == CountDrop then [(step.p, s.feeds[step.p].pc.victim)] else [];
            && |s'.feeds| == 2 && |now| == s'.drops
            && (forall x :: 0 <= x < |now| ==> now[x].0 < 2 && now[x].1 in s'.feeds[now[x].0].dropped)
            && (forall x, y :: 0 <= x < y < |now| ==> now[x] != now[y])
  {
    SizesKept(s, step);
    if step.LoopStep? && step.lact == CountDrop {
      assert DropOk(s, step.p, s.feeds[step.p].pc.victim);
      DroppedSame(s, step, 1 - step.p);
    } else {
      DropsSame(s, step);
      DroppedSame(s, step, 0);
      DroppedSame(s, step, 1);
    }
  }

  /** Drop accounting: over a whole run each loop counts at most one drop per client, the
      counter is the number of these events, and so at most twice the number of clients. */
  lemma {:induction false} DropAccounting(option: int, steps: seq<Step>, s: Hub)
    requires Run(Init(option), steps) == Some(s)
    ensures var events := DropEvents(Init(option), steps);
            && s.drops == |events|
            && (forall x, y :: 0 <= x < y < |events| ==> events[x] != events[y])
    ensures s.drops <= 2 * |s.conns|
  {
    DropEventsRecorded(option, steps, s);
    InitInv(option);
    RunInv(Init(option), steps, s);
    forall p: nat | p < 2 ensures |s.feeds[p].dropped| <= |s.conns| {
      assert FeedInv(s, p);
      BelowSize(s.feeds[p].dropped, |s.conns|);
    }
  }

  // ----- when both loops count the same client -----

  /** The loop found the client's channel full: it has counted the drop or is about to. */
  predicate FoundFull(f: Feed, c: nat)
  {
    c in f.dropped || f.pc == DropAsk(c) || f.pc == DropCount(c)
  }

  /** Loop `q` offers a frame to `c` and finds no room. */
  predicate FullOffer(s: Hub, step: Step, c: nat, q: nat)
  {
    step == LoopStep(q, Offer(c)) && Enabled(s, step) && |s.conns[c].send| >= s.capacity
  }

  lemma {:induction false} LoopFoundFull(s: Hub, q: nat, a: LoopAct, c: nat)
    requires LoopEnabled(s, q, a)
    ensures q < |LoopApply(s, q, a).feeds|
    ensures FoundFull(LoopApply(s, q, a).feeds[q], c) <==>
            FoundFull(s.feeds[q], c) || FullOffer(s, LoopStep(q, a), c, q)
  {
  }

  lemma {:induction false} StepFoundFull(s: Hub, step: Step, c: nat, q: nat)
    requires Enabled(s, step) && q < |s.feeds|
    ensures q < |Apply(s, step).feeds|
    ensures FoundFull(Apply(s, step).feeds[q], c) <==> FoundFull(s.feeds[q], c) || FullOffer(s, step, c, q)
  {
    if step.LoopStep? && step.p == q {
      LoopFoundFull(s, q, step.lact, c);
    } else {
      OtherFeedSame(s, step, q);
    }
  }

  /** Step `n` of the run is an offer by loop `q` that finds no room for `c`. */
  ghost predicate FullOfferAt(s: Hub, steps: seq<Step>, n: nat, c: nat, q: nat)
  {
    n < |steps| && Run(s, steps[..n]).Some? && FullOffer(Run(s, steps[..n]).value, steps[n], c, q)
  }

  ghost predicate SomeFullOffer(s: Hub, steps: seq<Step>, c: nat, q: nat)
  {
    exists n :: FullOfferAt(s, steps, n, c, q)
  }

  lemma {:induction false} FullOfferLast(s: Hub, front: seq<Step>, step: Step, mid: Hub, c: nat, q: nat)
    requires Run(s, front) == Some(mid)
    ensures SomeFullOffer(s, front + [step], c, q) <==> SomeFullOffer(s, front, c, q) || FullOffer(mid, step, c, q)
  {
    var steps, k := front + [step], |front|;
    forall n | 0 <= n < k ensures FullOfferAt(s, steps, n, c, q) <==> FullOfferAt(s, front, n, c, q) {
      assert steps[..n] == front[..n];
    }
    assert steps[..k] == front;
    assert FullOfferAt(s, steps, k, c, q) <==> FullOffer(mid, step, c, q);
    if SomeFullOffer(s, front, c, q) {
      var n :| FullOfferAt(s, front, n, c, q);
      assert FullOfferAt(s, steps, n, c, q);
    }
  }

  /** Over a whole run, a loop counts a client, or is about to, if and only if one of its
      offers found the client's channel full. */
  lemma {:induction false} CountedIffFoundFull(option: int, steps: seq<Step>, s: Hub, c: nat, q: nat)
    requires Run(Init(option), steps) == Some(s) && q < 2
    ensures q < |s.feeds|
    ensures FoundFull(s.feeds[q], c) <==> SomeFullOffer(Init(option), steps, c, q)
  {
    if steps != [] {
      var k := |steps| - 1;
      var mid := Run(Init(option), steps[..k]).value;
      CountedIffFoundFull(option, steps[..k], mid, c, q);
      StepFoundFull(mid, steps[k], c, q);
      assert steps[..k] + [steps[k]] == steps;
      FullOfferLast(Init(option), steps[..k], steps[k], mid, c, q);
    }
  }

  /** The client is in the loop's snapshot, or was found full and is not counted yet. */
  predicate Pending(f: Feed, c: nat)
  {
    c in f.todo || f.pc == DropAsk(c) || f.pc == DropCount(c)
  }

  lemma {:induction false} LoopPendingMoves(s: Hub, q: nat, a: LoopAct, c: nat)
    requires LoopEnabled(s, q, a) && a != SnapCopy
    ensures q < |LoopApply(s, q, a).feeds|
    ensures var f, f' := s.feeds[q], LoopApply(s, q, a).feeds[q];
            && (Pending(f', c) ==> Pending(f, c))
            && (c in f'.dropped ==> c in f.dropped || Pending(f, c))
  {
  }

  lemma {:induction false} SettledKept(s: Hub, step: Step, c: nat, q: nat)
    requires OnceInv(s) && Enabled(s, step) && c < |s.conns| && s.conns[c].once == Done && q < |s.feeds|
    requires !Pending(s.feeds[q], c) && c !in s.feeds[q].dropped
    ensures q < |Apply(s, step).feeds|
    ensures !Pending(Apply(s, step).feeds[q], c) && c !in Apply(s, step).feeds[q].dropped
  {
    assert ConnOk(s, c);
    if step.LoopStep? && step.p == q {
      if step.lact != SnapCopy { LoopPendingMoves(s, q, step.lact, c); }
    } else {
      OtherFeedSame(s, step, q);
    }
  }

  /** Once a client's close has completed, a loop that does not hold it in its snapshot
      never counts it, in any continuation. */
  lemma {:induction false} NeverCountedAgain(s: Hub, steps: seq<Step>, s': Hub, c: nat, q: nat)
    requires Inv(s) && Run(s, steps) == Some(s') && c < |s.conns| && s.conns[c].once == Done && q < |s.feeds|
    requires !Pending(s.feeds[q], c) && c !in s.feeds[q].dropped
    ensures q < |s'.feeds| && !Pending(s'.feeds[q], c) && c !in s'.feeds[q].dropped
  {
    if steps != [] {
      var n := |steps| - 1;
      var mid := Run(s, steps[..n]).value;
      NeverCountedAgain(s, steps[..n], mid, c, q);
      RunInv(s, steps[..n], mid);
      DoneForever(s, steps[..n], mid, c);
      SettledKept(mid, steps[n], c, q);
    }
  }

  /** Nobody empties the channel any more, and it is full. */
  predicate Stuck(s: Hub, c: nat)
  {
    c < |s.conns| && s.conns[c].pump == Stopped && |s.conns[c].send| >= s.capacity
  }

  lemma {:induction false} StuckKept(s: Hub, step: Step, c: nat)
    requires OnceInv(s) && Enabled(s, step) && Stuck(s, c)
    ensures Stuck(Apply(s, step), c)
  {
    assert ConnOk(s, c);
    CapacitySame(s, step);
    match step
    case CloseStep(t) => CloseConnFrame(s, t, c);
    case LoopStep(p, a) => LoopConnFrame(s, p, a, c);
    case _ =>
  }

  /** The loop has counted the client or cannot but count it. */
  predicate Owed(s: Hub, c: nat, q: nat)
  {
    q < |s.feeds| && (FoundFull(s.feeds[q], c) || (c in s.feeds[q].todo && Stuck(s, c)))
  }

  lemma {:induction false} LoopOwedKept(s: Hub, c: nat, q: nat, a: LoopAct)
    requires LoopEnabled(s, q, a) && FeedInv(s, q) && Owed(s, c, q)
    ensures q < |LoopApply(s, q, a).feeds|
    ensures var f := LoopApply(s, q, a).feeds[q];
            FoundFull(f, c) || (c in f.todo && Stuck(s, c))
  {
  }

  lemma {:induction false} OwedKept(s: Hub, step: Step, c: nat, q: nat)
    requires Inv(s) && Enabled(s, step) && Owed(s, c, q)
    ensures Owed(Apply(s, step), c, q)
  {
    if Stuck(s, c) { StuckKept(s, step, c); }
    if step.LoopStep? && step.p == q {
      assert FeedInv(s, q);
      LoopOwedKept(s, c, q, step.lact);
    } else {
      OtherFeedSame(s, step, q);
    }
  }

  lemma {:induction false} OwedForever(s: Hub, steps: seq<Step>, s': Hub, c: nat, q: nat)
    requires Inv(s) && Run(s, steps) == Some(s') && Owed(s, c, q)
    ensures Owed(s', c, q)
  {
    if steps != [] {
      var n := |steps| - 1;
      var mid := Run(s, steps[..n]).value;
      RunInv(s, steps[..n], mid);
      OwedForever(s, steps[..n], mid, c, q);
      OwedKept(mid, steps[n], c, q);
    }
  }

  /** When a second drop of a client is counted.  Its close has completed and loop `q` has not
      counted it: when the loop is next between broadcasts, and ever after, it has if and
      only if it still held the client in its snapshot or had found its channel full.  An
      entry of the snapshot decides it because the channel is full and its pump gone. */
  lemma {:induction false} CountedAgainIffPending(option: int, s: Hub, steps: seq<Step>, s': Hub, c: nat, q: nat)
    requires Reachable(option, s) && Run(s, steps) == Some(s')
    requires c < |s.conns| && s.conns[c].once == Done && q < |s.feeds| && c !in s.feeds[q].dropped
    requires c in s.feeds[q].todo ==> Stuck(s, c)
    requires q < |s'.feeds| && Between(s', q)
    ensures c in s'.feeds[q].dropped <==> Pending(s.feeds[q], c)
  {
    ReachableInv(option, s);
    if Pending(s.feeds[q], c) {
      OwedForever(s, steps, s', c, q);
      RunInv(s, steps, s');
      IdleDropsNobody(s', c, q);
    } else {
      NeverCountedAgain(s, steps, s', c, q);
    }
  }

  // ----- conservation -----

  /** Fan-out conservation at every reachable state: each snapshot entry processed so far
      was either enqueued or counted as a drop, the counter of sends is the number of frames
      enqueued to all clients, and each client's frames are those its pump took followed by
      those still in its buffer, which never exceeds its capacity. */
  lemma {:induction false} FanoutConservation(option: int, s: Hub)
    requires Reachable(option, s)
    ensures |s.feeds| == 2
    ensures s.sends + s.drops ==
            (s.feeds[0].offered - Outstanding(s.feeds[0])) + (s.feeds[1].offered - Outstanding(s.feeds[1]))
    ensures s.sends == Sum(Lengths(s.conns))
    ensures s.capacity == if option <= 0 then 256 else option
    ensures forall c :: 0 <= c < |s.conns| ==>
              s.conns[c].enqueued == s.conns[c].taken + s.conns[c].send && |s.conns[c].send| <= s.capacity
  {
    ReachableInv(option, s);
    var steps :| Run(Init(option), steps) == Some(s);
    CapacityForever(Init(option), steps, s);
    forall c | 0 <= c < |s.conns|
      ensures s.conns[c].enqueued == s.conns[c].taken + s.conns[c].send && |s.conns[c].send| <= s.capacity
    {
      assert QueueOk(s.conns[c], s.capacity);
    }
  }

  lemma {:induction false} CapacityForever(s: Hub, steps: seq<Step>, s': Hub)
    requires Run(s, steps) == Some(s')
    ensures s'.capacity == s.capacity
  {
    if steps != [] {
      var n := |steps| - 1;
      var mid := Run(s, steps[..n]).value;
      CapacityForever(s, steps[..n], mid);
      CapacitySame(mid, steps[n]);
    }
  }

  /** How many frames each client was sent. */
  function Deliveries(conns: seq<Conn>): (ns: seq<nat>)
    ensures |ns| == |conns|
  {
    seq(|conns|, i requires 0 <= i < |conns| => |conns[i].delivered|)
  }

  /** The counter of sends is never below the number of frames delivered, and it is that
      number if and only if no channel holds a frame and no pump took one that it did not
      write. */
  lemma {:induction false} SendsAreDeliveries(option: int, s: Hub)
    requires Reachable(option, s)
    ensures Sum(Deliveries(s.conns)) <= s.sends
    ensures Sum(Deliveries(s.conns)) == s.sends <==>
            forall c :: 0 <= c < |s.conns| ==> s.conns[c].send == [] && s.conns[c].taken == s.conns[c].delivered
  {
    ReachableInv(option, s);
    var sent, queued := Deliveries(s.conns), Lengths(s.conns);
    forall c | 0 <= c < |s.conns|
      ensures sent[c] <= queued[c]
      ensures sent[c] == queued[c] <==> s.conns[c].send == [] && s.conns[c].taken == s.conns[c].delivered
    {
      DeliveredOfQueue(s.conns[c], s.capacity);
    }
    SumBelow(sent, queued);
    assert sent == queued <==> forall c :: 0 <= c < |s.conns| ==> sent[c] == queued[c];
  }

  lemma {:induction false} DeliveredOfQueue(k: Conn, capacity: nat)
    requires QueueOk(k, capacity)
    ensures |k.delivered| <= |k.enqueued|
    ensures |k.delivered| == |k.enqueued| <==> k.send == [] && k.taken == k.delivered
  {
    assert k.delivered <= k.taken;
  }

  // ----- a close is final -----

  lemma {:induction false} DoneForever(s: Hub, steps: seq<Step>, s': Hub, c: nat)
    requires Run(s, steps) == Some(s') && c < |s.conns| && s.conns[c].once == Done
    ensures c < |s'.conns| && s'.conns[c].once == Done
  {
    if steps != [] {
      var n := |steps| - 1;
      var mid := Run(s, steps[..n]).value;
      DoneForever(s, steps[..n], mid, c);
      DoneStays(mid, steps[n], c);
    }
  }

  /** No resurrection and no channel panic: from the moment its close has completed, in
      every continuation of the run the client is closed, hung up and out of the fan-out set, and
      no call of `close` gets past its entry, so that `closed` is never closed a second time. */
  lemma {:induction false} NoResurrection(option: int, s: Hub, steps: seq<Step>, s': Hub, c: nat)
    requires Reachable(option, s) && Run(s, steps) == Some(s')
    requires c < |s.conns| && s.conns[c].once == Done
    ensures c < |s'.conns| && s'.conns[c].closed && s'.conns[c].hungUp && c !in s'.clients
    ensures forall t :: t in s'.calls && s'.calls[t].client == c ==> s'.calls[t].stage == Enter
  {
    ReachableInv(option, s);
    RunInv(s, steps, s');
    DoneForever(s, steps, s', c);
    assert ConnOk(s', c);
    forall t | t in s'.calls && s'.calls[t].client == c ensures s'.calls[t].stage == Enter { assert RunnerOk(s', t); }
  }

  /** When any call of `close` returns, whoever made it and whoever did the work, the
      client is closed, hung up and unregistered, and its once is done. */
  lemma {:induction false} CloseReturnsUnregistered(option: int, s: Hub, t: Tid)
    requires Reachable(option, s) && CloseEnabled(s, t) && t !in CloseApply(s, t).calls
    ensures s.calls[t].client !in CloseApply(s, t).clients
    ensures var k := CloseApply(s, t).conns[s.calls[t].client];
            k.once == Done && k.closed && k.hungUp
  {
    ReachableInv(option, s);
    CloseEndsOut(s, t);
    InvKept(s, CloseStep(t));
    assert ConnOk(CloseApply(s, t), s.calls[t].client);
  }

  /** `mu` works: between a write of the client map and its unlock nobody else has the
      lock, for reading or for writing. */
  lemma {:induction false} MutualExclusion(option: int, s: Hub, t: Tid, u: Tid)
    requires Reachable(option, s) && Wrote(s, t)
    ensures !InRead(s, u)
    ensures InWrite(s, u) ==> u == t
  {
    ReachableInv(option, s);
    assert LockOk(s, t) && LockOk(s, u);
  }
}
