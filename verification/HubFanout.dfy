/** The fan-out promises of the hub, for every interleaving: gapless delivery, drop
    accounting, conservation, and a close that happens once and for good. */
module HubFanout {
  import opened Collections
  import opened HubModel
  import opened HubInvariants

  // ----- gapless fan-out is kept -----

  lemma {:induction false} NumsAppend(frames: seq<Frame>, f: Frame, p: nat)
    ensures Nums(frames + [f], p) == Nums(frames, p) + if f.src == p then [f.num] else []
  {
    assert (frames + [f])[..|frames|] == frames;
  }

  /** A step of its own loop. */
  lemma {:induction false} OwnGapKept(s: Hub, p: nat, a: LoopAct, c: nat)
    requires LoopEnabled(s, p, a) && FeedInv(s, p) && c < |s.conns| && GapOk(s, c, p) && a != Offer(c)
    ensures GapOk(LoopApply(s, p, a), c, p)
  {
    LoopFrame(s, p, a);
    LoopConnFrame(s, p, a, c);
  }

  /** What an offer does to its client and its loop. */
  lemma {:induction false} OfferEffect(s: Hub, p: nat, c: nat)
    requires LoopEnabled(s, p, Offer(c)) && |s.feeds[p].log| >= 1
    ensures var s', f, k := LoopApply(s, p, Offer(c)), s.feeds[p], s.conns[c];
            if |k.send| < s.capacity then
              && s'.feeds[p] == f.(todo := f.todo - {c}) && c < |s'.conns|
              && s'.conns[c].enqueued == k.enqueued + [Frame(p, |f.log| - 1)]
            else
              s'.feeds[p] == f.(todo := f.todo - {c}, pc := DropAsk(c)) && s'.conns == s.conns
  {
  }

  lemma {:induction false} OfferGapKept(s: Hub, p: nat, c: nat)
    requires LoopEnabled(s, p, Offer(c)) && FeedInv(s, p) && GapOk(s, c, p)
    ensures c < |LoopApply(s, p, Offer(c)).conns| && GapOk(LoopApply(s, p, Offer(c)), c, p)
  {
    var s', f, k := LoopApply(s, p, Offer(c)), s.feeds[p], s.conns[c];
    OfferEffect(s, p, c);
    if |k.send| < s.capacity {
      NumsAppend(k.enqueued, Frame(p, |f.log| - 1), p);
    } else {
      assert Victim(s'.feeds[p], c);
    }
  }

  /** What other threads may do to the frames, the set of clients and the drops of loop `p`. */
  ghost predicate Undisturbed(s: Hub, s': Hub, c: nat, p: nat)
    requires c < |s.conns| && p < |s.feeds|
  {
    && c < |s'.conns| && p < |s'.feeds|
    && Nums(s'.conns[c].enqueued, p) == Nums(s.conns[c].enqueued, p)
    && s'.feeds[p] == s.feeds[p].(residue := s'.feeds[p].residue)
    && (c in s'.clients ==> c in s.clients || s.conns[c].enqueued == [])
    && (Dropping(s', p, c) <==> Dropping(s, p, c))
  }

  lemma {:induction false} CloseEffect(s: Hub, t: Tid, c: nat, p: nat)
    requires CloseEnabled(s, t) && c < |s.conns| && p < |s.feeds| && t != Loop(p)
    ensures Undisturbed(s, CloseApply(s, t), c, p)
  {
    CloseFrame(s, t);
    CloseConnFrame(s, t, c);
    CloseCalls(s, t, Loop(p));
  }

  lemma {:induction false} LoopEffect(s: Hub, q: nat, a: LoopAct, c: nat, p: nat)
    requires LoopEnabled(s, q, a) && c < |s.conns| && p < |s.feeds| && p != q
    ensures Undisturbed(s, LoopApply(s, q, a), c, p)
  {
    LoopFrame(s, q, a);
    LoopHistory(s, q, a, c, p);
    assert Loop(p) != Loop(q);
  }

  lemma {:induction false} ReaderEffect(s: Hub, d: nat, a: ReaderAct, c: nat, p: nat)
    requires OnceInv(s) && ReaderEnabled(s, d, a) && c < |s.conns| && p < |s.feeds|
    ensures Undisturbed(s, ReaderApply(s, d, a), c, p)
  {
    assert ConnOk(s, c);
  }

  lemma {:induction false} PumpEffect(s: Hub, d: nat, a: PumpAct, c: nat, p: nat)
    requires PumpEnabled(s, d, a) && c < |s.conns| && p < |s.feeds|
    ensures Undisturbed(s, PumpApply(s, d, a), c, p)
  {
  }

  lemma {:induction false} StopEffect(s: Hub, a: StopAct, c: nat, p: nat)
    requires StopEnabled(s, a) && c < |s.conns| && p < |s.feeds|
    ensures Undisturbed(s, StopApply(s, a), c, p)
  {
  }

  lemma {:induction false} OtherEffect(s: Hub, step: Step, c: nat, p: nat)
    requires OnceInv(s) && Enabled(s, step) && c < |s.conns| && p < |s.feeds| && Actor(step) != Loop(p)
    ensures Undisturbed(s, Apply(s, step), c, p)
  {
    match step
    case ReaderStep(d, a) => ReaderEffect(s, d, a, c, p);
    case PumpStep(d, a) => PumpEffect(s, d, a, c, p);
    case CloseStep(t) => CloseEffect(s, t, c, p);
    case LoopStep(q, a) => LoopEffect(s, q, a, c, p);
    case StopStep(a) => StopEffect(s, a, c, p);
    case Arrive =>
  }

  lemma {:induction false} LoopHistory(s: Hub, q: nat, a: LoopAct, c: nat, p: nat)
    requires LoopEnabled(s, q, a) && c < |s.conns| && p != q
    ensures var s' := LoopApply(s, q, a);
            |s'.conns| == |s.conns| && Nums(s'.conns[c].enqueued, p) == Nums(s.conns[c].enqueued, p)
  {
    LoopConnFrame(s, q, a, c);
    if a == Offer(c) {
      var f := s.feeds[q];
      NumsAppend(s.conns[c].enqueued, Frame(q, if |f.log| == 0 then 0 else |f.log| - 1), p);
    }
  }

  lemma {:induction false} OtherGapKept(s: Hub, step: Step, c: nat, p: nat)
    requires OnceInv(s) && Enabled(s, step) && c < |s.conns| && p < |s.feeds| && Actor(step) != Loop(p)
    requires GapOk(s, c, p)
    ensures p < |Apply(s, step).feeds| && c < |Apply(s, step).conns| && GapOk(Apply(s, step), c, p)
  {
    OtherEffect(s, step, c, p);
  }

  /** A step of a close that loop `p` itself is running. */
  lemma {:induction false} DropGapKept(s: Hub, p: nat, c: nat)
    requires CallsInv(s) && OnceInv(s) && CloseEnabled(s, Loop(p)) && c < |s.conns| && p < |s.feeds| && GapOk(s, c, p)
    ensures c < |CloseApply(s, Loop(p)).conns| && p < |CloseApply(s, Loop(p)).feeds|
    ensures GapOk(CloseApply(s, Loop(p)), c, p)
  {
    var t := Loop(p);
    CloseFrame(s, t);
    CloseConnFrame(s, t, c);
    CloseCalls(s, t, t);
    if t !in CloseApply(s, t).calls {
      CloseEndsOut(s, t);
    }
  }

  /** When a call of `close` returns, its client is closed for good and out of the set. */
  lemma {:induction false} CloseEndsOut(s: Hub, t: Tid)
    requires CallsInv(s) && OnceInv(s) && CloseEnabled(s, t) && t !in CloseApply(s, t).calls
    ensures s.calls[t].client !in CloseApply(s, t).clients
    ensures CloseApply(s, t).conns[s.calls[t].client].once == Done
  {
    assert CallOk(s, t) && RunnerOk(s, t);
    assert ConnOk(s, s.calls[t].client);
  }

  lemma {:induction false} GapKeptAt(s: Hub, step: Step, c: nat, p: nat)
    requires CallsInv(s) && MemberInv(s) && OnceInv(s) && GapInv(s) && Enabled(s, step)
    requires c < |s.conns| && p < |s.feeds|
    ensures c < |Apply(s, step).conns| && p < |Apply(s, step).feeds| && GapOk(Apply(s, step), c, p)
  {
    assert GapOk(s, c, p) && FeedInv(s, p);
    if step == CloseStep(Loop(p)) {
      DropGapKept(s, p, c);
    } else if step == LoopStep(p, Offer(c)) {
      OfferGapKept(s, p, c);
    } else if step.LoopStep? && step.p == p {
      LoopConnFrame(s, p, step.lact, c);
      OwnGapKept(s, p, step.lact, c);
    } else {
      OtherGapKept(s, step, c, p);
    }
  }

  lemma {:induction false} GapKept(s: Hub, step: Step)
    requires CallsInv(s) && MemberInv(s) && OnceInv(s) && GapInv(s) && Enabled(s, step)
    ensures GapInv(Apply(s, step))
  {
    var s' := Apply(s, step);
    SizesKept(s, step);
    forall c: nat, p: nat | c < |s'.conns| && p < |s'.feeds|
      ensures GapOk(s', c, p)
    {
      if c < |s.conns| {
        GapKeptAt(s, step, c, p);
      }
    }
  }

  /** Connections are only added, untouched, and the loops stay two. */
  lemma {:induction false} SizesKept(s: Hub, step: Step)
    requires |s.feeds| == 2 && Enabled(s, step)
    ensures var s' := Apply(s, step);
            && |s'.feeds| == 2
            && |s'.conns| == |s.conns| + (if step.Arrive? then 1 else 0)
            && (step.Arrive? ==> s'.conns[|s.conns|] == NEW_CONN)
  {
    match step
    case CloseStep(t) => CloseFrame(s, t);
    case LoopStep(p, a) => LoopFrame(s, p, a);
    case _ =>
  }

  // ----- drops are kept -----

  /** A finished close stays finished. */
  lemma {:induction false} DoneStays(s: Hub, step: Step, c: nat)
    requires Enabled(s, step) && c < |s.conns| && s.conns[c].once == Done
    ensures c < |Apply(s, step).conns| && Apply(s, step).conns[c].once == Done
  {
    match step
    case CloseStep(t) => CloseConnFrame(s, t, c);
    case _ => OnceSame(s, step, c);
  }

  lemma {:induction false} OwnDropKept(s: Hub, p: nat, a: LoopAct, c: nat)
    requires LoopEnabled(s, p, a) && FeedInv(s, p) && DropOk(s, p, c)
    ensures p < |LoopApply(s, p, a).feeds| && DropOk(LoopApply(s, p, a), p, c)
  {
    var f := s.feeds[p];
    LoopFrame(s, p, a);
    if c < |s.conns| {
      LoopConnFrame(s, p, a, c);
    }
    if a == CountDrop {
      assert Victim(f, f.pc.victim);
    } else {
      LoopDroppedSame(s, p, a);
    }
  }

  lemma {:induction false} DropKeptAt(s: Hub, step: Step, p: nat, c: nat)
    requires CallsInv(s) && MemberInv(s) && OnceInv(s) && DropInv(s) && Enabled(s, step) && p < |s.feeds|
    ensures p < |Apply(s, step).feeds| && DropOk(Apply(s, step), p, c)
  {
    SizesKept(s, step);
    assert DropOk(s, p, c) && FeedInv(s, p);
    if step.LoopStep? && step.p == p {
      OwnDropKept(s, p, step.lact, c);
    } else if c in s.feeds[p].dropped {
      if s.conns[c].once == Done {
        DoneStays(s, step, c);
      }
      if step == CloseStep(Loop(p)) {
        CloseFrame(s, Loop(p));
        CloseCalls(s, Loop(p), Loop(p));
        CloseConnFrame(s, Loop(p), c);
        if Loop(p) !in CloseApply(s, Loop(p)).calls {
          CloseEndsOut(s, Loop(p));
        }
      } else {
        OtherEffect(s, step, c, p);
      }
    } else {
      DroppedSame(s, step, p);
    }
  }

  /** Only the loop itself adds to its counted drops. */
  lemma {:induction false} DroppedSame(s: Hub, step: Step, p: nat)
    requires Enabled(s, step) && p < |s.feeds| && !(step.LoopStep? && step.p == p && step.lact == CountDrop)
    ensures p < |Apply(s, step).feeds| && Apply(s, step).feeds[p].dropped == s.feeds[p].dropped
  {
    match step
    case CloseStep(t) => CloseFrame(s, t);
    case LoopStep(q, a) =>
      if q != p { LoopFrame(s, q, a); } else { LoopDroppedSame(s, p, a); }
    case _ =>
  }

  lemma {:induction false} LoopDroppedSame(s: Hub, p: nat, a: LoopAct)
    requires LoopEnabled(s, p, a) && a != CountDrop
    ensures p < |LoopApply(s, p, a).feeds| && LoopApply(s, p, a).feeds[p].dropped == s.feeds[p].dropped
  {
  }

  lemma {:induction false} DropsCounted(s: Hub, step: Step)
    requires MemberInv(s) && DropInv(s) && Enabled(s, step)
    ensures var s' := Apply(s, step);
            |s'.feeds| == 2 && s'.drops == |s'.feeds[0].dropped| + |s'.feeds[1].dropped|
  {
    SizesKept(s, step);
    if step.LoopStep? && step.lact == CountDrop {
      var p, victim := step.p, s.feeds[step.p].pc.victim;
      assert DropOk(s, p, victim);
      DroppedSame(s, step, 1 - p);
    } else {
      DroppedSame(s, step, 0);
      DroppedSame(s, step, 1);
      DropsSame(s, step);
    }
  }

  lemma {:induction false} DropsSame(s: Hub, step: Step)
    requires Enabled(s, step) && !(step.LoopStep? && step.lact == CountDrop)
    ensures Apply(s, step).drops == s.drops
  {
    match step
    case CloseStep(t) => CloseFrame(s, t);
    case _ =>
  }

  lemma {:induction false} DropKept(s: Hub, step: Step)
    requires CallsInv(s) && MemberInv(s) && OnceInv(s) && DropInv(s) && Enabled(s, step)
    ensures DropInv(Apply(s, step))
  {
    DropsCounted(s, step);
    forall p: nat, c: nat | p < |Apply(s, step).feeds| ensures DropOk(Apply(s, step), p, c) {
      DropKeptAt(s, step, p, c);
    }
  }

  // ----- conservation is kept -----

  lemma {:induction false} OfferCountKept(s: Hub, p: nat, c: nat)
    requires MemberInv(s) && CountInv(s) && LoopEnabled(s, p, Offer(c))
    ensures CountInv(LoopApply(s, p, Offer(c)))
  {
    var s', k := LoopApply(s, p, Offer(c)), s.conns[c];
    if |k.send| < s.capacity {
      SumUpdate(Lengths(s.conns), c, |k.enqueued| + 1);
      assert Lengths(s'.conns) == Lengths(s.conns)[c := |k.enqueued| + 1];
    }
  }

  /** Snapshot entries are offered by a copy, and accounted for by a counted drop. */
  lemma {:induction false} LoopCounts(s: Hub, p: nat, a: LoopAct)
    requires LoopEnabled(s, p, a) && !a.Offer? && FeedInv(s, p)
    ensures var s' := LoopApply(s, p, a);
            && s'.conns == s.conns && s'.sends == s.sends && p < |s'.feeds|
            && s'.drops + Outstanding(s'.feeds[p]) + s.feeds[p].offered ==
               s.drops + Outstanding(s.feeds[p]) + s'.feeds[p].offered
  {
  }

  lemma {:induction false} LoopCountKept(s: Hub, p: nat, a: LoopAct)
    requires MemberInv(s) && CountInv(s) && LoopEnabled(s, p, a) && !a.Offer?
    ensures CountInv(LoopApply(s, p, a))
  {
    assert FeedInv(s, p);
    LoopCounts(s, p, a);
    LoopFrame(s, p, a);
    assert LoopApply(s, p, a).feeds[1 - p] == s.feeds[1 - p];
  }

  /** Other threads enqueue nothing and count nothing. */
  lemma {:induction false} OtherCounts(s: Hub, step: Step)
    requires Enabled(s, step) && !step.LoopStep? && !step.Arrive?
    ensures var s' := Apply(s, step);
            s'.sends == s.sends && s'.drops == s.drops && |s'.conns| == |s.conns| && |s'.feeds| == |s.feeds|
  {
    match step
    case CloseStep(t) => CloseFrame(s, t);
    case _ =>
  }

  lemma {:induction false} OtherEnqueued(s: Hub, step: Step, c: nat)
    requires Enabled(s, step) && !step.LoopStep? && c < |s.conns|
    ensures c < |Apply(s, step).conns| && Apply(s, step).conns[c].enqueued == s.conns[c].enqueued
  {
    match step
    case ReaderStep(d, a) => ReaderConnFrame(s, d, a, c);
    case PumpStep(d, a) => PumpConnFrame(s, d, a, c);
    case CloseStep(t) => CloseConnFrame(s, t, c);
    case _ =>
  }

  lemma {:induction false} OtherCountKept(s: Hub, step: Step)
    requires CountInv(s) && Enabled(s, step) && !step.LoopStep? && !step.Arrive?
    ensures CountInv(Apply(s, step))
  {
    var s' := Apply(s, step);
    OtherCounts(s, step);
    forall c | 0 <= c < |s.conns| ensures Lengths(s'.conns)[c] == Lengths(s.conns)[c] {
      OtherEnqueued(s, step, c);
    }
    assert Lengths(s'.conns) == Lengths(s.conns);
    OtherFeedSame(s, step, 0);
    OtherFeedSame(s, step, 1);
  }

  lemma {:induction false} CountKept(s: Hub, step: Step)
    requires MemberInv(s) && CountInv(s) && Enabled(s, step)
    ensures CountInv(Apply(s, step))
  {
    match step
    case LoopStep(p, a) =>
      if a.Offer? { OfferCountKept(s, p, a.client); } else { LoopCountKept(s, p, a); }
    case Arrive =>
      SumAppend(Lengths(s.conns), 0);
      assert Lengths(Apply(s, step).conns) == Lengths(s.conns) + [0];
    case _ => OtherCountKept(s, step);
  }

  // ----- shutdown is kept -----

  lemma {:induction false} LoopStopKept(s: Hub, p: nat, a: LoopAct)
    requires StopInv(s) && LoopEnabled(s, p, a)
    ensures StopInv(LoopApply(s, p, a))
  {
    LoopFrame(s, p, a);
    forall c | 0 <= c < |s.conns| ensures LoopApply(s, p, a).conns[c].once == s.conns[c].once {
      LoopConnFrame(s, p, a, c);
    }
  }

  lemma {:induction false} CloseStopKept(s: Hub, t: Tid)
    requires CallsInv(s) && OnceInv(s) && StopInv(s) && CloseEnabled(s, t)
    ensures StopInv(CloseApply(s, t))
  {
    var s' := CloseApply(s, t);
    CloseFrame(s, t);
    forall c | 0 <= c < |s.conns| && s.conns[c].once == Done ensures s'.conns[c].once == Done {
      CloseConnFrame(s, t, c);
    }
    CloseCalls(s, t, Stopper);
    if t == Stopper && t !in s'.calls {
      CloseEndsOut(s, t);
    }
  }

  lemma {:induction false} ReaderStopKept(s: Hub, c: nat, a: ReaderAct)
    requires StopInv(s) && ReaderEnabled(s, c, a)
    ensures StopInv(ReaderApply(s, c, a))
  {
  }

  lemma {:induction false} PumpStopKept(s: Hub, c: nat, a: PumpAct)
    requires StopInv(s) && PumpEnabled(s, c, a)
    ensures StopInv(PumpApply(s, c, a))
  {
  }

  lemma {:induction false} OwnStopKept(s: Hub, a: StopAct)
    requires MemberInv(s) && StopInv(s) && StopEnabled(s, a)
    ensures StopInv(StopApply(s, a))
  {
  }

  lemma {:induction false} StopKept(s: Hub, step: Step)
    requires CallsInv(s) && MemberInv(s) && OnceInv(s) && StopInv(s) && Enabled(s, step)
    ensures StopInv(Apply(s, step))
  {
    match step
    case ReaderStep(c, a) => ReaderStopKept(s, c, a);
    case PumpStep(c, a) => PumpStopKept(s, c, a);
    case LoopStep(p, a) => LoopStopKept(s, p, a);
    case CloseStep(t) => CloseStopKept(s, t);
    case StopStep(a) => OwnStopKept(s, a);
    case Arrive =>
  }

  // ----- leavers close -----

  lemma {:induction false} CloseLeaverKept(s: Hub, t: Tid, c: nat)
    requires CallsInv(s) && OnceInv(s) && CloseEnabled(s, t) && c < |s.conns| && LeaverOk(s, c)
    ensures c < |CloseApply(s, t).conns| && LeaverOk(CloseApply(s, t), c)
  {
    CloseConnFrame(s, t, c);
    CloseCalls(s, t, Reader(c));
    CloseCalls(s, t, Pump(c));
    if t !in CloseApply(s, t).calls {
      assert CallOk(s, t);
      CloseEndsOut(s, t);
    }
  }

  lemma {:induction false} ReaderLeaverKept(s: Hub, d: nat, a: ReaderAct, c: nat)
    requires OnceInv(s) && ReaderEnabled(s, d, a) && c < |s.conns| && LeaverOk(s, c)
    ensures LeaverOk(ReaderApply(s, d, a), c)
  {
    assert ConnOk(s, c);
  }

  lemma {:induction false} PumpLeaverKept(s: Hub, d: nat, a: PumpAct, c: nat)
    requires PumpEnabled(s, d, a) && c < |s.conns| && LeaverOk(s, c)
    ensures LeaverOk(PumpApply(s, d, a), c)
  {
  }

  lemma {:induction false} LoopLeaverKept(s: Hub, p: nat, a: LoopAct, c: nat)
    requires LoopEnabled(s, p, a) && c < |s.conns| && LeaverOk(s, c)
    ensures c < |LoopApply(s, p, a).conns| && LeaverOk(LoopApply(s, p, a), c)
  {
    LoopFrame(s, p, a);
    LoopConnFrame(s, p, a, c);
  }

  lemma {:induction false} StopLeaverKept(s: Hub, a: StopAct, c: nat)
    requires StopEnabled(s, a) && c < |s.conns| && LeaverOk(s, c)
    ensures LeaverOk(StopApply(s, a), c)
  {
  }

  lemma {:induction false} LeaverKeptAt(s: Hub, step: Step, c: nat)
    requires CallsInv(s) && OnceInv(s) && Enabled(s, step) && c < |s.conns| && LeaverOk(s, c)
    ensures c < |Apply(s, step).conns| && LeaverOk(Apply(s, step), c)
  {
    match step
    case CloseStep(t) => CloseLeaverKept(s, t, c);
    case LoopStep(p, a) => LoopLeaverKept(s, p, a, c);
    case ReaderStep(d, a) => ReaderLeaverKept(s, d, a, c);
    case PumpStep(d, a) => PumpLeaverKept(s, d, a, c);
    case StopStep(a) => StopLeaverKept(s, a, c);
    case Arrive =>
  }

  lemma {:induction false} LeaverKept(s: Hub, step: Step)
    requires |s.feeds| == 2 && CallsInv(s) && OnceInv(s) && LeaverInv(s) && Enabled(s, step)
    ensures LeaverInv(Apply(s, step))
  {
    SizesKept(s, step);
    forall c: nat | c < |Apply(s, step).conns| ensures LeaverOk(Apply(s, step), c) {
      if c < |s.conns| {
        LeaverKeptAt(s, step, c);
      }
    }
  }

  // ===== every reachable state =====

  lemma {:induction false} InvKept(s: Hub, step: Step)
    requires Inv(s) && Enabled(s, step)
    ensures Inv(Apply(s, step))
  {
    CallsKept(s, step);
    LockKept(s, step);
    MemberKept(s, step);
    OnceKept(s, step);
    QueueKept(s, step);
    GapKept(s, step);
    DropKept(s, step);
    CountKept(s, step);
    StopKept(s, step);
    LeaverKept(s, step);
  }

  lemma {:induction false} RunInv(s: Hub, steps: seq<Step>, s': Hub)
    requires Inv(s) && Run(s, steps) == Some(s')
    ensures Inv(s')
  {
    if steps != [] {
      var n := |steps| - 1;
      var mid := Run(s, steps[..n]).value;
      RunInv(s, steps[..n], mid);
      InvKept(mid, steps[n]);
    }
  }

  lemma {:induction false} ReachableInv(option: int, s: Hub)
    requires Reachable(option, s)
    ensures Inv(s)
  {
    var steps :| Run(Init(option), steps) == Some(s);
    InitInv(option);
    RunInv(Init(option), steps, s);
  }
}
