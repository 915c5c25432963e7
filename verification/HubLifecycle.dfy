/** When a client is closed and what an upstream loop does between its calls, over whole runs. */
module HubLifecycle {
  import opened Collections
  import opened HubModel
  import opened HubInvariants
  import opened HubFanout
  import opened HubTheorems
  import opened HubLateClients

  // ----- whoever leaves closes -----

  /** A client whose peer has gone, or whose write pump has ended for whatever reason, is
      closed: in every reachable state the thread that left is inside `close` or the close has
      completed; and if no thread is closing it, it is closed, hung up and unregistered. */
  lemma {:induction false} LeaversAreClosed(option: int, s: Hub, c: nat)
    requires Reachable(option, s) && c < |s.conns| && (s.conns[c].reader == Left || s.conns[c].pump == Stopped)
    ensures s.conns[c].once == Done ||
            (s.conns[c].reader == Left && Reader(c) in s.calls && s.calls[Reader(c)].client == c) ||
            (s.conns[c].pump == Stopped && Pump(c) in s.calls && s.calls[Pump(c)].client == c)
    ensures (forall t :: t in s.calls ==> s.calls[t].client != c) ==>
              s.conns[c].once == Done && s.conns[c].closed && s.conns[c].hungUp && c !in s.clients
  {
    ReachableInv(option, s);
    assert LeaverOk(s, c) && ConnOk(s, c);
    assert Reader(c) in s.calls ==> CallOk(s, Reader(c));
    assert Pump(c) in s.calls ==> CallOk(s, Pump(c));
  }

  // ----- no close without a reason -----

  /** Somebody has begun to close the client, or is bound to. */
  ghost predicate Troubled(s: Hub, c: nat)
  {
    || (c < |s.conns| && s.conns[c].once != Fresh)
    || (exists t :: t in s.calls && s.calls[t].client == c)
    || (exists p :: 0 <= p < |s.feeds| && Victim(s.feeds[p], c))
  }

  /** The step is a reason to close the client: its peer is gone, a write or ping failed,
      its channel is full, or `Stop` sweeps it. */
  ghost predicate Cause(s: Hub, step: Step, c: nat)
  {
    || step == ReaderStep(c, ReadFail) || step == PumpStep(c, WriteFail) || step == PumpStep(c, PingFail)
    || (step.LoopStep? && FullOffer(s, step, c, step.p))
    || (step == StopStep(SweepOne(c)) && c in s.sweep)
  }

  lemma {:induction false} LoopTrouble(s: Hub, p: nat, a: LoopAct, c: nat)
    requires LoopEnabled(s, p, a) && !Troubled(s, c) && !Cause(s, LoopStep(p, a), c)
    ensures !Troubled(LoopApply(s, p, a), c)
  {
    var s' := LoopApply(s, p, a);
    LoopFrame(s, p, a);
    if c < |s.conns| { LoopConnFrame(s, p, a, c); }
    assert !Victim(s.feeds[p], c);
    LoopVictims(s, p, a, c);
    forall q | 0 <= q < |s'.feeds| ensures !Victim(s'.feeds[q], c) {
      if q != p { assert !Victim(s.feeds[q], c); }
    }
  }

  lemma {:induction false} LoopVictims(s: Hub, p: nat, a: LoopAct, c: nat)
    requires LoopEnabled(s, p, a) && !Victim(s.feeds[p], c) && !FullOffer(s, LoopStep(p, a), c, p)
    ensures p < |LoopApply(s, p, a).feeds| && !Victim(LoopApply(s, p, a).feeds[p], c)
    ensures Loop(p) in LoopApply(s, p, a).calls ==> LoopApply(s, p, a).calls[Loop(p)].client != c
  {
  }

  lemma {:induction false} CloseTrouble(s: Hub, u: Tid, c: nat)
    requires CloseEnabled(s, u) && !Troubled(s, c)
    ensures !Troubled(CloseApply(s, u), c)
  {
    var s' := CloseApply(s, u);
    CloseFrame(s, u);
    assert s.calls[u].client != c;
    if c < |s.conns| { CloseConnFrame(s, u, c); }
    forall t | t in s'.calls ensures s'.calls[t].client != c { CloseCalls(s, u, t); }
  }

  lemma {:induction false} PumpTrouble(s: Hub, d: nat, a: PumpAct, c: nat)
    requires OnceInv(s) && PumpEnabled(s, d, a) && !Troubled(s, c) && !Cause(s, PumpStep(d, a), c)
    ensures !Troubled(PumpApply(s, d, a), c)
  {
    if c < |s.conns| {
      assert ConnOk(s, c);
      PumpConnFrame(s, d, a, c);
    }
  }

  lemma {:induction false} ReaderTrouble(s: Hub, d: nat, a: ReaderAct, c: nat)
    requires ReaderEnabled(s, d, a) && !Troubled(s, c) && !Cause(s, ReaderStep(d, a), c)
    ensures !Troubled(ReaderApply(s, d, a), c)
  {
    if c < |s.conns| { ReaderConnFrame(s, d, a, c); }
  }

  lemma {:induction false} StopTrouble(s: Hub, a: StopAct, c: nat)
    requires StopEnabled(s, a) && !Troubled(s, c) && !Cause(s, StopStep(a), c)
    ensures !Troubled(StopApply(s, a), c)
  {
  }

  lemma {:induction false} TroubleHasCause(s: Hub, step: Step, c: nat)
    requires OnceInv(s) && Enabled(s, step) && !Troubled(s, c) && !Cause(s, step, c)
    ensures !Troubled(Apply(s, step), c)
  {
    match step
    case LoopStep(p, a) => LoopTrouble(s, p, a, c);
    case CloseStep(t) => CloseTrouble(s, t, c);
    case PumpStep(d, a) => PumpTrouble(s, d, a, c);
    case ReaderStep(d, a) => ReaderTrouble(s, d, a, c);
    case StopStep(a) => StopTrouble(s, a, c);
    case Arrive =>
  }

  ghost predicate CauseAt(s: Hub, steps: seq<Step>, n: nat, c: nat)
  {
    n < |steps| && Run(s, steps[..n]).Some? && Cause(Run(s, steps[..n]).value, steps[n], c)
  }

  ghost predicate SomeCause(s: Hub, steps: seq<Step>, c: nat)
  {
    exists n :: CauseAt(s, steps, n, c)
  }

  lemma {:induction false} CauseLast(s: Hub, front: seq<Step>, step: Step, mid: Hub, c: nat)
    requires Run(s, front) == Some(mid) && (SomeCause(s, front, c) || Cause(mid, step, c))
    ensures SomeCause(s, front + [step], c)
  {
    var steps := front + [step];
    if SomeCause(s, front, c) {
      var n: nat :| CauseAt(s, front, n, c);
      assert steps[..n] == front[..n];
      assert CauseAt(s, steps, n, c);
    } else {
      assert steps[..|front|] == front;
      assert CauseAt(s, steps, |front|, c);
    }
  }

  lemma {:induction false} NobodyTroubled(option: int, c: nat)
    ensures !Troubled(Init(option), c)
  {
  }

  lemma {:induction false} TroubledForAReason(option: int, steps: seq<Step>, s: Hub, c: nat)
    requires Run(Init(option), steps) == Some(s) && Troubled(s, c)
    ensures SomeCause(Init(option), steps, c)
  {
    if steps == [] {
      NobodyTroubled(option, c);
    } else {
      var k := |steps| - 1;
      var mid := Run(Init(option), steps[..k]).value;
      if Troubled(mid, c) {
        TroubledForAReason(option, steps[..k], mid, c);
      } else if !Cause(mid, steps[k], c) {
        assert OnceInv(mid) by { InitInv(option); RunInv(Init(option), steps[..k], mid); }
        TroubleHasCause(mid, steps[k], c);
      }
      assert steps[..k] + [steps[k]] == steps;
      CauseLast(Init(option), steps[..k], steps[k], mid, c);
    }
  }

  /** No client is closed without a reason: if one is closed or hung up, or has registered and
      is out of the fan-out set, then earlier in the run its read, write or ping failed, a loop
      found its channel full, or `Stop` swept it. */
  lemma {:induction false} ClosedForAReason(option: int, steps: seq<Step>, s: Hub, c: nat)
    requires Run(Init(option), steps) == Some(s) && c < |s.conns|
    requires s.conns[c].closed || s.conns[c].hungUp || (Registered(s, c) && c !in s.clients)
    ensures SomeCause(Init(option), steps, c)
  {
    assert s.conns[c].once != Fresh by {
      InitInv(option);
      RunInv(Init(option), steps, s);
      assert ConnOk(s, c);
      RunInOrClosed(Init(option), steps, s, c);
    }
    TroubledForAReason(option, steps, s, c);
  }

  /** No panic: whenever a thread is about to close a client's channel, it is still open. */
  lemma {:induction false} ClosedOnce(option: int, s: Hub, t: Tid)
    requires Reachable(option, s) && t in s.calls && s.calls[t].stage == Mark
    ensures s.calls[t].client < |s.conns| && !s.conns[s.calls[t].client].closed
  {
    ReachableInv(option, s);
    assert CallOk(s, t) && RunnerOk(s, t);
    assert ConnOk(s, s.calls[t].client);
  }

  // ----- what counts as delivered -----

  /** How often a step occurs in a run. */
  function Count(steps: seq<Step>, step: Step): nat
  {
    if steps == [] then 0 else
    Count(steps[..|steps| - 1], step) + if steps[|steps| - 1] == step then 1 else 0
  }

  function One(b: bool): nat
  {
    if b then 1 else 0
  }

  lemma {:induction false} StepDelivers(s: Hub, step: Step, c: nat)
    requires Enabled(s, step) && c < |s.conns|
    ensures c < |Apply(s, step).conns|
    ensures |Apply(s, step).conns[c].taken| == |s.conns[c].taken| + One(step == PumpStep(c, Take))
    ensures |Apply(s, step).conns[c].delivered| == |s.conns[c].delivered| + One(step == PumpStep(c, WriteOk))
  {
    match step
    case ReaderStep(d, a) => ReaderConnFrame(s, d, a, c);
    case CloseStep(t) => CloseConnFrame(s, t, c);
    case LoopStep(p, a) => LoopConnFrame(s, p, a, c);
    case _ =>
  }

  /** A frame is taken once per read of the channel and delivered once per write that
      succeeded; a write that failed delivers nothing. */
  lemma {:induction false} DeliveriesAreWrites(option: int, steps: seq<Step>, s: Hub, c: nat)
    requires Run(Init(option), steps) == Some(s)
    ensures var k := if c < |s.conns| then s.conns[c] else NEW_CONN;
            && |k.taken| == Count(steps, PumpStep(c, Take))
            && |k.delivered| == Count(steps, PumpStep(c, WriteOk))
  {
    if steps != [] {
      var n := |steps| - 1;
      var mid := Run(Init(option), steps[..n]).value;
      DeliveriesAreWrites(option, steps[..n], mid, c);
      if c < |mid.conns| {
        StepDelivers(mid, steps[n], c);
      } else {
        CapacitySame(mid, steps[n]);
      }
    }
  }

  // ----- the reconnect loop -----

  /** The loop is inside its upstream call. */
  predicate Inside(f: Feed)
  {
    f.pc != Test && f.pc != Check && f.pc != Sleeping && f.pc != Ended
  }

  lemma {:induction false} LoopTurns(s: Hub, p: nat, a: LoopAct)
    requires LoopEnabled(s, p, a) && p < |LoopApply(s, p, a).feeds| && LoopApply(s, p, a).feeds[p].pc != Ended
    ensures var f, f' := s.feeds[p], LoopApply(s, p, a).feeds[p];
            && f.pc != Ended
            && One(f'.pc == Test) + One(a == TestCtx) == One(f.pc == Test) + One(a == Wake)
            && One(Inside(f')) + One(a == UpstreamReturns) == One(Inside(f)) + One(a == TestCtx)
            && One(f'.pc == Check) + One(a == CheckCtx) == One(f.pc == Check) + One(a == UpstreamReturns)
            && One(f'.pc == Sleeping) + One(a == Wake) == One(f.pc == Sleeping) + One(a == CheckCtx)
  {
  }

  /** The four counters of a loop that has not ended, against where it is. */
  predicate Balanced(f: Feed, tests: nat, ends: nat, checks: nat, wakes: nat)
  {
    && tests + One(f.pc == Test) == 1 + wakes && tests == ends + One(Inside(f))
    && ends == checks + One(f.pc == Check) && checks == wakes + One(f.pc == Sleeping)
  }

  lemma {:induction false} StepTurns(s: Hub, step: Step, p: nat, tests: nat, ends: nat, checks: nat, wakes: nat)
    requires Enabled(s, step) && p < |s.feeds| && p < |Apply(s, step).feeds| && Apply(s, step).feeds[p].pc != Ended
    requires s.feeds[p].pc != Ended ==> Balanced(s.feeds[p], tests, ends, checks, wakes)
    ensures Balanced(Apply(s, step).feeds[p],
                     tests + One(step == LoopStep(p, TestCtx)), ends + One(step == LoopStep(p, UpstreamReturns)),
                     checks + One(step == LoopStep(p, CheckCtx)), wakes + One(step == LoopStep(p, Wake)))
  {
    if step.LoopStep? && step.p == p {
      LoopTurns(s, p, step.lact);
    } else {
      OtherFeedSame(s, step, p);
    }
  }

  /** A loop that has not ended goes round as written: it tests the context, calls upstream,
      stays in the call until that returns, checks the context, sleeps, and tests again. */
  lemma {:induction false} LoopGoesRound(option: int, steps: seq<Step>, s: Hub, p: nat)
    requires Run(Init(option), steps) == Some(s) && p < 2
    ensures p < |s.feeds|
    ensures s.feeds[p].pc != Ended ==>
              Balanced(s.feeds[p], Count(steps, LoopStep(p, TestCtx)), Count(steps, LoopStep(p, UpstreamReturns)),
                       Count(steps, LoopStep(p, CheckCtx)), Count(steps, LoopStep(p, Wake)))
  {
    if steps != [] {
      var k := |steps| - 1;
      var front := steps[..k];
      var mid := Run(Init(option), front).value;
      LoopGoesRound(option, front, mid, p);
      BroadcastsAreMessages(option, steps, s, p);
      if s.feeds[p].pc != Ended {
        StepTurns(mid, steps[k], p, Count(front, LoopStep(p, TestCtx)), Count(front, LoopStep(p, UpstreamReturns)),
                  Count(front, LoopStep(p, CheckCtx)), Count(front, LoopStep(p, Wake)));
      }
    }
  }
}
