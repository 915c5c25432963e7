/** Which clients `Stop` closes: exactly those that had registered when it copied the
    client map.  For any other, some schedule leaves it open and registered when `Stop`
    returns. */
module HubLateClients {
  import opened Collections
  import opened HubModel
  import opened HubInvariants
  import opened HubFanout
  import opened HubTheorems
  import opened HubShutdown

  // ----- registered clients are closed -----

  lemma {:induction false} ClosedStays(s: Hub, step: Step, c: nat)
    requires Enabled(s, step) && c < |s.conns| && s.conns[c].closed
    ensures c < |Apply(s, step).conns| && Apply(s, step).conns[c].closed
  {
    match step
    case ReaderStep(d, a) => ReaderConnFrame(s, d, a, c);
    case PumpStep(d, a) => PumpConnFrame(s, d, a, c);
    case LoopStep(p, a) => LoopConnFrame(s, p, a, c);
    case _ =>
  }

  lemma {:induction false} ClosedForever(s: Hub, steps: seq<Step>, s': Hub, c: nat)
    requires Run(s, steps) == Some(s') && c < |s.conns| && s.conns[c].closed
    ensures c < |s'.conns| && s'.conns[c].closed
  {
    if steps != [] {
      var n := |steps| - 1;
      var mid := Run(s, steps[..n]).value;
      ClosedForever(s, steps[..n], mid, c);
      ClosedStays(mid, steps[n], c);
    }
  }

  /** A client that registered is in the fan-out set or closed. */
  predicate InOrClosed(s: Hub, c: nat)
  {
    Registered(s, c) ==> c in s.clients || s.conns[c].closed
  }

  /** Only the close of a client takes it out of the set. */
  lemma {:induction false} OnlyCloseRemoves(s: Hub, step: Step, c: nat)
    requires CallsInv(s) && OnceInv(s) && Enabled(s, step) && c in s.clients && c !in Apply(s, step).clients
    ensures c < |s.conns| && s.conns[c].closed
  {
    match step
    case CloseStep(t) =>
      assert CallOk(s, t) && RunnerOk(s, t);
      assert ConnOk(s, s.calls[t].client);
    case LoopStep(p, a) => LoopFrame(s, p, a);
    case _ =>
  }

  /** A client registers by entering the set. */
  lemma {:induction false} RegistersByInsert(s: Hub, step: Step, c: nat)
    requires Enabled(s, step) && !Registered(s, c) && Registered(Apply(s, step), c)
    ensures c in Apply(s, step).clients
  {
    match step
    case CloseStep(t) => CloseFrame(s, t); CloseConnFrame(s, t, c);
    case LoopStep(p, a) => LoopFrame(s, p, a); LoopConnFrame(s, p, a, c);
    case PumpStep(d, a) => PumpConnFrame(s, d, a, c);
    case _ =>
  }

  lemma {:induction false} InOrClosedKept(s: Hub, step: Step, c: nat)
    requires CallsInv(s) && OnceInv(s) && Enabled(s, step) && InOrClosed(s, c)
    ensures InOrClosed(Apply(s, step), c)
  {
    if Registered(s, c) {
      if c in s.clients && c !in Apply(s, step).clients { OnlyCloseRemoves(s, step, c); }
      if s.conns[c].closed { ClosedStays(s, step, c); }
    } else if Registered(Apply(s, step), c) {
      RegistersByInsert(s, step, c);
    }
  }

  lemma {:induction false} RunInOrClosed(s: Hub, steps: seq<Step>, s': Hub, c: nat)
    requires Inv(s) && Run(s, steps) == Some(s') && InOrClosed(s, c)
    ensures InOrClosed(s', c)
  {
    if steps != [] {
      var n := |steps| - 1;
      var mid := Run(s, steps[..n]).value;
      RunInv(s, steps[..n], mid);
      RunInOrClosed(s, steps[..n], mid, c);
      InOrClosedKept(mid, steps[n], c);
    }
  }

  // ----- other clients may stay open -----

  /** Nobody has begun or is bound to close the client, and its pump and reader go on. */
  ghost predicate Open(s: Hub, c: nat)
  {
    && c < |s.conns| && s.conns[c].once == Fresh && c !in s.sweep
    && s.conns[c].pump != Stopped && s.conns[c].reader != Left
    && (forall t :: t in s.calls ==> s.calls[t].client != c)
    && (forall p :: 0 <= p < |s.feeds| ==> !Victim(s.feeds[p], c))
    && (Registered(s, c) ==> c in s.clients)
  }

  lemma {:induction false} UnregisteredIsOpen(s: Hub, c: nat)
    requires Inv(s) && c < |s.conns| && !Registered(s, c)
    ensures Open(s, c)
  {
    assert ConnOk(s, c);
    forall t | t in s.calls ensures s.calls[t].client != c { assert CallOk(s, t); }
    forall p | 0 <= p < |s.feeds| ensures !Victim(s.feeds[p], c) { assert FeedInv(s, p); }
  }

  /** The one step of the schedule that would hurt: offering a frame to a full channel. */
  predicate Overflows(s: Hub, step: Step, c: nat)
  {
    step.LoopStep? && step.lact == Offer(c) && c < |s.conns| && |s.conns[c].send| >= s.capacity
  }

  lemma {:induction false} LoopOpenKept(s: Hub, p: nat, a: LoopAct, c: nat)
    requires LoopEnabled(s, p, a) && Open(s, c) && !Overflows(s, LoopStep(p, a), c)
    ensures Open(LoopApply(s, p, a), c)
  {
    LoopFrame(s, p, a);
    LoopConnFrame(s, p, a, c);
  }

  lemma {:induction false} CloseOpenKept(s: Hub, t: Tid, c: nat)
    requires CloseEnabled(s, t) && Open(s, c)
    ensures Open(CloseApply(s, t), c)
  {
    CloseFrame(s, t);
    CloseConnFrame(s, t, c);
  }

  /** Reads and writes of the client itself succeed in this schedule. */
  predicate Fails(step: Step, c: nat)
  {
    || step == ReaderStep(c, ReadFail)
    || (step.PumpStep? && step.c == c && (step.pact == WriteFail || step.pact == PingFail || step.pact == SeeClosed))
  }

  lemma {:induction false} ReaderOpenKept(s: Hub, d: nat, a: ReaderAct, c: nat)
    requires ReaderEnabled(s, d, a) && Open(s, c) && !Fails(ReaderStep(d, a), c)
    ensures Open(ReaderApply(s, d, a), c)
  {
    ReaderConnFrame(s, d, a, c);
  }

  lemma {:induction false} PumpOpenKept(s: Hub, d: nat, a: PumpAct, c: nat)
    requires PumpEnabled(s, d, a) && Open(s, c) && !Fails(PumpStep(d, a), c)
    ensures Open(PumpApply(s, d, a), c)
  {
    PumpConnFrame(s, d, a, c);
  }

  lemma {:induction false} StopOpenKept(s: Hub, a: StopAct, c: nat)
    requires StopEnabled(s, a) && Open(s, c) && a != StopCopy
    ensures Open(StopApply(s, a), c)
  {
  }

  lemma {:induction false} OpenKept(s: Hub, step: Step, c: nat)
    requires Enabled(s, step) && Open(s, c) && !Overflows(s, step, c) && !Fails(step, c) && step != StopStep(StopCopy)
    ensures Open(Apply(s, step), c)
  {
    match step
    case LoopStep(p, a) => LoopOpenKept(s, p, a, c);
    case CloseStep(t) => CloseOpenKept(s, t, c);
    case ReaderStep(d, a) => ReaderOpenKept(s, d, a, c);
    case PumpStep(d, a) => PumpOpenKept(s, d, a, c);
    case StopStep(a) => StopOpenKept(s, a, c);
    case Arrive =>
  }

  /** Instead of an overflow, the threads of the client itself go on. */
  lemma {:induction false} Drain(s: Hub, c: nat) returns (step: Step)
    requires Inv(s) && Open(s, c) && Registered(s, c) && |s.conns[c].send| >= s.capacity
    ensures Enabled(s, step) && Works(step) && Open(Apply(s, step), c)
    ensures Apply(s, step).stop == s.stop
  {
    var k := s.conns[c];
    assert ConnOk(s, c);
    step := if k.reader == RegUnlock then ReaderStep(c, ReleaseLock)
            else if k.reader == Spawn then ReaderStep(c, StartPump)
            else if k.pump == Selecting then PumpStep(c, Take)
            else PumpStep(c, WriteOk);
    OpenKept(s, step, c);
  }

  /** Whom the schedule serves next: first the client until it has registered, then `Stop`. */
  function Served(s: Hub, c: nat): Tid
  {
    if Registered(s, c) then Stopper else Reader(c)
  }

  lemma {:induction false} NextIsHarmless(s: Hub, t: Tid, c: nat)
    requires OnceInv(s) && Open(s, c) && (s.stop == Sweeping || s.stop == Waiting) && CanMove(s, NextOf(s, t))
    ensures !Fails(NextOf(s, t).value, c) && NextOf(s, t).value != StopStep(StopCopy) && Works(NextOf(s, t).value)
  {
    assert ConnOk(s, c);
  }

  /** As long as `Stop` has not returned, a working step keeps the client open; and `Stop`
      does not return before it has registered. */
  lemma {:induction false} OpenProgress(s: Hub, c: nat) returns (step: Step)
    requires Inv(s) && Open(s, c) && (s.stop == Sweeping || s.stop == Waiting)
    ensures Enabled(s, step) && Works(step) && Open(Apply(s, step), c)
    ensures Registered(s, c) || step != StopStep(Join)
  {
    assert Stopper in s.calls ==> CallOk(s, Stopper);
    assert ConnOk(s, c);
    var path := ChainToMover(s, Served(s, c));
    var t := path[|path| - 1];
    step := NextOf(s, t).value;
    NextIsHarmless(s, t, c);
    if Overflows(s, step, c) {
      assert FeedInv(s, step.p);
      step := Drain(s, c);
    } else {
      OpenKept(s, step, c);
    }
    if !Registered(s, c) && step == StopStep(Join) {
      JoinIsNotAwaited(s, c, path);
    }
  }

  /** Nobody on the way to the lock waits for `Stop` to join the loops. */
  lemma {:induction false} JoinIsNotAwaited(s: Hub, c: nat, path: seq<Tid>)
    requires Inv(s) && 0 < |path| && path[0] == Reader(c) && WaitChain(s, path) && path[|path| - 1] == Stopper
    requires Reader(c) !in s.calls
    ensures s.stop != Waiting || Stopper in s.calls
  {
    if |path| > 1 {
      PathDescends(s, path, |path| - 1);
    }
  }

  lemma {:induction false} OnlyJoinReturns(s: Hub, step: Step)
    requires Enabled(s, step) && (s.stop == Sweeping || s.stop == Waiting) && step != StopStep(Join)
    ensures Apply(s, step).stop == Sweeping || Apply(s, step).stop == Waiting
  {
    match step
    case CloseStep(t) => CloseFrame(s, t);
    case LoopStep(p, a) => LoopFrame(s, p, a);
    case _ =>
  }

  /** A run without arrivals that ends with the return of `Stop`, the client registered and open. */
  ghost predicate EndsOpen(s: Hub, steps: seq<Step>, s': Hub, c: nat)
  {
    && Run(s, steps) == Some(s') && Arrive !in steps
    && steps != [] && steps[|steps| - 1] == StopStep(Join)
    && s'.stop == Returned && Inv(s') && Open(s', c) && Registered(s', c)
  }

  lemma {:induction false} JoinEndsOpen(s: Hub, c: nat)
    requires Inv(s) && Enabled(s, StopStep(Join)) && Registered(s, c) && Open(Apply(s, StopStep(Join)), c)
    ensures EndsOpen(s, [StopStep(Join)], Apply(s, StopStep(Join)), c)
  {
    InvKept(s, StopStep(Join));
    assert [] + [StopStep(Join)] == [StopStep(Join)];
    RunAppend(s, [], StopStep(Join));
    RegisteredKept(s, StopStep(Join), c);
  }

  lemma {:induction false} EndsOpenPrepend(s: Hub, step: Step, rest: seq<Step>, s': Hub, c: nat)
    requires Enabled(s, step) && step != Arrive && EndsOpen(Apply(s, step), rest, s', c)
    ensures EndsOpen(s, [step] + rest, s', c)
  {
    RunPrepend(s, step, rest);
  }

  lemma {:induction false} ReturnsWithOpen(s: Hub, c: nat) returns (steps: seq<Step>, s': Hub)
    requires Inv(s) && Open(s, c) && (s.stop == Sweeping || s.stop == Waiting)
    ensures EndsOpen(s, steps, s', c)
    decreases Measure(s)
  {
    var step := OpenProgress(s, c);
    if step == StopStep(Join) {
      JoinEndsOpen(s, c);
      steps, s' := [step], Apply(s, step);
    } else {
      InvKept(s, step);
      StepDescends(s, step);
      OnlyJoinReturns(s, step);
      var rest;
      rest, s' := ReturnsWithOpen(Apply(s, step), c);
      EndsOpenPrepend(s, step, rest, s', c);
      steps := [step] + rest;
    }
  }

  /** From every reachable state in which `Stop` has copied the client map and not returned,
      and for every connection that has not registered by then, there is a continuation
      without further arrivals in which it registers before `Stop` returns and is registered
      and open when it has. */
  lemma {:induction false} LateClientOutlivesStop(option: int, s: Hub, c: nat) returns (steps: seq<Step>, s': Hub)
    requires Reachable(option, s) && (s.stop == Sweeping || s.stop == Waiting) && c < |s.conns| && !Registered(s, c)
    ensures Run(s, steps) == Some(s') && Arrive !in steps && s'.stop == Returned
    ensures steps != [] && steps[|steps| - 1] == StopStep(Join)
    ensures c < |s'.conns| && c in s'.clients && !s'.conns[c].closed && s'.conns[c].once == Fresh
  {
    ReachableInv(option, s);
    UnregisteredIsOpen(s, c);
    steps, s' := ReturnsWithOpen(s, c);
    assert ConnOk(s', c);
  }

  // ----- the exact condition -----

  /** In every continuation the client is closed when `Stop` has returned. */
  ghost predicate AlwaysClosed(s: Hub, c: nat)
  {
    forall steps :: Run(s, steps).Some? && Run(s, steps).value.stop == Returned ==>
      c < |Run(s, steps).value.conns| && Run(s, steps).value.conns[c].closed
  }

  /** `Stop` is sure to leave a connection closed if and only if it had registered by the
      moment at which `Stop` copied the client map. */
  lemma {:induction false} StopClosesExactlyRegistered(option: int, s: Hub, c: nat)
    requires Reachable(option, s) && StopEnabled(s, StopCopy) && c < |s.conns|
    ensures AlwaysClosed(StopApply(s, StopCopy), c) <==> Registered(s, c)
  {
    var copied := StopApply(s, StopCopy);
    var before :| Run(Init(option), before) == Some(s);
    RunAppend(Init(option), before, StopStep(StopCopy));
    assert Run(Init(option), before + [StopStep(StopCopy)]) == Some(copied);
    if Registered(s, c) {
      forall steps | Run(copied, steps).Some? && Run(copied, steps).value.stop == Returned
        ensures c < |Run(copied, steps).value.conns| && Run(copied, steps).value.conns[c].closed
      {
        RegisteredIsClosed(option, s, before, steps, Run(copied, steps).value, c);
      }
    } else {
      var steps, s' := LateClientOutlivesStop(option, copied, c);
    }
  }

  lemma {:induction false} RegisteredIsClosed(option: int, s: Hub, before: seq<Step>, steps: seq<Step>, s': Hub, c: nat)
    requires Run(Init(option), before) == Some(s) && StopEnabled(s, StopCopy) && Registered(s, c)
    requires Run(StopApply(s, StopCopy), steps) == Some(s') && s'.stop == Returned
    ensures c < |s'.conns| && s'.conns[c].closed
  {
    InitInv(option);
    RunInOrClosed(Init(option), before, s, c);
    if c in s.clients {
      StopLeavesNothing(option, s, steps, s', c);
    } else {
      ClosedForever(StopApply(s, StopCopy), steps, s', c);
    }
  }
}
