/** The hub keeps working: before `Stop`, every call of `close` can return, every loop can get
    back to its upstream, and every message can reach every client that nobody is closing. */
module HubService {
  import opened Collections
  import opened HubModel
  import opened HubInvariants
  import opened HubFanout
  import opened HubTheorems
  import opened HubShutdown
  import opened HubLateClients

  // ----- whoever is waited for is in the middle of something -----

  predicate Busy(s: Hub, t: Tid)
  {
    t in s.calls || InWrite(s, t) || InRead(s, t) || InDrop(s, t)
  }

  lemma {:induction false} WaitedIsBusy(s: Hub, t: Tid, u: Tid)
    requires Inv(s) && WaitsFor(s, t, u) && !(t == Stopper && s.stop == Waiting)
    ensures Busy(s, u)
  {
    assert LockOk(s, u);
    assert EntersOnce(s, t) ==> ConnOk(s, s.calls[t].client);
  }

  lemma {:induction false} BusyDoesNotTurn(s: Hub, t: Tid)
    requires t in s.calls ==> CallOk(s, t)
    requires Busy(s, t) && NextOf(s, t).Some?
    ensures !Turns(NextOf(s, t).value) && Works(NextOf(s, t).value)
  {
  }

  /** The end of a chain of waiting threads is its start or busy. */
  lemma {:induction false} ChainEndsBusy(s: Hub, path: seq<Tid>)
    requires Inv(s) && |path| > 1 && WaitChain(s, path) && Rank(s, path[0]) < 5
    ensures Busy(s, path[|path| - 1])
  {
    var k := |path| - 1;
    assert WaitsFor(s, path[k - 1], path[k - 1 + 1]);
    if k > 1 { PathDescends(s, path, k - 1); }
    assert Stopper in s.calls ==> CallOk(s, Stopper);
    WaitedIsBusy(s, path[k - 1], path[k]);
  }

  /** A thread that is not turning and wants to go on can be helped on by a step that makes
      the measure smaller. */
  lemma {:induction false} HelpOn(s: Hub, t: Tid) returns (u: Tid)
    requires Inv(s) && NextOf(s, t).Some? && !Turns(NextOf(s, t).value) && Works(NextOf(s, t).value)
    requires Rank(s, t) < 5
    ensures CanMove(s, NextOf(s, u)) && !Turns(NextOf(s, u).value) && Works(NextOf(s, u).value)
    ensures u == t || Busy(s, u)
  {
    var path := ChainToMover(s, t);
    u := path[|path| - 1];
    if |path| > 1 {
      ChainEndsBusy(s, path);
      assert u in s.calls ==> CallOk(s, u);
      BusyDoesNotTurn(s, u);
    }
  }

  // ----- every close can return -----

  /** While a call of `close` is running it is for the same client. */
  lemma {:induction false} CallClientKept(s: Hub, step: Step, t: Tid)
    requires CallsInv(s) && Enabled(s, step) && t in s.calls && t in Apply(s, step).calls
    ensures Apply(s, step).calls[t].client == s.calls[t].client
  {
    assert CallOk(s, t);
    match step
    case CloseStep(u) => CloseCalls(s, u, t);
    case LoopStep(p, a) => LoopFrame(s, p, a);
    case _ =>
  }

  /** Only a step of its own ends a call. */
  lemma {:induction false} OwnStepEnds(s: Hub, step: Step, t: Tid)
    requires Enabled(s, step) && t in s.calls && t !in Apply(s, step).calls
    ensures step == CloseStep(t)
  {
    match step
    case CloseStep(u) => CloseCalls(s, u, t);
    case LoopStep(p, a) => LoopFrame(s, p, a);
    case _ =>
  }

  /** A run without arrivals after which the client's close has completed. */
  ghost predicate Closes(s: Hub, steps: seq<Step>, c: nat)
  {
    && Run(s, steps).Some? && Arrive !in steps
    && var s' := Run(s, steps).value; c < |s'.conns| && s'.conns[c].once == Done && c !in s'.clients
  }

  lemma {:induction false} ClosesPrepend(s: Hub, step: Step, rest: seq<Step>, c: nat)
    requires Enabled(s, step) && step != Arrive && Closes(Apply(s, step), rest, c)
    ensures Closes(s, [step] + rest, c)
  {
    RunPrepend(s, step, rest);
  }

  lemma {:induction false} CloseReturns(s: Hub, t: Tid) returns (steps: seq<Step>)
    requires Inv(s) && t in s.calls
    ensures Closes(s, steps, s.calls[t].client)
    decreases Measure(s)
  {
    var u := HelpOn(s, t);
    var step, c := NextOf(s, u).value, s.calls[t].client;
    StepDescends(s, step);
    InvKept(s, step);
    var rest: seq<Step> := [];
    if t in Apply(s, step).calls {
      CallClientKept(s, step, t);
      rest := CloseReturns(Apply(s, step), t);
    } else {
      OwnStepEnds(s, step, t);
      CloseEndsOut(s, t);
    }
    ClosesPrepend(s, step, rest, c);
    steps := [step] + rest;
  }

  /** A client whose peer has gone can be closed, whatever the other threads are doing: from
      every reachable state in which its reader or its pump has left there is a continuation
      without arrivals in which it is closed and unregistered. */
  lemma {:induction false} LeaverCanBeClosed(option: int, s: Hub, c: nat) returns (steps: seq<Step>)
    requires Reachable(option, s) && c < |s.conns| && (s.conns[c].reader == Left || s.conns[c].pump == Stopped)
    ensures Closes(s, steps, c)
  {
    ReachableInv(option, s);
    assert LeaverOk(s, c) && ConnOk(s, c);
    if s.conns[c].once == Done {
      steps := [];
    } else {
      var t := if Reader(c) in s.calls then Reader(c) else Pump(c);
      assert CallOk(s, t);
      steps := CloseReturns(s, t);
    }
  }

  // ----- every loop gets back to its upstream -----

  /** The loop has a message to fan out. */
  predicate InBroadcast(f: Feed)
  {
    f.pc.AskRead? || f.pc.Copying? || Broadcasting(f)
  }

  /** The hub is running and nobody is closing the client. */
  ghost predicate Serving(s: Hub, c: nat)
  {
    Inv(s) && !s.cancelled && Open(s, c) && Registered(s, c)
  }

  /** Message number `n` of loop `p` is on its way to the client or has been enqueued to it. */
  ghost predicate OnItsWay(s: Hub, c: nat, p: nat, n: nat)
  {
    && c < |s.conns| && p < |s.feeds|
    && var f := s.feeds[p];
       || (|f.log| == n && Held(f) != [])
       || (|f.log| == n + 1 && |Held(f)| == 0 && (c in f.todo || Frame(p, n) in s.conns[c].enqueued))
  }

  lemma {:induction false} OfferOnItsWay(s: Hub, c: nat, p: nat, n: nat)
    requires LoopEnabled(s, p, Offer(c)) && !Overflows(s, LoopStep(p, Offer(c)), c) && OnItsWay(s, c, p, n)
    ensures OnItsWay(LoopApply(s, p, Offer(c)), c, p, n)
  {
    LoopConnFrame(s, p, Offer(c), c);
    var s', k := LoopApply(s, p, Offer(c)), s.conns[c];
    assert |s.feeds[p].log| >= 1 ==> s'.conns[c].enqueued == k.enqueued + [Frame(p, |s.feeds[p].log| - 1)];
  }

  lemma {:induction false} LoopOnItsWay(s: Hub, c: nat, p: nat, a: LoopAct, n: nat)
    requires LoopEnabled(s, p, a) && a != Offer(c) && !a.Message? && c in s.clients && OnItsWay(s, c, p, n)
    ensures OnItsWay(LoopApply(s, p, a), c, p, n)
  {
    LoopConnFrame(s, p, a, c);
    LoopBroadcasts(s, p, a);
  }

  /** Frames once enqueued stay in the history. */
  lemma {:induction false} EnqueuedGrows(s: Hub, step: Step, c: nat)
    requires Enabled(s, step) && c < |s.conns|
    ensures c < |Apply(s, step).conns| && s.conns[c].enqueued <= Apply(s, step).conns[c].enqueued
  {
    match step
    case LoopStep(p, a) => LoopConnFrame(s, p, a, c);
    case _ => OtherEnqueued(s, step, c);
  }

  lemma {:induction false} OnItsWayKept(s: Hub, step: Step, c: nat, p: nat, n: nat)
    requires Enabled(s, step) && !Overflows(s, step, c) && c in s.clients && OnItsWay(s, c, p, n)
    requires !(step.LoopStep? && step.lact.Message?)
    ensures OnItsWay(Apply(s, step), c, p, n)
  {
    if step == LoopStep(p, Offer(c)) {
      OfferOnItsWay(s, c, p, n);
    } else if step.LoopStep? && step.p == p {
      LoopOnItsWay(s, c, p, step.lact, n);
    } else {
      OtherFeedSame(s, step, p);
      EnqueuedGrows(s, step, c);
    }
  }

  /** A step that keeps the client served and no message lost. */
  ghost predicate Harmless(s: Hub, step: Step, c: nat)
  {
    && Enabled(s, step) && step != Arrive && !Overflows(s, step, c) && !Fails(step, c)
    && !step.StopStep? && !(step.LoopStep? && step.lact.Message?)
  }

  lemma {:induction false} UncancelledStays(s: Hub, step: Step)
    requires Enabled(s, step) && !s.cancelled && !step.StopStep?
    ensures !Apply(s, step).cancelled
  {
    match step
    case CloseStep(t) => CloseFrame(s, t);
    case LoopStep(p, a) => LoopFrame(s, p, a);
    case _ =>
  }

  lemma {:induction false} ServingKept(s: Hub, step: Step, c: nat)
    requires Serving(s, c) && Enabled(s, step) && !Overflows(s, step, c) && !Fails(step, c) && !step.StopStep?
    ensures Serving(Apply(s, step), c)
  {
    InvKept(s, step);
    UncancelledStays(s, step);
    OpenKept(s, step, c);
    RegisteredKept(s, step, c);
  }

  lemma {:induction false} HelperIsHarmless(s: Hub, u: Tid, c: nat)
    requires Serving(s, c) && CanMove(s, NextOf(s, u)) && !Turns(NextOf(s, u).value) && u != Stopper
    requires !Overflows(s, NextOf(s, u).value, c)
    ensures Harmless(s, NextOf(s, u).value, c)
  {
    assert ConnOk(s, c);
  }

  /** Instead of an overflow, the client's own threads make room. */
  lemma {:induction false} RoomIsMade(s: Hub, c: nat) returns (step: Step)
    requires Serving(s, c) && |s.conns[c].send| >= s.capacity
    ensures Harmless(s, step, c) && Works(step) && !Turns(step) && !step.LoopStep?
  {
    var k := s.conns[c];
    assert ConnOk(s, c);
    step := if k.reader == RegUnlock then ReaderStep(c, ReleaseLock)
            else if k.reader == Spawn then ReaderStep(c, StartPump)
            else if k.pump == Selecting then PumpStep(c, Take)
            else PumpStep(c, WriteOk);
  }

  lemma {:induction false} StopperIsIdle(s: Hub)
    requires Inv(s) && !s.cancelled
    ensures !Busy(s, Stopper)
  {
    forall t | t in s.calls ensures t != Stopper { assert CallOk(s, t); }
    assert LockOk(s, Stopper);
  }

  lemma {:induction false} BroadcastGoesOn(s: Hub, c: nat, p: nat) returns (step: Step)
    requires Serving(s, c) && p < |s.feeds| && InBroadcast(s.feeds[p])
    ensures Harmless(s, step, c) && Works(step) && !Turns(step)
  {
    var u := HelpOn(s, Loop(p));
    StopperIsIdle(s);
    step := NextOf(s, u).value;
    if Overflows(s, step, c) {
      step := RoomIsMade(s, c);
    } else {
      HelperIsHarmless(s, u, c);
    }
  }

  lemma {:induction false} BroadcastStays(s: Hub, step: Step, p: nat)
    requires Enabled(s, step) && p < |s.feeds| && InBroadcast(s.feeds[p])
    ensures p < |Apply(s, step).feeds|
    ensures InBroadcast(Apply(s, step).feeds[p]) || Apply(s, step).feeds[p].pc == Upstream
  {
    if step.LoopStep? && step.p == p {
      LoopBroadcasts(s, p, step.lact);
    } else {
      OtherFeedSame(s, step, p);
    }
  }

  /** The broadcasts of loop `p`, with the message it holds. */
  function Messages(s: Hub, p: nat): seq<Payload>
    requires p < |s.feeds|
  {
    s.feeds[p].log + Held(s.feeds[p])
  }

  lemma {:induction false} MessagesSame(s: Hub, step: Step, p: nat)
    requires Enabled(s, step) && p < |s.feeds| && !(step.LoopStep? && step.lact.Message?)
    ensures p < |Apply(s, step).feeds| && Messages(Apply(s, step), p) == Messages(s, p)
  {
    if step.LoopStep? && step.p == p {
      LoopBroadcasts(s, p, step.lact);
    } else {
      OtherFeedSame(s, step, p);
    }
  }

  /** A run that leaves the client served and brings loop `p` to its upstream, with all its
      messages broadcast. */
  ghost predicate Settles(s: Hub, steps: seq<Step>, s': Hub, c: nat, p: nat)
  {
    && Run(s, steps) == Some(s') && Arrive !in steps && Serving(s', c)
    && p < |s.feeds| && p < |s'.feeds| && s'.feeds[p].pc == Upstream && s'.feeds[p].log == Messages(s, p)
  }

  lemma {:induction false} SettlesPrepend(s: Hub, step: Step, rest: seq<Step>, s': Hub, c: nat, p: nat)
    requires Harmless(s, step, c) && p < |s.feeds| && Settles(Apply(s, step), rest, s', c, p)
    ensures Settles(s, [step] + rest, s', c, p)
  {
    RunPrepend(s, step, rest);
    MessagesSame(s, step, p);
  }

  /** A broadcast can be finished without losing the client, and then the client has its frame. */
  lemma {:induction false} BroadcastFinishes(s: Hub, c: nat, p: nat, n: nat) returns (steps: seq<Step>, s': Hub)
    requires Serving(s, c) && p < |s.feeds| && (InBroadcast(s.feeds[p]) || s.feeds[p].pc == Upstream)
    ensures Settles(s, steps, s', c, p)
    ensures OnItsWay(s, c, p, n) ==> Frame(p, n) in s'.conns[c].enqueued
    decreases Measure(s)
  {
    if s.feeds[p].pc == Upstream {
      steps, s' := [], s;
      assert s.feeds[p].log + [] == s.feeds[p].log;
      assert FeedInv(s, p);
    } else {
      var step := BroadcastGoesOn(s, c, p);
      ServingKept(s, step, c);
      StepDescends(s, step);
      BroadcastStays(s, step, p);
      if OnItsWay(s, c, p, n) { OnItsWayKept(s, step, c, p, n); }
      var rest;
      rest, s' := BroadcastFinishes(Apply(s, step), c, p, n);
      SettlesPrepend(s, step, rest, s', c, p);
      steps := [step] + rest;
    }
  }

  /** The step by which an idle uncancelled loop goes on, and where it leads. */
  lemma {:induction false} IdleStep(s: Hub, p: nat, a: LoopAct, next: LoopPc)
    requires p < |s.feeds| && Loop(p) !in s.calls && !s.cancelled
    requires || (s.feeds[p].pc == Check && a == CheckCtx && next == Sleeping)
             || (s.feeds[p].pc == Sleeping && a == Wake && next == Test)
             || (s.feeds[p].pc == Test && a == TestCtx && next == Upstream)
    ensures Enabled(s, LoopStep(p, a))
    ensures Apply(s, LoopStep(p, a)) == SetFeed(s, p, s.feeds[p].(pc := next))
  {
  }

  /** The steps of its own that bring an idle loop back to its upstream. */
  function WayBack(pc: LoopPc, p: nat): seq<Step>
  {
    match pc
    case Check => [LoopStep(p, CheckCtx), LoopStep(p, Wake), LoopStep(p, TestCtx)]
    case Sleeping => [LoopStep(p, Wake), LoopStep(p, TestCtx)]
    case Test => [LoopStep(p, TestCtx)]
    case _ => []
  }

  lemma {:induction false} IdleResumes(s: Hub, p: nat)
    requires p < |s.feeds| && Loop(p) !in s.calls && !s.cancelled
    requires s.feeds[p].pc.Check? || s.feeds[p].pc.Sleeping? || s.feeds[p].pc.Test? || s.feeds[p].pc.Upstream?
    ensures Run(s, WayBack(s.feeds[p].pc, p)) == Some(SetFeed(s, p, s.feeds[p].(pc := Upstream)))
    decreases |WayBack(s.feeds[p].pc, p)|
  {
    var f := s.feeds[p];
    if f.pc.Upstream? {
      assert s.feeds[p := f] == s.feeds;
    } else {
      var way := WayBack(f.pc, p);
      var next := if f.pc.Check? then Sleeping else if f.pc.Sleeping? then Test else Upstream;
      IdleStep(s, p, way[0].lact, next);
      var s' := Apply(s, way[0]);
      IdleResumes(s', p);
      assert way == [way[0]] + WayBack(next, p);
      RunPrepend(s, way[0], WayBack(next, p));
      assert s'.feeds[p := f.(pc := Upstream)] == s.feeds[p := f.(pc := Upstream)];
    }
  }

  /** A loop whose upstream call has ended reconnects: unless the context is cancelled, its own
      next steps, and no others, bring it back into the call. */
  lemma {:induction false} LoopReconnects(option: int, s: Hub, p: nat)
    requires Reachable(option, s) && !s.cancelled && p < |s.feeds| && !InBroadcast(s.feeds[p])
    ensures Run(s, WayBack(s.feeds[p].pc, p)) == Some(SetFeed(s, p, s.feeds[p].(pc := Upstream)))
  {
    ReachableInv(option, s);
    assert Loop(p) in s.calls ==> CallOk(s, Loop(p));
    IdleResumes(s, p);
  }

  // ----- every message can reach every client -----

  lemma {:induction false} IdleServes(s: Hub, p: nat, c: nat)
    requires Serving(s, c) && p < |s.feeds| && !InBroadcast(s.feeds[p])
    ensures Settles(s, WayBack(s.feeds[p].pc, p), SetFeed(s, p, s.feeds[p].(pc := Upstream)), c, p)
  {
    var f := s.feeds[p];
    assert Loop(p) in s.calls ==> CallOk(s, Loop(p));
    assert f.pc != Ended;
    IdleResumes(s, p);
    IdleKeepsServing(s, WayBack(f.pc, p), SetFeed(s, p, f.(pc := Upstream)), p, c);
    assert f.log + [] == f.log;
  }

  /** A loop's own idle steps do not touch a client. */
  lemma {:induction false} IdleKeepsServing(s: Hub, steps: seq<Step>, s': Hub, p: nat, c: nat)
    requires Serving(s, c) && Run(s, steps) == Some(s')
    requires forall k :: 0 <= k < |steps| ==>
               steps[k] in {LoopStep(p, CheckCtx), LoopStep(p, Wake), LoopStep(p, TestCtx)}
    ensures Serving(s', c)
  {
    if steps != [] {
      var n := |steps| - 1;
      var mid := Run(s, steps[..n]).value;
      IdleKeepsServing(s, steps[..n], mid, p, c);
      ServingKept(mid, steps[n], c);
    }
  }

  /** From every such state loop `p` can be brought to its upstream. */
  lemma {:induction false} LoopSettles(s: Hub, c: nat, p: nat) returns (steps: seq<Step>, s': Hub)
    requires Serving(s, c) && p < |s.feeds|
    ensures Settles(s, steps, s', c, p)
  {
    if InBroadcast(s.feeds[p]) {
      steps, s' := BroadcastFinishes(s, c, p, 0);
    } else {
      IdleServes(s, p, c);
      steps, s' := WayBack(s.feeds[p].pc, p), SetFeed(s, p, s.feeds[p].(pc := Upstream));
    }
  }

  lemma {:induction false} MessageArrives(s: Hub, c: nat, p: nat, m: Payload)
    requires Serving(s, c) && p < |s.feeds| && s.feeds[p].pc == Upstream
    ensures Enabled(s, LoopStep(p, Message(m)))
    ensures var s' := Apply(s, LoopStep(p, Message(m)));
            && Serving(s', c) && p < |s'.feeds| && InBroadcast(s'.feeds[p])
            && OnItsWay(s', c, p, |s.feeds[p].log|) && Messages(s', p) == s.feeds[p].log + [m]
  {
    assert Loop(p) in s.calls ==> CallOk(s, Loop(p));
    ServingKept(s, LoopStep(p, Message(m)), c);
  }

  /** A run after which everything enqueued to the client has been sent to it. */
  ghost predicate Flushes(s: Hub, steps: seq<Step>, s': Hub, c: nat)
  {
    && Run(s, steps) == Some(s') && Arrive !in steps && s'.feeds == s.feeds
    && c < |s.conns| && c < |s'.conns| && s'.conns[c].delivered == s'.conns[c].enqueued == s.conns[c].enqueued
  }

  lemma {:induction false} FlushPrepend(s: Hub, step: Step, rest: seq<Step>, s': Hub, c: nat)
    requires Enabled(s, step) && step != Arrive && Flushes(Apply(s, step), rest, s', c)
    requires Apply(s, step).feeds == s.feeds && c < |s.conns|
    requires Apply(s, step).conns[c].enqueued == s.conns[c].enqueued
    ensures Flushes(s, [step] + rest, s', c)
  {
    RunPrepend(s, step, rest);
  }

  /** What the client's own threads do next while frames are waiting. */
  lemma {:induction false} FlushStep(s: Hub, c: nat) returns (step: Step)
    requires Serving(s, c) && s.conns[c].delivered != s.conns[c].enqueued
    ensures Harmless(s, step, c) && Works(step) && !Turns(step)
    ensures Apply(s, step).feeds == s.feeds && |Apply(s, step).conns| == |s.conns|
    ensures Apply(s, step).conns[c].enqueued == s.conns[c].enqueued
  {
    var k := s.conns[c];
    assert ConnOk(s, c) && QueueOk(k, s.capacity);
    step := if k.reader == RegUnlock then ReaderStep(c, ReleaseLock)
            else if k.reader == Spawn then ReaderStep(c, StartPump)
            else if k.pump == Selecting then PumpStep(c, Take)
            else PumpStep(c, WriteOk);
  }

  lemma {:induction false} Flush(s: Hub, c: nat) returns (steps: seq<Step>, s': Hub)
    requires Serving(s, c)
    ensures Flushes(s, steps, s', c)
    decreases Measure(s)
  {
    if s.conns[c].delivered == s.conns[c].enqueued {
      steps, s' := [], s;
    } else {
      var step := FlushStep(s, c);
      ServingKept(s, step, c);
      StepDescends(s, step);
      var rest;
      rest, s' := Flush(Apply(s, step), c);
      FlushPrepend(s, step, rest, s', c);
      steps := [step] + rest;
    }
  }

  /** Loop `p` has received `m` as its message number `n`, and the client was sent it. */
  ghost predicate Sent(s: Hub, c: nat, p: nat, n: nat, m: Payload)
  {
    && c < |s.conns| && p < |s.feeds| && n < |s.feeds[p].log| && s.feeds[p].log[n] == m
    && Frame(p, n) in s.conns[c].delivered
  }

  lemma {:induction false} ReachesClient(s: Hub, c: nat, p: nat, m: Payload) returns (steps: seq<Step>, s': Hub)
    requires Serving(s, c) && p < |s.feeds| && s.feeds[p].pc == Upstream
    ensures Run(s, steps) == Some(s') && Arrive !in steps && Sent(s', c, p, |s.feeds[p].log|, m)
  {
    var n, first := |s.feeds[p].log|, LoopStep(p, Message(m));
    MessageArrives(s, c, p, m);
    var s1 := Apply(s, first);
    var fan, s2 := BroadcastFinishes(s1, c, p, n);
    var flush;
    flush, s' := Flush(s2, c);
    RunJoin(s1, fan, s2, flush);
    RunPrepend(s, first, fan + flush);
    steps := [first] + (fan + flush);
  }

  /** Every message can reach every client: from every reachable state before `Stop`, for every
      registered client that nobody is closing, every loop and every message, there is a
      continuation without arrivals in which the loop receives the message and the client is
      sent it; the hub is never wedged. */
  lemma {:induction false} EveryMessageCanReach(option: int, s: Hub, c: nat, p: nat, m: Payload)
    returns (steps: seq<Step>, s': Hub, n: nat)
    requires Reachable(option, s) && !s.cancelled && Open(s, c) && c in s.clients && p < 2
    ensures Run(s, steps) == Some(s') && Arrive !in steps && p < |s.feeds|
    ensures n >= |s.feeds[p].log| && Sent(s', c, p, n, m)
  {
    ReachableInv(option, s);
    var settle, s1 := LoopSettles(s, c, p);
    n := |s1.feeds[p].log|;
    var rest;
    rest, s' := ReachesClient(s1, c, p, m);
    RunJoin(s, settle, s1, rest);
    steps := settle + rest;
  }
}
