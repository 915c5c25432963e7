/** Deadlock freedom of the hub, and termination of `Stop`. */
module HubShutdown {
  import opened Collections
  import opened HubModel
  import opened HubInvariants
  import opened HubFanout

  // ===== nobody waits in a circle =====

  /** Thread `t` cannot go on before thread `u` has: through `mu`, `dropMu`, the once of a
      client, or the wait group. */
  predicate WaitsFor(s: Hub, t: Tid, u: Tid)
  {
    || (WantsLock(s, t) && s.writer == Some(u))
    || (AwaitsReaders(s, t) && u in s.readers)
    || (WantsDropMu(s, t) && s.dropMu == Some(u))
    || (EntersOnce(s, t) && s.conns[s.calls[t].client].once == Running(u))
    || (t == Stopper && s.stop == Waiting && u.Loop? && u.p < |s.feeds| && s.feeds[u.p].pc != Ended)
  }

  predicate WantsLock(s: Hub, t: Tid)
  {
    || (t.Reader? && t.c < |s.conns| && s.conns[t.c].reader == RegLock)
    || (t.Loop? && t.p < |s.feeds| && s.feeds[t.p].pc.AskRead?)
    || (t == Stopper && s.stop == StopAsk)
    || (t in s.calls && s.calls[t].stage == Lock)
  }

  predicate AwaitsReaders(s: Hub, t: Tid)
  {
    || (t.Reader? && t.c < |s.conns| && s.conns[t.c].reader == RegInsert)
    || (t in s.calls && s.calls[t].stage == Delete)
  }

  predicate WantsDropMu(s: Hub, t: Tid)
  {
    t.Loop? && t.p < |s.feeds| && s.feeds[t.p].pc.DropAsk?
  }

  predicate EntersOnce(s: Hub, t: Tid)
  {
    t in s.calls && s.calls[t].stage == Enter && s.calls[t].client < |s.conns|
  }

  /** How far a thread is from being unable to wait. */
  function Rank(s: Hub, t: Tid): (r: nat)
    ensures r <= 5
  {
    if t in s.calls then
      match s.calls[t].stage
      case Enter => 4
      case Lock => 3
      case Delete => 2
      case _ => 1
    else if t == Stopper && s.stop == Waiting then 5
    else if WantsLock(s, t) then 3
    else if AwaitsReaders(s, t) || WantsDropMu(s, t) then 2
    else 1
  }

  lemma {:induction false} WaiterRank(s: Hub, t: Tid)
    requires t in s.calls ==> CallOk(s, t)
    ensures WantsLock(s, t) ==> Rank(s, t) == 3
    ensures AwaitsReaders(s, t) || WantsDropMu(s, t) ==> Rank(s, t) == 2
    ensures EntersOnce(s, t) ==> Rank(s, t) == 4
  {
  }

  lemma {:induction false} HolderRank(s: Hub, u: Tid)
    requires u in s.calls ==> CallOk(s, u)
    ensures InWrite(s, u) ==> Rank(s, u) <= 2
    ensures InRead(s, u) || InDrop(s, u) ==> Rank(s, u) == 1
    ensures u.Loop? ==> Rank(s, u) <= 4
  {
  }

  lemma {:induction false} WaitsDescend(s: Hub, t: Tid, u: Tid)
    requires Inv(s) && WaitsFor(s, t, u)
    ensures Rank(s, u) < Rank(s, t)
  {
    assert t in s.calls ==> CallOk(s, t);
    assert u in s.calls ==> CallOk(s, u);
    WaiterRank(s, t);
    HolderRank(s, u);
    assert LockOk(s, u);
    assert EntersOnce(s, t) ==> ConnOk(s, s.calls[t].client);
  }

  /** Each thread of the path waits for the next. */
  ghost predicate WaitChain(s: Hub, path: seq<Tid>)
  {
    forall k :: 0 <= k < |path| - 1 ==> WaitsFor(s, path[k], path[k + 1])
  }

  lemma {:induction false} PathDescends(s: Hub, path: seq<Tid>, i: nat)
    requires Inv(s) && 0 < i < |path| && WaitChain(s, path)
    ensures Rank(s, path[i]) < Rank(s, path[0])
  {
    assert WaitsFor(s, path[i - 1], path[i - 1 + 1]);
    WaitsDescend(s, path[i - 1], path[i]);
    if i > 1 {
      PathDescends(s, path, i - 1);
    }
  }

  /** Deadlock freedom: in no reachable state does a chain of waiting threads lead back to
      its start. */
  lemma {:induction false} NoWaitCycle(option: int, s: Hub, path: seq<Tid>)
    requires Reachable(option, s) && |path| >= 2 && WaitChain(s, path)
    ensures path[0] != path[|path| - 1]
  {
    ReachableInv(option, s);
    PathDescends(s, path, |path| - 1);
  }

  // ===== somebody can always move =====

  ghost function Pick(a: set<nat>): nat
    requires a != {}
  {
    var x :| x in a; x
  }

  /** The next step of a thread that is in the middle of something.  An upstream call
      counts as such once the context is cancelled; a pump with nothing to send, a reader
      waiting for its peer and a thread that has ended do not. */
  ghost function NextOf(s: Hub, t: Tid): Option<Step>
  {
    if t in s.calls then Some(CloseStep(t)) else
    match t
    case Reader(c) => if c < |s.conns| then ReaderNext(s.conns[c], c) else None
    case Pump(c) => if c < |s.conns| then PumpNext(s.conns[c], c) else None
    case Loop(p) => if p < |s.feeds| then LoopNext(s, p) else None
    case Stopper => StopNext(s)
  }

  function ReaderNext(k: Conn, c: nat): Option<Step>
  {
    match k.reader
    case RegLock => Some(ReaderStep(c, TakeLock))
    case RegInsert => Some(ReaderStep(c, Insert))
    case RegUnlock => Some(ReaderStep(c, ReleaseLock))
    case Spawn => Some(ReaderStep(c, StartPump))
    case _ => None
  }

  function PumpNext(k: Conn, c: nat): Option<Step>
  {
    match k.pump
    case Selecting =>
      if k.closed then Some(PumpStep(c, SeeClosed)) else if k.send != [] then Some(PumpStep(c, Take)) else None
    case Writing(_) => Some(PumpStep(c, WriteOk))
    case _ => None
  }

  ghost function LoopNext(s: Hub, p: nat): Option<Step>
    requires p < |s.feeds|
  {
    var f := s.feeds[p];
    match f.pc
    case Test => Some(LoopStep(p, TestCtx))
    case Upstream => if s.cancelled then Some(LoopStep(p, UpstreamReturns)) else None
    case Check => Some(LoopStep(p, CheckCtx))
    case Sleeping => Some(LoopStep(p, Wake))
    case AskRead(_) => Some(LoopStep(p, SnapLock))
    case Copying(_) => Some(LoopStep(p, SnapCopy))
    case Fanning => Some(LoopStep(p, if f.todo == {} then FanDone else Offer(Pick(f.todo))))
    case DropAsk(_) => Some(LoopStep(p, TakeDropMu))
    case DropCount(_) => Some(LoopStep(p, CountDrop))
    case DropRelease(_) => Some(LoopStep(p, ReleaseDropMu))
    case Ended => None
  }

  ghost function StopNext(s: Hub): Option<Step>
  {
    match s.stop
    case StopAsk => Some(StopStep(StopLock))
    case StopCopying => Some(StopStep(StopCopy))
    case Sweeping => Some(StopStep(if s.sweep == {} then SweepDone else SweepOne(Pick(s.sweep))))
    case Waiting => Some(StopStep(Join))
    case _ => None
  }

  predicate CanMove(s: Hub, next: Option<Step>)
  {
    next.Some? && Enabled(s, next.value)
  }

  /** A thread that wants to go on and cannot is waiting for another. */
  lemma {:induction false} BlockedWaits(s: Hub, t: Tid) returns (u: Tid)
    requires Inv(s) && NextOf(s, t).Some? && !Enabled(s, NextOf(s, t).value)
    ensures WaitsFor(s, t, u)
  {
    if t in s.calls {
      u := CloseBlocked(s, t);
    } else {
      match t
      case Reader(c) => u := ReaderBlocked(s, c);
      case Loop(p) => u := LoopBlocked(s, p);
      case Stopper => u := StopBlocked(s);
      case Pump(c) => PumpFree(s, c);
    }
  }

  lemma {:induction false} CloseBlocked(s: Hub, t: Tid) returns (u: Tid)
    requires CallsInv(s) && t in s.calls && !CloseEnabled(s, t)
    ensures WaitsFor(s, t, u)
  {
    assert CallOk(s, t);
    match s.calls[t].stage
    case Enter => u := s.conns[s.calls[t].client].once.holder;
    case Lock => u := s.writer.value;
    case Delete => u :| u in s.readers;
    case _ => assert false;
  }

  lemma {:induction false} ReaderBlocked(s: Hub, c: nat) returns (u: Tid)
    requires c < |s.conns| && ReaderNext(s.conns[c], c).Some? && !Enabled(s, ReaderNext(s.conns[c], c).value)
    ensures WaitsFor(s, Reader(c), u)
  {
    if s.conns[c].reader == RegLock {
      u := s.writer.value;
    } else {
      u :| u in s.readers;
    }
  }

  lemma {:induction false} LoopBlocked(s: Hub, p: nat) returns (u: Tid)
    requires MemberInv(s) && p < |s.feeds| && Loop(p) !in s.calls
    requires LoopNext(s, p).Some? && !Enabled(s, LoopNext(s, p).value)
    ensures WaitsFor(s, Loop(p), u)
  {
    assert FeedInv(s, p);
    if s.feeds[p].pc.DropAsk? {
      u := s.dropMu.value;
    } else {
      u := s.writer.value;
    }
  }

  lemma {:induction false} StopBlocked(s: Hub) returns (u: Tid)
    requires |s.feeds| == 2 && Stopper !in s.calls && StopNext(s).Some? && !Enabled(s, StopNext(s).value)
    ensures WaitsFor(s, Stopper, u)
  {
    if s.stop == StopAsk {
      u := s.writer.value;
    } else {
      u := Loop(if s.feeds[0].pc != Ended then 0 else 1);
    }
  }

  lemma {:induction false} PumpFree(s: Hub, c: nat)
    requires c < |s.conns| && PumpNext(s.conns[c], c).Some?
    ensures Enabled(s, PumpNext(s.conns[c], c).value)
  {
  }

  /** A thread that others wait for wants to go on itself. */
  lemma {:induction false} WaitedWants(s: Hub, t: Tid, u: Tid)
    requires Inv(s) && WaitsFor(s, t, u)
    ensures NextOf(s, u).Some?
  {
    assert LockOk(s, u);
    assert EntersOnce(s, t) ==> ConnOk(s, s.calls[t].client);
  }

  lemma {:induction false} ChainCons(s: Hub, t: Tid, rest: seq<Tid>)
    requires rest != [] && WaitsFor(s, t, rest[0]) && WaitChain(s, rest)
    ensures WaitChain(s, [t] + rest)
  {
    var path := [t] + rest;
    forall k | 0 <= k < |path| - 1 ensures WaitsFor(s, path[k], path[k + 1]) {
      if k > 0 { assert WaitsFor(s, rest[k - 1], rest[k]); }
    }
  }

  /** Every thread that wants to go on either can, or waits, in at most four hops, for one that can. */
  lemma {:induction false} ChainToMover(s: Hub, t: Tid) returns (path: seq<Tid>)
    requires Inv(s) && NextOf(s, t).Some?
    ensures 0 < |path| <= Rank(s, t) && path[0] == t && WaitChain(s, path)
    ensures CanMove(s, NextOf(s, path[|path| - 1]))
    decreases Rank(s, t)
  {
    if Enabled(s, NextOf(s, t).value) {
      path := [t];
    } else {
      var u := BlockedWaits(s, t);
      WaitsDescend(s, t, u);
      WaitedWants(s, t, u);
      var rest := ChainToMover(s, u);
      ChainCons(s, t, rest);
      path := [t] + rest;
    }
  }

  // ===== Stop returns =====

  function StageWeight(stage: Stage): nat
  {
    match stage
    case Enter => 7
    case Mark => 6
    case Hangup => 5
    case Lock => 4
    case Delete => 3
    case Unlock => 2
    case Finish => 1
  }

  function CallWeight(s: Hub, t: Tid): nat
  {
    if t in s.calls then StageWeight(s.calls[t].stage) else 0
  }

  function ReaderWeight(pc: ReaderPc): nat
  {
    match pc
    case RegLock => 12
    case RegInsert => 11
    case RegUnlock => 10
    case Spawn => 9
    case Reading => 8
    case Left => 0
  }

  function PumpWeight(pc: PumpPc): nat
  {
    match pc
    case NotStarted => 8
    case Selecting => 8
    case Writing(_) => 9
    case Stopped => 0
  }

  function ConnWeight(s: Hub, c: nat): nat
    requires c < |s.conns|
  {
    ReaderWeight(s.conns[c].reader) + PumpWeight(s.conns[c].pump) + 2 * |s.conns[c].send| +
    CallWeight(s, Reader(c)) + CallWeight(s, Pump(c))
  }

  function ConnWeights(s: Hub): (ws: seq<nat>)
    ensures |ws| == |s.conns|
  {
    seq(|s.conns|, c requires 0 <= c < |s.conns| => ConnWeight(s, c))
  }

  function LoopWeight(pc: LoopPc, n: nat): nat
  {
    match pc
    case Ended => 0
    case Check => 1
    case Test => 1
    case Sleeping => 2
    case Upstream => 3
    case Fanning => 4
    case Copying(_) => 5 + 13 * n
    case AskRead(_) => 6 + 13 * n
    case DropRelease(_) => 12
    case DropCount(_) => 13
    case DropAsk(_) => 14
  }

  /** The work that the messages still to come may cause with `n` clients. */
  function Budget(residue: nat, n: nat): nat
  {
    residue * (4 + 13 * n)
  }

  lemma {:induction false} BudgetStep(residue: nat, n: nat)
    requires residue > 0
    ensures Budget(residue, n) == Budget(residue - 1, n) + 4 + 13 * n
  {
    assert residue * (4 + 13 * n) == (residue - 1) * (4 + 13 * n) + (4 + 13 * n);
  }

  function FeedWeight(f: Feed, n: nat): nat
  {
    Budget(f.residue, n) + LoopWeight(f.pc, n) + 13 * |f.todo|
  }

  function StopWeight(s: Hub): nat
  {
    match s.stop
    case Off => 0
    case StopAsk => 4 + 9 * |s.conns|
    case StopCopying => 3 + 9 * |s.conns|
    case Sweeping => 2 + 9 * |s.sweep|
    case Waiting => 1
    case Returned => 0
  }

  /** What is left to do once the context is cancelled and no client arrives any more. */
  function Measure(s: Hub): nat
    requires |s.feeds| == 2
  {
    Sum(ConnWeights(s)) + LoopLoad(s, 0) + LoopLoad(s, 1) + StopLoad(s)
  }

  function LoopLoad(s: Hub, p: nat): nat
    requires p < |s.feeds|
  {
    FeedWeight(s.feeds[p], |s.conns|) + CallWeight(s, Loop(p))
  }

  function StopLoad(s: Hub): nat
  {
    StopWeight(s) + CallWeight(s, Stopper)
  }

  /** Steps that change the state: all but a message from the peer and a ping that succeeds. */
  predicate Works(step: Step)
  {
    step != Arrive && !(step.ReaderStep? && step.ract == ReadOk) && !(step.PumpStep? && step.pact == PingOk)
  }

  lemma {:induction false} WeightsUpdate(s: Hub, s': Hub, c: nat)
    requires |s'.conns| == |s.conns| && c < |s.conns|
    requires forall d :: 0 <= d < |s.conns| && d != c ==> ConnWeight(s', d) == ConnWeight(s, d)
    ensures Sum(ConnWeights(s')) + ConnWeight(s, c) == Sum(ConnWeights(s)) + ConnWeight(s', c)
  {
    SumUpdate(ConnWeights(s), c, ConnWeight(s', c));
    assert ConnWeights(s') == ConnWeights(s)[c := ConnWeight(s', c)];
  }

  lemma {:induction false} WeightsSame(s: Hub, s': Hub)
    requires |s'.conns| == |s.conns|
    requires forall d :: 0 <= d < |s.conns| ==> ConnWeight(s', d) == ConnWeight(s, d)
    ensures Sum(ConnWeights(s')) == Sum(ConnWeights(s))
  {
    assert ConnWeights(s') == ConnWeights(s);
  }

  lemma {:induction false} ReaderConnWeight(s: Hub, c: nat, a: ReaderAct, d: nat)
    requires CallsInv(s) && OnceInv(s) && ReaderEnabled(s, c, a) && a != ReadOk && d < |s.conns|
    ensures var s' := ReaderApply(s, c, a);
            && |s'.conns| == |s.conns|
            && if d == c then ConnWeight(s', d) < ConnWeight(s, d) else ConnWeight(s', d) == ConnWeight(s, d)
  {
    if d == c {
      assert ConnOk(s, c);
      assert Reader(c) in s.calls ==> CallOk(s, Reader(c));
      ReaderOwnWeight(s, c, a);
    }
  }

  lemma {:induction false} ReaderOwnWeight(s: Hub, c: nat, a: ReaderAct)
    requires ReaderEnabled(s, c, a) && a != ReadOk && Reader(c) !in s.calls && ConnOk(s, c)
    ensures ConnWeight(ReaderApply(s, c, a), c) < ConnWeight(s, c)
  {
  }

  lemma {:induction false} ReaderRest(s: Hub, c: nat, a: ReaderAct)
    requires |s.feeds| == 2 && ReaderEnabled(s, c, a)
    ensures var s' := ReaderApply(s, c, a);
            && |s'.feeds| == 2 && StopLoad(s') == StopLoad(s)
            && LoopLoad(s', 0) == LoopLoad(s, 0) && LoopLoad(s', 1) == LoopLoad(s, 1)
  {
  }

  lemma {:induction false} ReaderMeasure(s: Hub, c: nat, a: ReaderAct)
    requires CallsInv(s) && OnceInv(s) && |s.feeds| == 2 && ReaderEnabled(s, c, a) && a != ReadOk
    ensures |ReaderApply(s, c, a).feeds| == 2 && Measure(ReaderApply(s, c, a)) < Measure(s)
  {
    var s' := ReaderApply(s, c, a);
    forall d | 0 <= d < |s.conns| ensures d != c ==> ConnWeight(s', d) == ConnWeight(s, d) {
      ReaderConnWeight(s, c, a, d);
    }
    ReaderConnWeight(s, c, a, c);
    WeightsUpdate(s, s', c);
    ReaderRest(s, c, a);
  }

  lemma {:induction false} PumpConnWeight(s: Hub, c: nat, a: PumpAct, d: nat)
    requires CallsInv(s) && PumpEnabled(s, c, a) && a != PingOk && d < |s.conns|
    ensures var s' := PumpApply(s, c, a);
            && |s'.conns| == |s.conns|
            && if d == c then ConnWeight(s', d) < ConnWeight(s, d) else ConnWeight(s', d) == ConnWeight(s, d)
  {
    assert Pump(c) !in s.calls;
  }

  lemma {:induction false} PumpRest(s: Hub, c: nat, a: PumpAct)
    requires |s.feeds| == 2 && PumpEnabled(s, c, a)
    ensures var s' := PumpApply(s, c, a);
            && |s'.feeds| == 2 && StopLoad(s') == StopLoad(s)
            && LoopLoad(s', 0) == LoopLoad(s, 0) && LoopLoad(s', 1) == LoopLoad(s, 1)
  {
  }

  lemma {:induction false} PumpMeasure(s: Hub, c: nat, a: PumpAct)
    requires CallsInv(s) && |s.feeds| == 2 && PumpEnabled(s, c, a) && a != PingOk
    ensures |PumpApply(s, c, a).feeds| == 2 && Measure(PumpApply(s, c, a)) < Measure(s)
  {
    var s' := PumpApply(s, c, a);
    forall d | 0 <= d < |s.conns| ensures d != c ==> ConnWeight(s', d) == ConnWeight(s, d) {
      PumpConnWeight(s, c, a, d);
    }
    PumpConnWeight(s, c, a, c);
    WeightsUpdate(s, s', c);
    PumpRest(s, c, a);
  }

  lemma {:induction false} CloseWeights(s: Hub, t: Tid, u: Tid)
    requires CloseEnabled(s, t)
    ensures var s' := CloseApply(s, t);
            if u == t then CallWeight(s', u) < CallWeight(s, u) else CallWeight(s', u) == CallWeight(s, u)
  {
  }

  lemma {:induction false} CloseConnWeight(s: Hub, t: Tid, d: nat)
    requires CloseEnabled(s, t) && d < |s.conns|
    ensures var s' := CloseApply(s, t);
            && d < |s'.conns|
            && if t == Reader(d) || t == Pump(d) then ConnWeight(s', d) < ConnWeight(s, d)
               else ConnWeight(s', d) == ConnWeight(s, d)
  {
    CloseConnFrame(s, t, d);
    CloseWeights(s, t, Reader(d));
    CloseWeights(s, t, Pump(d));
  }

  /** A close run by a loop or by `Stop` lightens its load; other loads stay. */
  lemma {:induction false} CloseLoads(s: Hub, t: Tid)
    requires |s.feeds| == 2 && CloseEnabled(s, t)
    ensures var s' := CloseApply(s, t);
            && |s'.feeds| == 2
            && (if t == Loop(0) then LoopLoad(s', 0) < LoopLoad(s, 0) else LoopLoad(s', 0) == LoopLoad(s, 0))
            && (if t == Loop(1) then LoopLoad(s', 1) < LoopLoad(s, 1) else LoopLoad(s', 1) == LoopLoad(s, 1))
            && (if t == Stopper then StopLoad(s') < StopLoad(s) else StopLoad(s') == StopLoad(s))
  {
    CloseFrame(s, t);
    CloseWeights(s, t, Loop(0));
    CloseWeights(s, t, Loop(1));
    CloseWeights(s, t, Stopper);
  }

  /** The connections' weights sum to less if one of their threads runs the close. */
  lemma {:induction false} CloseSum(s: Hub, t: Tid)
    requires CallsInv(s) && CloseEnabled(s, t)
    ensures var s' := CloseApply(s, t);
            if t.Reader? || t.Pump? then Sum(ConnWeights(s')) < Sum(ConnWeights(s))
            else Sum(ConnWeights(s')) == Sum(ConnWeights(s))
  {
    var s' := CloseApply(s, t);
    assert CallOk(s, t);
    assert |s'.conns| == |s.conns| by { CloseFrame(s, t); }
    forall d | 0 <= d < |s.conns| && t != Reader(d) && t != Pump(d) ensures ConnWeight(s', d) == ConnWeight(s, d) {
      CloseConnWeight(s, t, d);
    }
    if t.Reader? || t.Pump? {
      CloseConnWeight(s, t, t.c);
      WeightsUpdate(s, s', t.c);
    } else {
      WeightsSame(s, s');
    }
  }

  lemma {:induction false} CloseMeasure(s: Hub, t: Tid)
    requires CallsInv(s) && |s.feeds| == 2 && CloseEnabled(s, t)
    ensures |CloseApply(s, t).feeds| == 2 && Measure(CloseApply(s, t)) < Measure(s)
  {
    assert CallOk(s, t);
    CloseLoads(s, t);
    CloseSum(s, t);
  }

  lemma {:induction false} ClientsBound(s: Hub)
    requires MemberInv(s)
    ensures |s.clients| <= |s.conns|
  {
    BelowSize(s.clients, |s.conns|);
  }

  /** The loads that a step of loop `p` does not touch. */
  lemma {:induction false} LoopRest(s: Hub, p: nat, a: LoopAct)
    requires |s.feeds| == 2 && LoopEnabled(s, p, a)
    ensures var s' := LoopApply(s, p, a);
            |s'.feeds| == 2 && LoopLoad(s', 1 - p) == LoopLoad(s, 1 - p) && StopLoad(s') == StopLoad(s)
  {
    LoopFrame(s, p, a);
  }

  lemma {:induction false} LoopConnWeight(s: Hub, p: nat, a: LoopAct, d: nat)
    requires LoopEnabled(s, p, a) && d < |s.conns|
    ensures var s' := LoopApply(s, p, a);
            && |s'.conns| == |s.conns|
            && ConnWeight(s', d) + 2 * |s.conns[d].send| == ConnWeight(s, d) + 2 * |s'.conns[d].send|
            && (a != Offer(d) ==> s'.conns[d].send == s.conns[d].send)
  {
    LoopFrame(s, p, a);
    LoopConnFrame(s, p, a, d);
  }

  lemma {:induction false} OfferLoad(s: Hub, p: nat, c: nat)
    requires |s.feeds| == 2 && LoopEnabled(s, p, Offer(c))
    ensures var s' := LoopApply(s, p, Offer(c));
            && |s'.feeds| == 2 && |s'.conns| == |s.conns|
            && LoopLoad(s', p) + 2 * |s'.conns[c].send| < LoopLoad(s, p) + 2 * |s.conns[c].send|
  {
  }

  lemma {:induction false} OfferMeasure(s: Hub, p: nat, c: nat)
    requires |s.feeds| == 2 && LoopEnabled(s, p, Offer(c))
    ensures |LoopApply(s, p, Offer(c)).feeds| == 2 && Measure(LoopApply(s, p, Offer(c))) < Measure(s)
  {
    var s' := LoopApply(s, p, Offer(c));
    LoopRest(s, p, Offer(c));
    OfferLoad(s, p, c);
    forall d | 0 <= d < |s.conns| ensures d != c ==> ConnWeight(s', d) == ConnWeight(s, d) {
      LoopConnWeight(s, p, Offer(c), d);
    }
    LoopConnWeight(s, p, Offer(c), c);
    WeightsUpdate(s, s', c);
  }

  lemma {:induction false} MessageLoad(s: Hub, p: nat, a: LoopAct)
    requires s.cancelled && LoopEnabled(s, p, a) && (a.Message? || a.BadMessage?)
    ensures var s' := LoopApply(s, p, a);
            p < |s'.feeds| && LoopLoad(s', p) < LoopLoad(s, p)
  {
    BudgetStep(s.feeds[p].residue, |s.conns|);
  }

  lemma {:induction false} OtherLoad(s: Hub, p: nat, a: LoopAct)
    requires MemberInv(s) && LoopEnabled(s, p, a) && !a.Offer? && !a.Message? && !a.BadMessage?
    requires s.cancelled || !Turns(LoopStep(p, a))
    ensures var s' := LoopApply(s, p, a);
            p < |s'.feeds| && LoopLoad(s', p) < LoopLoad(s, p)
  {
    assert FeedInv(s, p);
    ClientsBound(s);
  }

  lemma {:induction false} LoopMeasure(s: Hub, p: nat, a: LoopAct)
    requires MemberInv(s) && LoopEnabled(s, p, a) && !a.Offer? && (s.cancelled || !Turns(LoopStep(p, a)))
    ensures |LoopApply(s, p, a).feeds| == 2 && Measure(LoopApply(s, p, a)) < Measure(s)
  {
    var s' := LoopApply(s, p, a);
    LoopRest(s, p, a);
    if a.Message? || a.BadMessage? { MessageLoad(s, p, a); } else { OtherLoad(s, p, a); }
    LoopFrame(s, p, a);
    forall d | 0 <= d < |s.conns| ensures ConnWeight(s', d) == ConnWeight(s, d) {
      LoopConnWeight(s, p, a, d);
    }
    WeightsSame(s, s');
  }

  lemma {:induction false} StopDescends(s: Hub, a: StopAct)
    requires MemberInv(s) && s.stop != Off && StopEnabled(s, a)
    ensures var s' := StopApply(s, a);
            && s'.feeds == s.feeds && s'.conns == s.conns && StopLoad(s') < StopLoad(s)
            && (forall t :: t != Stopper ==> CallWeight(s', t) == CallWeight(s, t))
  {
    ClientsBound(s);
  }

  lemma {:induction false} StopMeasure(s: Hub, a: StopAct)
    requires MemberInv(s) && s.stop != Off && StopEnabled(s, a)
    ensures |StopApply(s, a).feeds| == 2 && Measure(StopApply(s, a)) < Measure(s)
  {
    StopDescends(s, a);
    WeightsSame(s, StopApply(s, a));
  }

  /** The steps by which an uncancelled loop goes round and `Stop` begins. */
  predicate Turns(step: Step)
  {
    || (step.LoopStep? && (step.lact.TestCtx? || step.lact.CheckCtx? || step.lact.Message? || step.lact.BadMessage?))
    || (step.StopStep? && step.sact.Cancel?)
  }

  /** After cancellation every working step of any thread makes the measure smaller; before
      it, every one that does not begin something new. */
  lemma {:induction false} StepDescends(s: Hub, step: Step)
    requires Inv(s) && Enabled(s, step) && Works(step) && (s.cancelled || !Turns(step))
    ensures |Apply(s, step).feeds| == 2 && Measure(Apply(s, step)) < Measure(s)
  {
    match step
    case ReaderStep(c, a) => ReaderMeasure(s, c, a);
    case PumpStep(c, a) => PumpMeasure(s, c, a);
    case CloseStep(t) => CloseMeasure(s, t);
    case LoopStep(p, a) =>
      if a.Offer? { OfferMeasure(s, p, a.client); } else { LoopMeasure(s, p, a); }
    case StopStep(a) => StopMeasure(s, a);
  }

  /** The number of working steps in a run. */
  function Work(steps: seq<Step>): nat
  {
    if steps == [] then 0 else Work(steps[..|steps| - 1]) + if Works(steps[|steps| - 1]) then 1 else 0
  }

  lemma {:induction false} CancelledStays(s: Hub, step: Step)
    requires s.cancelled && Enabled(s, step)
    ensures Apply(s, step).cancelled
  {
    match step
    case CloseStep(t) => CloseFrame(s, t);
    case LoopStep(p, a) => LoopFrame(s, p, a);
    case _ =>
  }

  lemma {:induction false} WorkBounded(s: Hub, steps: seq<Step>, s': Hub)
    requires Inv(s) && s.cancelled && Run(s, steps) == Some(s') && Arrive !in steps
    ensures Inv(s') && s'.cancelled && Work(steps) + Measure(s') <= Measure(s)
  {
    if steps != [] {
      var n := |steps| - 1;
      var mid, step := Run(s, steps[..n]).value, steps[n];
      WorkBounded(s, steps[..n], mid);
      InvKept(mid, step);
      CancelledStays(mid, step);
      if Works(step) {
        StepDescends(mid, step);
      }
    }
  }

  /** Once `Stop` has cancelled the context and no further client arrives, every run takes
      at most `Measure` working steps, however the threads are scheduled. */
  lemma {:induction false} ShutdownIsBounded(option: int, s: Hub, steps: seq<Step>, s': Hub)
    requires Reachable(option, s) && s.stop != Off && Run(s, steps) == Some(s') && Arrive !in steps
    ensures |s.feeds| == 2 && Work(steps) <= Measure(s)
  {
    ReachableInv(option, s);
    WorkBounded(s, steps, s');
  }

  /** As long as `Stop` has not returned, some thread of the hub can take a working step. */
  lemma {:induction false} ShutdownProgresses(s: Hub) returns (t: Tid)
    requires Inv(s) && s.stop != Off && s.stop != Returned
    ensures CanMove(s, NextOf(s, t)) && Works(NextOf(s, t).value)
  {
    assert Stopper in s.calls ==> CallOk(s, Stopper);
    var path := ChainToMover(s, Stopper);
    t := path[|path| - 1];
  }

  lemma {:induction false} StopIsReached(s: Hub) returns (steps: seq<Step>)
    requires Inv(s) && s.stop != Off
    ensures Run(s, steps).Some? && Run(s, steps).value.stop == Returned && Arrive !in steps
    decreases Measure(s)
  {
    if s.stop == Returned {
      steps := [];
    } else {
      var t := ShutdownProgresses(s);
      var step := NextOf(s, t).value;
      StepDescends(s, step);
      InvKept(s, step);
      CancelledStays(s, step);
      var rest := StopIsReached(Apply(s, step));
      steps := [step] + rest;
      RunPrepend(s, step, rest);
    }
  }

  /** `Stop` returns: from every reachable state after its call there is a continuation in
      which it does, and a state in which no thread of the hub can move is one in which it
      has; with the bound on working steps, every schedule that does not neglect the hub's
      threads forever gets there. */
  lemma {:induction false} StopReturns(option: int, s: Hub) returns (steps: seq<Step>)
    requires Reachable(option, s) && s.stop != Off
    ensures Run(s, steps).Some? && Run(s, steps).value.stop == Returned && Arrive !in steps
    ensures (forall t :: !CanMove(s, NextOf(s, t))) ==> s.stop == Returned
  {
    ReachableInv(option, s);
    steps := StopIsReached(s);
    if s.stop != Returned {
      var t := ShutdownProgresses(s);
    }
  }

  /** From its copy on, the snapshot of `Stop` stays what it is. */
  lemma {:induction false} SnapshotStays(s: Hub, step: Step)
    requires Enabled(s, step) && (s.stop == Sweeping || s.stop == Waiting || s.stop == Returned)
    ensures var s' := Apply(s, step);
            s'.snapshot == s.snapshot && (s'.stop == Sweeping || s'.stop == Waiting || s'.stop == Returned)
  {
    match step
    case CloseStep(t) => CloseFrame(s, t);
    case LoopStep(p, a) => LoopFrame(s, p, a);
    case _ =>
  }

  lemma {:induction false} SnapshotKept(s: Hub, steps: seq<Step>, s': Hub)
    requires Run(s, steps) == Some(s') && s.stop == Sweeping
    ensures s'.snapshot == s.snapshot && (s'.stop == Sweeping || s'.stop == Waiting || s'.stop == Returned)
  {
    if steps != [] {
      var n := |steps| - 1;
      var mid := Run(s, steps[..n]).value;
      SnapshotKept(s, steps[..n], mid);
      SnapshotStays(mid, steps[n]);
    }
  }

  /** What holds when `Stop` has returned: both loops have ended, and every client that was
      registered when it copied the client map is closed, hung up and out of the fan-out set. */
  lemma {:induction false} StopLeavesNothing(option: int, s: Hub, steps: seq<Step>, s': Hub, c: nat)
    requires Reachable(option, s) && StopEnabled(s, StopCopy) && c in s.clients
    requires Run(StopApply(s, StopCopy), steps) == Some(s') && s'.stop == Returned
    ensures |s'.feeds| == 2 && s'.feeds[0].pc == Ended && s'.feeds[1].pc == Ended
    ensures c < |s'.conns| && s'.conns[c].closed && s'.conns[c].hungUp && s'.conns[c].once == Done && c !in s'.clients
  {
    ReachableInv(option, s);
    InvKept(s, StopStep(StopCopy));
    RunInv(StopApply(s, StopCopy), steps, s');
    SnapshotKept(StopApply(s, StopCopy), steps, s');
    assert ConnOk(s', c);
  }
}
