/** What every step of the hub keeps. */
module HubInvariants {
  import opened Collections
  import opened HubModel

  // ----- threads and locks -----

  /** `Serve` has put the client into the fan-out set, though it may have left since. */
  predicate Registered(s: Hub, c: nat)
  {
    c < |s.conns| && !s.conns[c].reader.RegLock? && !s.conns[c].reader.RegInsert?
  }

  /** The thread has announced itself as a writer of `mu`, or is inside. */
  predicate InWrite(s: Hub, t: Tid)
  {
    || (t.Reader? && t.c < |s.conns| && (s.conns[t.c].reader.RegInsert? || s.conns[t.c].reader.RegUnlock?))
    || (t in s.calls && (s.calls[t].stage.Delete? || s.calls[t].stage.Unlock?))
  }

  predicate InRead(s: Hub, t: Tid)
  {
    || (t.Loop? && t.p < |s.feeds| && s.feeds[t.p].pc.Copying?)
    || (t.Stopper? && s.stop == StopCopying)
  }

  predicate InDrop(s: Hub, t: Tid)
  {
    t.Loop? && t.p < |s.feeds| && (s.feeds[t.p].pc.DropCount? || s.feeds[t.p].pc.DropRelease?)
  }

  /** The write is done and the lock not yet released. */
  predicate Wrote(s: Hub, t: Tid)
  {
    || (t.Reader? && t.c < |s.conns| && s.conns[t.c].reader == RegUnlock)
    || (t in s.calls && s.calls[t].stage == Unlock)
  }

  /** A call of `close` belongs to a thread that is waiting for it. */
  predicate CallOk(s: Hub, t: Tid)
    requires t in s.calls
  {
    var c := s.calls[t].client;
    Registered(s, c) &&
    match t
    case Loop(p) => p < |s.feeds| && s.feeds[p].pc == Fanning && c !in s.feeds[p].todo
    case Stopper => s.stop == Sweeping
    case Reader(k) => k == c && s.conns[k].reader == Left
    case Pump(k) => k == c && s.conns[k].pump == Stopped
  }

  ghost predicate CallsInv(s: Hub)
  {
    forall t :: t in s.calls ==> CallOk(s, t)
  }

  /** The locks agree with where the thread is. */
  predicate LockOk(s: Hub, t: Tid)
  {
    && (s.writer == Some(t) <==> InWrite(s, t))
    && (t in s.readers <==> InRead(s, t))
    && (s.dropMu == Some(t) <==> InDrop(s, t))
    && (Wrote(s, t) ==> s.readers == {})
  }

  ghost predicate LockInv(s: Hub)
  {
    forall t :: LockOk(s, t)
  }

  // ----- clients and their close -----

  predicate Victim(f: Feed, c: nat)
  {
    f.pc == DropAsk(c) || f.pc == DropCount(c) || f.pc == DropRelease(c)
  }

  /** The loop is past its snapshot and working through it. */
  predicate Broadcasting(f: Feed)
  {
    f.pc == Fanning || f.pc.DropAsk? || f.pc.DropCount? || f.pc.DropRelease?
  }

  ghost predicate FeedInv(s: Hub, p: nat)
    requires p < |s.feeds|
  {
    var f := s.feeds[p];
    && (forall c :: c in f.todo ==> Registered(s, c) && |f.log| >= 1)
    && (forall c :: c in f.dropped ==> Registered(s, c) && c !in f.todo)
    && (forall c :: Victim(f, c) ==> Registered(s, c) && c !in f.todo)
    && (!Broadcasting(f) ==> f.todo == {})
  }

  ghost predicate MemberInv(s: Hub)
  {
    && |s.feeds| == 2
    && (forall c :: c in s.clients ==> Registered(s, c))
    && (forall c :: c in s.sweep ==> Registered(s, c))
    && (forall c :: c in s.snapshot ==> Registered(s, c))
    && (forall p: nat :: p < |s.feeds| ==> FeedInv(s, p))
  }

  /** A client that is not registered yet is untouched; the once, the channel and the
      fan-out set agree on how far its close has come. */
  ghost predicate ConnOk(s: Hub, c: nat)
    requires c < |s.conns|
  {
    var k := s.conns[c];
    && (!Registered(s, c) ==> k.once == Fresh && k.enqueued == [])
    && (k.pump == NotStarted <==> !k.reader.Reading? && !k.reader.Left?)
    && (k.once == Fresh ==> !k.closed && !k.hungUp)
    && (k.once == Done ==> k.closed && k.hungUp && c !in s.clients)
    && (k.once.Running? ==>
          var t := k.once.holder;
          && t in s.calls && s.calls[t].client == c && s.calls[t].stage != Enter
          && (k.closed <==> s.calls[t].stage != Mark)
          && (s.calls[t].stage != Mark && s.calls[t].stage != Hangup ==> k.hungUp)
          && (s.calls[t].stage.Unlock? || s.calls[t].stage.Finish? ==> c !in s.clients))
  }

  /** Whoever is past the entry of `close` runs the once. */
  ghost predicate RunnerOk(s: Hub, t: Tid)
    requires t in s.calls
  {
    s.calls[t].stage != Enter ==> s.calls[t].client < |s.conns| && s.conns[s.calls[t].client].once == Running(t)
  }

  ghost predicate OnceInv(s: Hub)
  {
    && (forall c: nat :: c < |s.conns| ==> ConnOk(s, c))
    && (forall t :: t in s.calls ==> RunnerOk(s, t))
  }

  // ----- channels -----

  predicate QueueOk(k: Conn, capacity: nat)
  {
    && k.enqueued == k.taken + k.send
    && |k.send| <= capacity
    && (match k.pump
        case Writing(f) => k.taken == k.delivered + [f]
        case Stopped => k.delivered <= k.taken && |k.taken| <= |k.delivered| + 1
        case _ => k.taken == k.delivered)
  }

  ghost predicate QueueInv(s: Hub)
  {
    s.capacity >= 1 && forall c :: 0 <= c < |s.conns| ==> QueueOk(s.conns[c], s.capacity)
  }

  // ----- gapless fan-out -----

  /** The numbers of the frames that loop `p` put on a channel, in order. */
  function Nums(frames: seq<Frame>, p: nat): (ns: seq<nat>)
  {
    if frames == [] then [] else
    var last := frames[|frames| - 1];
    Nums(frames[..|frames| - 1], p) + if last.src == p then [last.num] else []
  }

  predicate Consecutive(ns: seq<nat>)
  {
    forall x :: 0 <= x < |ns| ==> ns[x] == ns[0] + x
  }

  /** Loop `p` found the channel of `c` full and has not finished closing it. */
  predicate Dropping(s: Hub, p: nat, c: nat)
    requires p < |s.feeds|
  {
    Victim(s.feeds[p], c) || (Loop(p) in s.calls && s.calls[Loop(p)].client == c)
  }

  ghost predicate GapOk(s: Hub, c: nat, p: nat)
    requires c < |s.conns| && p < |s.feeds|
  {
    var ns, f := Nums(s.conns[c].enqueued, p), s.feeds[p];
    && Consecutive(ns)
    && (ns != [] ==>
          && ns[|ns| - 1] < |f.log|
          && (c in f.todo ==> ns[|ns| - 1] == |f.log| - 2)
          && (c in s.clients && c !in f.todo && !Dropping(s, p, c) ==> ns[|ns| - 1] == |f.log| - 1))
  }

  ghost predicate GapInv(s: Hub)
  {
    forall c: nat, p: nat :: c < |s.conns| && p < |s.feeds| ==> GapOk(s, c, p)
  }

  // ----- drops and conservation -----

  /** A counted drop is being finished by its loop, or the client is gone for good. */
  ghost predicate DropOk(s: Hub, p: nat, c: nat)
    requires p < |s.feeds|
  {
    c in s.feeds[p].dropped ==>
      && c < |s.conns|
      && !(s.feeds[p].pc == DropAsk(c) || s.feeds[p].pc == DropCount(c))
      && (s.conns[c].once == Done || Dropping(s, p, c))
  }

  ghost predicate DropInv(s: Hub)
  {
    && (forall p: nat, c: nat :: p < |s.feeds| ==> DropOk(s, p, c))
    && |s.feeds| == 2 && s.drops == |s.feeds[0].dropped| + |s.feeds[1].dropped|
  }

  /** The lengths of all histories of enqueued frames. */
  function Lengths(conns: seq<Conn>): (ns: seq<nat>)
    ensures |ns| == |conns|
  {
    seq(|conns|, i requires 0 <= i < |conns| => |conns[i].enqueued|)
  }

  /** Snapshot entries that the loop has neither sent nor counted as dropped. */
  function Outstanding(f: Feed): nat
  {
    |f.todo| + if f.pc.DropAsk? || f.pc.DropCount? then 1 else 0
  }

  ghost predicate CountInv(s: Hub)
  {
    && s.sends == Sum(Lengths(s.conns))
    && |s.feeds| == 2
    && s.sends + s.drops + Outstanding(s.feeds[0]) + Outstanding(s.feeds[1]) == s.feeds[0].offered + s.feeds[1].offered
  }

  // ----- shutdown -----

  /** A client of the snapshot of `Stop` is yet to be closed, being closed, or done. */
  predicate SweptOk(s: Hub, c: nat)
  {
    c < |s.conns| && (c in s.sweep || s.conns[c].once == Done || (Stopper in s.calls && s.calls[Stopper].client == c))
  }

  ghost predicate StopInv(s: Hub)
  {
    && (s.cancelled <==> s.stop != Off)
    && (forall p :: 0 <= p < |s.feeds| && s.feeds[p].pc == Ended ==> s.cancelled)
    && (s.stop.Waiting? || s.stop.Returned? ==>
          forall c :: c in s.snapshot ==> c < |s.conns| && s.conns[c].once == Done)
    && (s.stop == Sweeping ==> forall c :: c in s.snapshot ==> SweptOk(s, c))
    && (s.stop == Returned ==> forall p :: 0 <= p < |s.feeds| ==> s.feeds[p].pc == Ended)
  }

  // ----- leaving -----

  /** A pump that has left is closing its client, or that close has completed. */
  predicate LeaverOk(s: Hub, c: nat)
    requires c < |s.conns|
  {
    && (s.conns[c].reader == Left ==> Reader(c) in s.calls || s.conns[c].once == Done)
    && (s.conns[c].pump == Stopped ==> Pump(c) in s.calls || s.conns[c].once == Done)
  }

  ghost predicate LeaverInv(s: Hub)
  {
    forall c: nat :: c < |s.conns| ==> LeaverOk(s, c)
  }

  ghost predicate Inv(s: Hub)
  {
    CallsInv(s) && LockInv(s) && MemberInv(s) && OnceInv(s) && QueueInv(s) &&
    GapInv(s) && DropInv(s) && CountInv(s) && StopInv(s) && LeaverInv(s)
  }

  lemma {:induction false} InitInv(option: int)
    ensures Inv(Init(option))
  {
  }

  // ===== each invariant is kept by every step =====

  /** The thread that takes a step. */
  function Actor(step: Step): Tid
  {
    match step
    case Arrive => Stopper
    case ReaderStep(c, _) => Reader(c)
    case PumpStep(c, _) => Pump(c)
    case CloseStep(t) => t
    case LoopStep(p, _) => Loop(p)
    case StopStep(_) => Stopper
  }

  // ----- calls of close -----

  lemma {:induction false} ReaderCallKept(s: Hub, c: nat, a: ReaderAct, t: Tid)
    requires CallsInv(s) && OnceInv(s) && ReaderEnabled(s, c, a) && t in ReaderApply(s, c, a).calls
    ensures CallOk(ReaderApply(s, c, a), t)
  {
    assert ConnOk(s, c);
    if t in s.calls { assert CallOk(s, t); }
  }

  lemma {:induction false} PumpCallKept(s: Hub, c: nat, a: PumpAct, t: Tid)
    requires CallsInv(s) && OnceInv(s) && PumpEnabled(s, c, a) && t in PumpApply(s, c, a).calls
    ensures CallOk(PumpApply(s, c, a), t)
  {
    assert ConnOk(s, c);
    if t in s.calls { assert CallOk(s, t); }
  }

  lemma {:induction false} CloseCallKept(s: Hub, u: Tid, t: Tid)
    requires CallsInv(s) && CloseEnabled(s, u) && t in CloseApply(s, u).calls
    ensures CallOk(CloseApply(s, u), t)
  {
    CloseCalls(s, u, t);
    assert CallOk(s, t);
    CloseFrame(s, u);
    CloseCalls(s, u, t);
    CloseConnFrame(s, u, s.calls[t].client);
  }

  /** What a step of `close` leaves alone. */
  lemma {:induction false} CloseFrame(s: Hub, u: Tid)
    requires CloseEnabled(s, u)
    ensures var s' := CloseApply(s, u);
            && s'.feeds == s.feeds && s'.stop == s.stop && s'.readers == s.readers && s'.dropMu == s.dropMu
            && s'.cancelled == s.cancelled && s'.sweep == s.sweep && s'.snapshot == s.snapshot && s'.drops == s.drops
            && s'.sends == s.sends && s'.capacity == s.capacity && s'.clients <= s.clients && |s'.conns| == |s.conns|
  {
  }

  lemma {:induction false} CloseCalls(s: Hub, u: Tid, t: Tid)
    requires CloseEnabled(s, u)
    ensures var s' := CloseApply(s, u);
            && (t in s'.calls ==> t in s.calls && s'.calls[t].client == s.calls[t].client)
            && (t != u && t in s.calls ==> t in s'.calls && s'.calls[t] == s.calls[t])
  {
  }

  lemma {:induction false} CloseConnFrame(s: Hub, u: Tid, c: nat)
    requires CloseEnabled(s, u) && c < |s.conns|
    ensures var s' := CloseApply(s, u);
            && |s'.conns| == |s.conns|
            && s'.conns[c] == s.conns[c].(closed := s'.conns[c].closed, hungUp := s'.conns[c].hungUp,
                                          once := s'.conns[c].once)
            && (c != s.calls[u].client ==> s'.conns[c] == s.conns[c])
            && (s.conns[c].once == Done ==> s'.conns[c].once == Done)
  {
  }

  lemma {:induction false} LoopCallKept(s: Hub, p: nat, a: LoopAct, t: Tid)
    requires CallsInv(s) && MemberInv(s) && LoopEnabled(s, p, a) && t in LoopApply(s, p, a).calls
    ensures CallOk(LoopApply(s, p, a), t)
  {
    LoopFrame(s, p, a);
    if t == Loop(p) {
      OwnCallKept(s, p, a);
    } else {
      assert CallOk(s, t);
      LoopConnFrame(s, p, a, s.calls[t].client);
    }
  }

  /** The call that a loop starts after counting a drop. */
  lemma {:induction false} OwnCallKept(s: Hub, p: nat, a: LoopAct)
    requires MemberInv(s) && LoopEnabled(s, p, a) && Loop(p) in LoopApply(s, p, a).calls
    ensures CallOk(LoopApply(s, p, a), Loop(p))
  {
    var f := s.feeds[p];
    assert FeedInv(s, p);
    assert a == ReleaseDropMu;
    assert Victim(f, f.pc.victim);
  }

  lemma {:induction false} StopCallKept(s: Hub, a: StopAct, t: Tid)
    requires CallsInv(s) && MemberInv(s) && StopEnabled(s, a) && t in StopApply(s, a).calls
    ensures CallOk(StopApply(s, a), t)
  {
    if t in s.calls { assert CallOk(s, t); }
  }

  lemma {:induction false} CallKept(s: Hub, step: Step, t: Tid)
    requires CallsInv(s) && MemberInv(s) && OnceInv(s) && Enabled(s, step) && t in Apply(s, step).calls
    ensures CallOk(Apply(s, step), t)
  {
    match step
    case ReaderStep(c, a) => ReaderCallKept(s, c, a, t);
    case PumpStep(c, a) => PumpCallKept(s, c, a, t);
    case CloseStep(u) => CloseCallKept(s, u, t);
    case LoopStep(p, a) => LoopCallKept(s, p, a, t);
    case StopStep(a) => StopCallKept(s, a, t);
    case Arrive => assert CallOk(s, t);
  }

  lemma {:induction false} CallsKept(s: Hub, step: Step)
    requires CallsInv(s) && MemberInv(s) && OnceInv(s) && Enabled(s, step)
    ensures CallsInv(Apply(s, step))
  {
    forall t | t in Apply(s, step).calls ensures CallOk(Apply(s, step), t) {
      CallKept(s, step, t);
    }
  }

  // ----- what the threads of a connection leave alone -----

  lemma {:induction false} ReaderConnFrame(s: Hub, d: nat, a: ReaderAct, c: nat)
    requires ReaderEnabled(s, d, a) && c < |s.conns|
    ensures var s' := ReaderApply(s, d, a);
            && |s'.conns| == |s.conns|
            && s'.conns[c] == s.conns[c].(reader := s'.conns[c].reader, pump := s'.conns[c].pump)
            && (Registered(s, c) ==> Registered(s', c))
  {
  }

  lemma {:induction false} PumpConnFrame(s: Hub, d: nat, a: PumpAct, c: nat)
    requires PumpEnabled(s, d, a) && c < |s.conns|
    ensures var s' := PumpApply(s, d, a);
            && |s'.conns| == |s.conns|
            && s'.conns[c] == s.conns[c].(send := s'.conns[c].send, taken := s'.conns[c].taken,
                                          delivered := s'.conns[c].delivered, pump := s'.conns[c].pump)
  {
  }

  // ----- locks -----

  lemma {:induction false} ReaderLockKept(s: Hub, c: nat, a: ReaderAct, t: Tid)
    requires CallsInv(s) && LockInv(s) && ReaderEnabled(s, c, a)
    ensures LockOk(ReaderApply(s, c, a), t)
  {
    assert LockOk(s, t) && LockOk(s, Reader(c));
    assert Reader(c) in s.calls ==> CallOk(s, Reader(c));
  }

  lemma {:induction false} PumpLockKept(s: Hub, c: nat, a: PumpAct, t: Tid)
    requires CallsInv(s) && LockInv(s) && PumpEnabled(s, c, a)
    ensures LockOk(PumpApply(s, c, a), t)
  {
    assert LockOk(s, t);
    assert Pump(c) in s.calls ==> CallOk(s, Pump(c));
  }

  lemma {:induction false} CloseLockKept(s: Hub, u: Tid, t: Tid)
    requires CallsInv(s) && LockInv(s) && CloseEnabled(s, u)
    ensures LockOk(CloseApply(s, u), t)
  {
    if t == u {
      assert LockOk(s, u) && CallOk(s, u);
      OwnCloseLockKept(s, u);
    } else {
      OtherCloseLockKept(s, u, t);
    }
  }

  lemma {:induction false} OwnCloseLockKept(s: Hub, u: Tid)
    requires CloseEnabled(s, u) && LockOk(s, u) && CallOk(s, u)
    ensures LockOk(CloseApply(s, u), u)
  {
    var s' := CloseApply(s, u);
    CloseFrame(s, u);
    if u.Reader? { CloseConnFrame(s, u, u.c); }
    assert InRead(s', u) == InRead(s, u) && InDrop(s', u) == InDrop(s, u);
    assert InWrite(s', u) <==> s.calls[u].stage.Lock? || s.calls[u].stage.Delete?;
    assert Wrote(s', u) <==> s.calls[u].stage.Delete?;
  }

  lemma {:induction false} OtherCloseLockKept(s: Hub, u: Tid, t: Tid)
    requires LockInv(s) && CloseEnabled(s, u) && t != u
    ensures LockOk(CloseApply(s, u), t)
  {
    CloseFrame(s, u);
    CloseCalls(s, u, t);
    if t.Reader? && t.c < |s.conns| { CloseConnFrame(s, u, t.c); }
    assert LockOk(s, t) && LockOk(s, u);
  }

  /** What a step of an upstream loop leaves alone. */
  lemma {:induction false} LoopFrame(s: Hub, p: nat, a: LoopAct)
    requires LoopEnabled(s, p, a)
    ensures var s' := LoopApply(s, p, a);
            && s'.clients == s.clients && s'.writer == s.writer && s'.stop == s.stop
            && s'.cancelled == s.cancelled && s'.capacity == s.capacity
            && s'.sweep == s.sweep && s'.snapshot == s.snapshot && |s'.feeds| == |s.feeds| && |s'.conns| == |s.conns|
            && (forall q :: 0 <= q < |s.feeds| && q != p ==> s'.feeds[q] == s.feeds[q])
            && (forall t :: t != Loop(p) ==>
                  (t in s'.calls <==> t in s.calls) && (t in s.calls ==> s'.calls[t] == s.calls[t]))
  {
  }

  lemma {:induction false} LoopConnFrame(s: Hub, p: nat, a: LoopAct, c: nat)
    requires LoopEnabled(s, p, a) && c < |s.conns|
    ensures var s' := LoopApply(s, p, a);
            && |s'.conns| == |s.conns|
            && s'.conns[c] == s.conns[c].(send := s'.conns[c].send, enqueued := s'.conns[c].enqueued)
            && (a != Offer(c) ==> s'.conns[c] == s.conns[c])
  {
  }

  lemma {:induction false} LoopLockKept(s: Hub, p: nat, a: LoopAct, t: Tid)
    requires LockInv(s) && LoopEnabled(s, p, a)
    ensures LockOk(LoopApply(s, p, a), t)
  {
    if t == Loop(p) {
      OwnLoopLockKept(s, p, a);
    } else {
      OtherLoopLockKept(s, p, a, t);
    }
  }

  lemma {:induction false} OwnLoopLockKept(s: Hub, p: nat, a: LoopAct)
    requires LockInv(s) && LoopEnabled(s, p, a)
    ensures LockOk(LoopApply(s, p, a), Loop(p))
  {
    assert LockOk(s, Loop(p));
  }

  lemma {:induction false} OtherLoopLockKept(s: Hub, p: nat, a: LoopAct, t: Tid)
    requires LockInv(s) && LoopEnabled(s, p, a) && t != Loop(p)
    ensures LockOk(LoopApply(s, p, a), t)
  {
    var s' := LoopApply(s, p, a);
    LoopFrame(s, p, a);
    if t.Reader? && t.c < |s.conns| {
      LoopConnFrame(s, p, a, t.c);
    }
    LoopLocks(s, p, a);
    assert LockOk(s, t) && LockOk(s, Loop(p));
  }

  /** How a step of loop `p` moves the locks. */
  lemma {:induction false} LoopLocks(s: Hub, p: nat, a: LoopAct)
    requires LoopEnabled(s, p, a)
    ensures var s' := LoopApply(s, p, a);
            && (s'.readers == s.readers || (s'.readers == s.readers + {Loop(p)} && s.writer == None) ||
                (s'.readers == s.readers - {Loop(p)} && s.feeds[p].pc.Copying?))
            && (s'.dropMu == s.dropMu || (s.dropMu == None && s'.dropMu == Some(Loop(p))) ||
                (s.feeds[p].pc.DropRelease? && s'.dropMu == None))
  {
  }

  lemma {:induction false} StopLockKept(s: Hub, a: StopAct, t: Tid)
    requires LockInv(s) && StopEnabled(s, a)
    ensures LockOk(StopApply(s, a), t)
  {
    assert LockOk(s, t) && LockOk(s, Stopper);
  }

  lemma {:induction false} ThreadLockKept(s: Hub, step: Step, t: Tid)
    requires CallsInv(s) && LockInv(s) && Enabled(s, step)
    ensures LockOk(Apply(s, step), t)
  {
    match step
    case ReaderStep(c, a) => ReaderLockKept(s, c, a, t);
    case PumpStep(c, a) => PumpLockKept(s, c, a, t);
    case CloseStep(u) => CloseLockKept(s, u, t);
    case LoopStep(p, a) => LoopLockKept(s, p, a, t);
    case StopStep(a) => StopLockKept(s, a, t);
    case Arrive => assert LockOk(s, t);
  }

  lemma {:induction false} LockKept(s: Hub, step: Step)
    requires CallsInv(s) && LockInv(s) && Enabled(s, step)
    ensures LockInv(Apply(s, step))
  {
    forall t ensures LockOk(Apply(s, step), t) {
      ThreadLockKept(s, step, t);
    }
  }

  // ----- members -----

  lemma {:induction false} RegisteredKept(s: Hub, step: Step, c: nat)
    requires Enabled(s, step) && Registered(s, c)
    ensures Registered(Apply(s, step), c)
  {
    match step
    case ReaderStep(d, a) => ReaderConnFrame(s, d, a, c);
    case PumpStep(d, a) => PumpConnFrame(s, d, a, c);
    case CloseStep(t) => CloseConnFrame(s, t, c);
    case LoopStep(p, a) => LoopConnFrame(s, p, a, c);
    case _ =>
  }

  /** Taking a snapshot brings back no client whose drop was counted. */
  lemma {:induction false} DroppedAreOut(s: Hub, p: nat, c: nat)
    requires CallsInv(s) && OnceInv(s) && DropInv(s) && LoopEnabled(s, p, SnapCopy) && c in s.feeds[p].dropped
    ensures c !in s.clients
  {
    assert DropOk(s, p, c);
    assert ConnOk(s, c);
  }

  lemma {:induction false} SnapFeedKept(s: Hub, p: nat)
    requires CallsInv(s) && MemberInv(s) && OnceInv(s) && DropInv(s) && LoopEnabled(s, p, SnapCopy)
    ensures FeedInv(LoopApply(s, p, SnapCopy), p)
  {
    assert FeedInv(s, p);
    forall c | c in s.feeds[p].dropped ensures c !in s.clients {
      DroppedAreOut(s, p, c);
    }
  }

  lemma {:induction false} LoopFeedKept(s: Hub, p: nat, a: LoopAct)
    requires MemberInv(s) && LoopEnabled(s, p, a) && a != SnapCopy
    ensures p < |LoopApply(s, p, a).feeds| && FeedInv(LoopApply(s, p, a), p)
  {
    var s', f := LoopApply(s, p, a), s.feeds[p];
    assert FeedInv(s, p);
    if f.pc.DropAsk? || f.pc.DropCount? || f.pc.DropRelease? {
      assert Victim(f, f.pc.victim);
    }
    forall c | Registered(s, c) ensures Registered(s', c) {
      LoopConnFrame(s, p, a, c);
    }
    LoopFeedMoves(s, p, a);
  }

  /** How a step of its loop changes a feed. */
  lemma {:induction false} LoopFeedMoves(s: Hub, p: nat, a: LoopAct)
    requires LoopEnabled(s, p, a) && a != SnapCopy
    ensures var f := s.feeds[p];
            && p < |LoopApply(s, p, a).feeds|
            && var f' := LoopApply(s, p, a).feeds[p];
               && f'.log == f.log && f'.todo <= f.todo
               && (forall c :: c in f'.dropped ==> c in f.dropped || f.pc == DropCount(c))
               && (forall c :: Victim(f', c) ==> Victim(f, c) || (c in f.todo && c !in f'.todo))
               && (Broadcasting(f') || f'.todo == {} || !Broadcasting(f))
  {
  }

  /** A step of another thread leaves the feed as it was, up to its residue. */
  lemma {:induction false} OtherFeedSame(s: Hub, step: Step, p: nat)
    requires Enabled(s, step) && p < |s.feeds| && (step.LoopStep? ==> step.p != p)
    ensures p < |Apply(s, step).feeds|
    ensures Apply(s, step).feeds[p] == s.feeds[p].(residue := Apply(s, step).feeds[p].residue)
  {
    match step
    case CloseStep(t) => CloseFrame(s, t);
    case LoopStep(q, a) => LoopFrame(s, q, a);
    case _ =>
  }

  lemma {:induction false} OtherFeedKept(s: Hub, step: Step, p: nat)
    requires MemberInv(s) && Enabled(s, step) && p < |s.feeds| && (step.LoopStep? ==> step.p != p)
    ensures p < |Apply(s, step).feeds| && FeedInv(Apply(s, step), p)
  {
    OtherFeedSame(s, step, p);
    FeedSameKept(s, Apply(s, step), step, p);
  }

  lemma {:induction false} FeedSameKept(s: Hub, s': Hub, step: Step, p: nat)
    requires MemberInv(s) && Enabled(s, step) && s' == Apply(s, step) && p < |s.feeds| && p < |s'.feeds|
    requires s'.feeds[p] == s.feeds[p].(residue := s'.feeds[p].residue)
    ensures FeedInv(s', p)
  {
    var f, f' := s.feeds[p], s'.feeds[p];
    assert FeedInv(s, p);
    forall c | c in f.todo || c in f.dropped || Victim(f, c) ensures Registered(s', c) {
      RegisteredKept(s, step, c);
    }
    assert f'.todo == f.todo && f'.dropped == f.dropped && f'.pc == f.pc;
    assert forall c :: Victim(f', c) ==> Victim(f, c);
  }

  /** Who may enter the sets of clients. */
  lemma {:induction false} SetsMove(s: Hub, step: Step)
    requires |s.feeds| == 2 && Enabled(s, step)
    ensures var s' := Apply(s, step);
            && |s'.feeds| == 2
            && (s'.clients <= s.clients ||
                (step.ReaderStep? && s'.clients == s.clients + {step.c} && Registered(s', step.c)))
            && (s'.sweep <= s.sweep || s'.sweep == s.clients)
            && (s'.snapshot == s.snapshot || s'.snapshot == s.clients)
  {
    match step
    case CloseStep(t) => CloseFrame(s, t);
    case LoopStep(p, a) => LoopFrame(s, p, a);
    case _ =>
  }

  lemma {:induction false} SetsKept(s: Hub, step: Step)
    requires MemberInv(s) && Enabled(s, step)
    ensures var s' := Apply(s, step);
            && |s'.feeds| == 2
            && (forall c :: c in s'.clients ==> Registered(s', c))
            && (forall c :: c in s'.sweep ==> Registered(s', c))
            && (forall c :: c in s'.snapshot ==> Registered(s', c))
  {
    SetsMove(s, step);
    forall c | Registered(s, c) ensures Registered(Apply(s, step), c) {
      RegisteredKept(s, step, c);
    }
  }

  lemma {:induction false} MemberKept(s: Hub, step: Step)
    requires CallsInv(s) && MemberInv(s) && OnceInv(s) && DropInv(s) && Enabled(s, step)
    ensures MemberInv(Apply(s, step))
  {
    SetsKept(s, step);
    forall p: nat | p < |Apply(s, step).feeds| ensures FeedInv(Apply(s, step), p) {
      if step == LoopStep(p, SnapCopy) {
        SnapFeedKept(s, p);
      } else if step.LoopStep? && step.p == p {
        LoopFeedKept(s, p, step.lact);
      } else {
        OtherFeedKept(s, step, p);
      }
    }
  }

  // ----- the close of each client -----

  lemma {:induction false} ReaderConnKept(s: Hub, c: nat, a: ReaderAct, d: nat)
    requires CallsInv(s) && OnceInv(s) && ReaderEnabled(s, c, a) && d < |s.conns|
    ensures ConnOk(ReaderApply(s, c, a), d)
  {
    assert ConnOk(s, d);
    if s.conns[d].once.Running? { assert CallOk(s, s.conns[d].once.holder); }
  }

  lemma {:induction false} PumpConnKept(s: Hub, c: nat, a: PumpAct, d: nat)
    requires CallsInv(s) && OnceInv(s) && PumpEnabled(s, c, a) && d < |s.conns|
    ensures ConnOk(PumpApply(s, c, a), d)
  {
    assert ConnOk(s, d);
    if s.conns[d].once.Running? { assert CallOk(s, s.conns[d].once.holder); }
  }

  lemma {:induction false} CloseConnKept(s: Hub, t: Tid, d: nat)
    requires CallsInv(s) && OnceInv(s) && CloseEnabled(s, t) && d < |s.conns|
    ensures CloseApply(s, t).conns != [] && d < |CloseApply(s, t).conns| && ConnOk(CloseApply(s, t), d)
  {
    assert ConnOk(s, d);
    assert CallOk(s, t) && RunnerOk(s, t);
    CloseFrame(s, t);
    CloseConnFrame(s, t, d);
    if d == s.calls[t].client {
      OwnConnKept(s, t);
    } else if s.conns[d].once.Running? {
      CloseCalls(s, t, s.conns[d].once.holder);
    }
  }

  lemma {:induction false} OwnConnKept(s: Hub, t: Tid)
    requires CloseEnabled(s, t) && Registered(s, s.calls[t].client) && RunnerOk(s, t) && ConnOk(s, s.calls[t].client)
    ensures s.calls[t].client < |CloseApply(s, t).conns| && ConnOk(CloseApply(s, t), s.calls[t].client)
  {
  }

  lemma {:induction false} LoopConnKept(s: Hub, p: nat, a: LoopAct, d: nat)
    requires MemberInv(s) && OnceInv(s) && LoopEnabled(s, p, a) && d < |s.conns|
    ensures d < |LoopApply(s, p, a).conns| && ConnOk(LoopApply(s, p, a), d)
  {
    assert ConnOk(s, d);
    assert FeedInv(s, p);
    LoopFrame(s, p, a);
    LoopConnFrame(s, p, a, d);
  }

  lemma {:induction false} StopConnKept(s: Hub, a: StopAct, d: nat)
    requires OnceInv(s) && StopEnabled(s, a) && d < |s.conns|
    ensures ConnOk(StopApply(s, a), d)
  {
    assert ConnOk(s, d);
  }

  lemma {:induction false} ArriveConnKept(s: Hub, d: nat)
    requires MemberInv(s) && OnceInv(s) && d < |s.conns| + 1
    ensures ConnOk(Apply(s, Arrive), d)
  {
    if d < |s.conns| { assert ConnOk(s, d); }
  }

  lemma {:induction false} ConnKept(s: Hub, step: Step, d: nat)
    requires CallsInv(s) && MemberInv(s) && OnceInv(s) && Enabled(s, step) && d < |Apply(s, step).conns|
    ensures ConnOk(Apply(s, step), d)
  {
    match step
    case ReaderStep(c, a) => ReaderConnKept(s, c, a, d);
    case PumpStep(c, a) => PumpConnKept(s, c, a, d);
    case CloseStep(t) => CloseConnKept(s, t, d);
    case LoopStep(p, a) => LoopConnKept(s, p, a, d);
    case StopStep(a) => StopConnKept(s, a, d);
    case Arrive => ArriveConnKept(s, d);
  }

  lemma {:induction false} CloseRunnerKept(s: Hub, u: Tid, t: Tid)
    requires CallsInv(s) && OnceInv(s) && CloseEnabled(s, u) && t in CloseApply(s, u).calls
    ensures RunnerOk(CloseApply(s, u), t)
  {
    CloseCalls(s, u, t);
    assert RunnerOk(s, t) && RunnerOk(s, u) && CallOk(s, t) && CallOk(s, u);
  }

  /** A thread is past the entry of `close` only by steps of `close`. */
  lemma {:induction false} CallsGrow(s: Hub, step: Step, t: Tid)
    requires Enabled(s, step) && !step.CloseStep? && t in Apply(s, step).calls
    ensures Apply(s, step).calls[t].stage == Enter || (t in s.calls && Apply(s, step).calls[t] == s.calls[t])
  {
    match step
    case LoopStep(p, a) => LoopFrame(s, p, a);
    case _ =>
  }

  /** Only `close` touches the once. */
  lemma {:induction false} OnceSame(s: Hub, step: Step, c: nat)
    requires Enabled(s, step) && !step.CloseStep? && c < |s.conns|
    ensures c < |Apply(s, step).conns| && Apply(s, step).conns[c].once == s.conns[c].once
  {
    match step
    case ReaderStep(d, a) => ReaderConnFrame(s, d, a, c);
    case PumpStep(d, a) => PumpConnFrame(s, d, a, c);
    case LoopStep(p, a) => LoopConnFrame(s, p, a, c);
    case _ =>
  }

  lemma {:induction false} OtherRunnerKept(s: Hub, step: Step, t: Tid)
    requires CallsInv(s) && OnceInv(s) && Enabled(s, step) && !step.CloseStep? && t in Apply(s, step).calls
    ensures RunnerOk(Apply(s, step), t)
  {
    CallsGrow(s, step, t);
    if Apply(s, step).calls[t].stage != Enter {
      assert RunnerOk(s, t);
      OnceSame(s, step, s.calls[t].client);
    }
  }

  lemma {:induction false} OnceKept(s: Hub, step: Step)
    requires CallsInv(s) && MemberInv(s) && OnceInv(s) && Enabled(s, step)
    ensures OnceInv(Apply(s, step))
  {
    var s' := Apply(s, step);
    forall c: nat | c < |s'.conns| ensures ConnOk(s', c) {
      ConnKept(s, step, c);
    }
    forall t | t in s'.calls ensures RunnerOk(s', t) {
      if step.CloseStep? {
        CloseRunnerKept(s, step.t, t);
      } else {
        OtherRunnerKept(s, step, t);
      }
    }
  }

  // ----- channels -----

  lemma {:induction false} PumpQueueKept(s: Hub, c: nat, a: PumpAct)
    requires PumpEnabled(s, c, a) && QueueOk(s.conns[c], s.capacity)
    ensures QueueOk(PumpApply(s, c, a).conns[c], s.capacity)
  {
    var k := s.conns[c];
    if a == Take {
      assert k.taken + k.send == (k.taken + [k.send[0]]) + k.send[1..];
    }
  }

  lemma {:induction false} OfferQueueKept(s: Hub, p: nat, c: nat)
    requires LoopEnabled(s, p, Offer(c)) && QueueOk(s.conns[c], s.capacity)
    ensures QueueOk(LoopApply(s, p, Offer(c)).conns[c], s.capacity)
  {
  }

  lemma {:induction false} ReaderQueueKept(s: Hub, d: nat, a: ReaderAct, c: nat)
    requires ReaderEnabled(s, d, a) && c < |s.conns| && QueueOk(s.conns[c], s.capacity) && ConnOk(s, c)
    ensures QueueOk(ReaderApply(s, d, a).conns[c], s.capacity)
  {
  }

  /** Steps other than those of the pump and of `broadcast` leave a channel and its history alone. */
  lemma {:induction false} OtherQueueKept(s: Hub, step: Step, c: nat)
    requires Enabled(s, step) && c < |s.conns| && QueueOk(s.conns[c], s.capacity) && ConnOk(s, c)
    requires !(step.PumpStep? && step.c == c) && !(step.LoopStep? && step.lact == Offer(c))
    ensures c < |Apply(s, step).conns| && QueueOk(Apply(s, step).conns[c], s.capacity)
  {
    match step
    case ReaderStep(d, a) => ReaderQueueKept(s, d, a, c);
    case CloseStep(t) => CloseConnFrame(s, t, c);
    case LoopStep(p, a) => LoopConnFrame(s, p, a, c);
    case _ =>
  }

  lemma {:induction false} CapacitySame(s: Hub, step: Step)
    requires Enabled(s, step)
    ensures Apply(s, step).capacity == s.capacity && |Apply(s, step).conns| >= |s.conns|
    ensures forall c :: |s.conns| <= c < |Apply(s, step).conns| ==> Apply(s, step).conns[c] == NEW_CONN
  {
    match step
    case CloseStep(t) => CloseFrame(s, t);
    case LoopStep(p, a) => LoopFrame(s, p, a);
    case _ =>
  }

  lemma {:induction false} QueueKept(s: Hub, step: Step)
    requires QueueInv(s) && OnceInv(s) && Enabled(s, step)
    ensures QueueInv(Apply(s, step))
  {
    var s' := Apply(s, step);
    CapacitySame(s, step);
    forall c | 0 <= c < |s'.conns| ensures QueueOk(s'.conns[c], s'.capacity) {
      if step.PumpStep? && step.c == c {
        PumpQueueKept(s, c, step.pact);
      } else if step.LoopStep? && step.lact == Offer(c) {
        OfferQueueKept(s, step.p, c);
      } else if c < |s.conns| {
        assert ConnOk(s, c);
        OtherQueueKept(s, step, c);
      }
    }
  }
}
