/** Runs that show how far the hub's promises go and no further. */
module HubWitnesses {
  import opened Collections
  import opened HubModel
  import opened HubTheorems

  lemma {:induction false} Extend(option: int, s: Hub, step: Step) returns (s': Hub)
    requires Reachable(option, s) && Enabled(s, step)
    ensures s' == Apply(s, step) && Reachable(option, s')
  {
    var steps :| Run(Init(option), steps) == Some(s);
    RunAppend(Init(option), steps, step);
    s' := Apply(s, step);
  }

  lemma {:induction false} InitReachable(option: int)
    ensures Reachable(option, Init(option))
  {
    assert Run(Init(option), []) == Some(Init(option));
  }

  lemma {:induction false} OfferWithRoom(s: Hub, p: nat, c: nat)
    requires LoopEnabled(s, p, Offer(c)) && |s.conns[c].send| < s.capacity && |s.feeds[p].log| > 0
    ensures var frame, k := Frame(p, |s.feeds[p].log| - 1), s.conns[c];
            Apply(s, LoopStep(p, Offer(c))) ==
            s.(feeds := s.feeds[p := s.feeds[p].(todo := s.feeds[p].todo - {c})], sends := s.sends + 1,
               conns := s.conns[c := k.(send := k.send + [frame], enqueued := k.enqueued + [frame])])
  {
  }

  lemma {:induction false} OfferWithoutRoom(s: Hub, p: nat, c: nat)
    requires LoopEnabled(s, p, Offer(c)) && |s.conns[c].send| >= s.capacity
    ensures Apply(s, LoopStep(p, Offer(c))) ==
            s.(feeds := s.feeds[p := s.feeds[p].(todo := s.feeds[p].todo - {c}, pc := DropAsk(c))])
  {
  }

  // ----- Stop does not close a client that registers after its snapshot -----

  function StopSwept(): Hub
  {
    Init(1).(stop := Waiting, cancelled := true)
  }

  /** `Stop` has swept nobody, both loops have ended, and a client has registered since. */
  function LateRegistered(): Hub
  {
    StopSwept().(clients := {0}, conns := [NEW_CONN.(reader := Spawn)],
                 feeds := [NEW_FEED.(pc := Ended), NEW_FEED.(pc := Ended)])
  }

  lemma {:induction false} SweepNobody()
    requires Reachable(1, Init(1))
    ensures Reachable(1, StopSwept())
  {
    var s := Init(1);
    s := Extend(1, s, StopStep(Cancel(0, 0)));
    s := Extend(1, s, StopStep(StopLock));
    s := Extend(1, s, StopStep(StopCopy));
    s := Extend(1, s, StopStep(SweepDone));
    assert s == StopSwept();
  }

  lemma {:induction false} RegisterLate()
    requires Reachable(1, StopSwept())
    ensures Reachable(1, LateRegistered())
  {
    var s := StopSwept();
    s := Extend(1, s, LoopStep(0, TestCtx));
    s := Extend(1, s, LoopStep(1, TestCtx));
    s := Extend(1, s, Arrive);
    s := Extend(1, s, ReaderStep(0, TakeLock));
    s := Extend(1, s, ReaderStep(0, Insert));
    s := Extend(1, s, ReaderStep(0, ReleaseLock));
    assert s == LateRegistered();
  }

  /** A client registers after `Stop` has copied the client map and before it returns, and
      is still registered and open when it has returned. */
  lemma {:induction false} LateClientStaysOpen() returns (s: Hub, s': Hub)
    ensures Reachable(1, s) && s.stop == Waiting && 0 in s.clients && 0 !in s.snapshot
    ensures Enabled(s, StopStep(Join)) && s' == Apply(s, StopStep(Join))
    ensures Reachable(1, s') && s'.stop == Returned && 0 in s'.clients && |s'.conns| == 1 && !s'.conns[0].closed
  {
    InitReachable(1);
    SweepNobody();
    RegisterLate();
    s := LateRegistered();
    s' := Extend(1, s, StopStep(Join));
  }

  // ----- two loops can count the drop of the same client -----

  function OneClient(): Hub
  {
    Init(1).(clients := {0}, conns := [NEW_CONN.(reader := Spawn)])
  }

  function FullClient(): Hub
  {
    OneClient().(sends := 1, conns := [NEW_CONN.(reader := Spawn, send := [Frame(0, 0)], enqueued := [Frame(0, 0)])],
                 feeds := [Feed(Upstream, {}, ["a"], 1, {}, 0), NEW_FEED])
  }

  function FirstDrops(): Hub
  {
    FullClient().(feeds := [Feed(DropAsk(0), {}, ["a", "b"], 2, {}, 0), NEW_FEED])
  }

  function BothDrop(): Hub
  {
    FullClient().(feeds := [Feed(DropAsk(0), {}, ["a", "b"], 2, {}, 0), Feed(DropAsk(0), {}, ["c"], 1, {}, 0)])
  }

  function FirstCounted(): Hub
  {
    FullClient().(drops := 1, calls := map[Loop(0) := Closing(0, Enter)],
                  feeds := [Feed(Fanning, {}, ["a", "b"], 2, {0}, 0), Feed(DropAsk(0), {}, ["c"], 1, {}, 0)])
  }

  lemma {:induction false} RegisterOne()
    requires Reachable(1, Init(1))
    ensures Reachable(1, OneClient())
  {
    var s := Init(1);
    s := Extend(1, s, Arrive);
    s := Extend(1, s, ReaderStep(0, TakeLock));
    s := Extend(1, s, ReaderStep(0, Insert));
    s := Extend(1, s, ReaderStep(0, ReleaseLock));
    assert s == OneClient();
  }

  function OneOffered(): Hub
  {
    OneClient().(feeds := [Feed(Fanning, {0}, ["a"], 1, {}, 0), NEW_FEED])
  }

  lemma {:induction false} FirstBroadcast()
    requires Reachable(1, OneClient())
    ensures Reachable(1, OneOffered())
  {
    var s := OneClient();
    s := Extend(1, s, LoopStep(0, TestCtx));
    s := Extend(1, s, LoopStep(0, Message("a")));
    s := Extend(1, s, LoopStep(0, SnapLock));
    s := Extend(1, s, LoopStep(0, SnapCopy));
    assert s.readers == {} && |OneClient().clients| == 1;
    assert s.feeds[0].log == ["a"] && s.feeds[0].todo == {0};
    assert s.feeds == OneOffered().feeds;
    assert s == OneOffered();
  }

  function JustSent(): Hub
  {
    FullClient().(feeds := [Feed(Fanning, {}, ["a"], 1, {}, 0), NEW_FEED])
  }

  lemma {:induction false} FillChannel()
    requires Reachable(1, OneOffered())
    ensures Reachable(1, JustSent())
  {
    OfferedIsSent();
    var s := Extend(1, OneOffered(), LoopStep(0, Offer(0)));
  }

  lemma {:induction false} OfferedIsSent()
    ensures Enabled(OneOffered(), LoopStep(0, Offer(0)))
    ensures Apply(OneOffered(), LoopStep(0, Offer(0))) == JustSent()
  {
    var s, k := OneOffered(), NEW_CONN.(reader := Spawn);
    assert s.conns[0] == k && s.feeds[0] == Feed(Fanning, {0}, ["a"], 1, {}, 0);
    OfferWithRoom(s, 0, 0);
    assert [] + [Frame(0, 0)] == [Frame(0, 0)] && {0} - {0} == {};
    assert s.conns[0 := k.(send := [Frame(0, 0)], enqueued := [Frame(0, 0)])] == JustSent().conns;
    assert s.feeds[0 := s.feeds[0].(todo := {})] == JustSent().feeds;
  }

  lemma {:induction false} FinishFirst()
    requires Reachable(1, JustSent())
    ensures Reachable(1, FullClient())
  {
    var s := Extend(1, JustSent(), LoopStep(0, FanDone));
    assert s == FullClient();
  }

  function FirstOffersAgain(): Hub
  {
    FullClient().(feeds := [Feed(Fanning, {0}, ["a", "b"], 2, {}, 0), NEW_FEED])
  }

  lemma {:induction false} FirstBroadcastsAgain()
    requires Reachable(1, FullClient())
    ensures Reachable(1, FirstOffersAgain())
  {
    var s := FullClient();
    s := Extend(1, s, LoopStep(0, Message("b")));
    s := Extend(1, s, LoopStep(0, SnapLock));
    s := Extend(1, s, LoopStep(0, SnapCopy));
    assert s.readers == {} && |FullClient().clients| == 1;
    assert s.feeds[0].log == ["a", "b"] && s.feeds[0].todo == {0};
    assert s.feeds == FirstOffersAgain().feeds;
    assert s == FirstOffersAgain();
  }

  lemma {:induction false} FirstFindsFull()
    requires Reachable(1, FirstOffersAgain())
    ensures Reachable(1, FirstDrops())
  {
    OfferWithoutRoom(FirstOffersAgain(), 0, 0);
    var s := Extend(1, FirstOffersAgain(), LoopStep(0, Offer(0)));
    assert {0} - {0} == {};
    assert s.feeds == FirstDrops().feeds;
    assert s == FirstDrops();
  }

  function SecondOffered(): Hub
  {
    FullClient().(feeds := [Feed(DropAsk(0), {}, ["a", "b"], 2, {}, 0), Feed(Fanning, {0}, ["c"], 1, {}, 0)])
  }

  lemma {:induction false} SecondBroadcast()
    requires Reachable(1, FirstDrops())
    ensures Reachable(1, SecondOffered())
  {
    var s := FirstDrops();
    s := Extend(1, s, LoopStep(1, TestCtx));
    s := Extend(1, s, LoopStep(1, Message("c")));
    s := Extend(1, s, LoopStep(1, SnapLock));
    s := Extend(1, s, LoopStep(1, SnapCopy));
    assert s.readers == {} && |FullClient().clients| == 1;
    assert s.feeds[1].log == ["c"] && s.feeds[1].todo == {0};
    assert s.feeds == SecondOffered().feeds;
    assert s == SecondOffered();
  }

  lemma {:induction false} SecondFindsFull()
    requires Reachable(1, SecondOffered())
    ensures Reachable(1, BothDrop())
  {
    OfferWithoutRoom(SecondOffered(), 1, 0);
    var s := Extend(1, SecondOffered(), LoopStep(1, Offer(0)));
    assert {0} - {0} == {};
    assert s.feeds == BothDrop().feeds;
    assert s == BothDrop();
  }

  lemma {:induction false} FirstCounts()
    requires Reachable(1, BothDrop())
    ensures Reachable(1, FirstCounted())
  {
    var s := BothDrop();
    s := Extend(1, s, LoopStep(0, TakeDropMu));
    s := Extend(1, s, LoopStep(0, CountDrop));
    s := Extend(1, s, LoopStep(0, ReleaseDropMu));
    assert s == FirstCounted();
  }

  /** A frame counted as sent that its client was not sent. */
  lemma {:induction false} SentNotDelivered() returns (s: Hub)
    ensures Reachable(1, s) && s.sends == 1 && Sum(Deliveries(s.conns)) == 0
  {
    InitReachable(1);
    RegisterOne();
    FirstBroadcast();
    FillChannel();
    s := JustSent();
    assert Deliveries(s.conns) == [0];
    SumAppend([], 0);
  }

  /** The bound of two drops per client is reached: with a single client and both loops
      holding it in a stale snapshot, the counter reads two. */
  lemma {:induction false} DropCountedTwice() returns (s: Hub)
    ensures Reachable(1, s) && |s.conns| == 1 && s.drops == 2 * |s.conns|
  {
    InitReachable(1);
    RegisterOne();
    FirstBroadcast();
    FillChannel();
    FinishFirst();
    FirstBroadcastsAgain();
    FirstFindsFull();
    SecondBroadcast();
    SecondFindsFull();
    FirstCounts();
    s := Extend(1, FirstCounted(), LoopStep(1, TakeDropMu));
    s := Extend(1, s, LoopStep(1, CountDrop));
  }
}
