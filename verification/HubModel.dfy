/** The fan-out hub of internal/wshub as a labelled transition system.  Its threads are
    the two upstream loops, the caller of `Stop`, and for every connection the goroutine
    that registers and reads and the goroutine that writes.  A step is one action of one
    thread; every interleaving is a run. */
module HubModel {
  import opened Collections

  type Payload = string

  /** A frame on a client channel: broadcast number `num` of upstream loop `src`. */
  datatype Frame = Frame(src: nat, num: nat)

  datatype Tid = Loop(p: nat) | Stopper | Reader(c: nat) | Pump(c: nat)

  /** sync.Once: a second caller waits until the first has finished. */
  datatype Once = Fresh | Running(holder: Tid) | Done

  /** Where a thread is inside `Client.close`: entering the once, closing the channel,
      closing the connection, then `unregister` under the write lock. */
  datatype Stage = Enter | Mark | Hangup | Lock | Delete | Unlock | Finish

  datatype Closing = Closing(client: nat, stage: Stage)

  datatype ReaderPc = RegLock | RegInsert | RegUnlock | Spawn | Reading | Left

  datatype PumpPc = NotStarted | Selecting | Writing(frame: Frame) | Stopped

  datatype LoopPc =
    | Test | Upstream | Check | Sleeping | Ended
    | AskRead(payload: Payload) | Copying(payload: Payload) | Fanning
    | DropAsk(victim: nat) | DropCount(victim: nat) | DropRelease(victim: nat)

  datatype StopPc = Off | StopAsk | StopCopying | Sweeping | Waiting | Returned

  /** One client.  `enqueued`, `taken` and `delivered` record what passed through its channel. */
  datatype Conn = Conn(send: seq<Frame>, closed: bool, hungUp: bool, once: Once, reader: ReaderPc, pump: PumpPc,
                       enqueued: seq<Frame>, taken: seq<Frame>, delivered: seq<Frame>)

  /** One upstream loop.  `todo` is the rest of the current snapshot, in the arbitrary order
      of map iteration; `log` the broadcasts so far, `offered` the total size of their
      snapshots, `dropped` the clients whose drop it counted.  `residue` bounds the messages
      that the upstream call still hands over after cancellation. */
  datatype Feed = Feed(pc: LoopPc, todo: set<nat>, log: seq<Payload>, offered: nat, dropped: set<nat>, residue: nat)

  /** `readers` and `writer` are the RWMutex `mu`: a writer first announces itself, which
      blocks new readers, and enters when the present readers have left. */
  datatype Hub = Hub(capacity: nat, readers: set<Tid>, writer: Option<Tid>, clients: set<nat>,
                     dropMu: Option<Tid>, drops: nat, sends: nat,
                     conns: seq<Conn>, feeds: seq<Feed>, calls: map<Tid, Closing>,
                     stop: StopPc, cancelled: bool, sweep: set<nat>, snapshot: set<nat>)

  datatype ReaderAct = TakeLock | Insert | ReleaseLock | StartPump | ReadOk | ReadFail
  datatype PumpAct = Take | WriteOk | WriteFail | PingOk | PingFail | SeeClosed
  datatype LoopAct =
    | TestCtx | Message(payload: Payload) | BadMessage | UpstreamReturns | CheckCtx | Wake
    | SnapLock | SnapCopy | Offer(client: nat) | FanDone | TakeDropMu | CountDrop | ReleaseDropMu
  datatype StopAct = Cancel(first: nat, second: nat) | StopLock | StopCopy | SweepOne(client: nat) | SweepDone | Join

  datatype Step =
    | Arrive
    | ReaderStep(c: nat, ract: ReaderAct)
    | PumpStep(c: nat, pact: PumpAct)
    | CloseStep(t: Tid)
    | LoopStep(p: nat, lact: LoopAct)
    | StopStep(sact: StopAct)

  // ----- initial state -----

  const NEW_CONN := Conn([], false, false, Fresh, RegLock, NotStarted, [], [], [])
  const NEW_FEED := Feed(Test, {}, [], 0, {}, 0)

  /** The buffer size option, with its default. */
  function BufferSize(option: int): (n: nat)
    ensures n >= 1
  {
    if option <= 0 then 256 else option
  }

  /** The hub right after `Start`. */
  function Init(option: int): Hub
  {
    Hub(BufferSize(option), {}, None, {}, None, 0, 0, [], [NEW_FEED, NEW_FEED], map[], Off, false, {}, {})
  }

  // ----- Serve, register and readPump -----

  predicate ReaderEnabled(s: Hub, c: nat, a: ReaderAct)
  {
    c < |s.conns| &&
    match a
    case TakeLock => s.conns[c].reader == RegLock && s.writer == None
    case Insert => s.conns[c].reader == RegInsert && s.readers == {}
    case ReleaseLock => s.conns[c].reader == RegUnlock
    case StartPump => s.conns[c].reader == Spawn
    case ReadOk => s.conns[c].reader == Reading
    case ReadFail => s.conns[c].reader == Reading
  }

  function SetReader(s: Hub, c: nat, pc: ReaderPc): Hub
    requires c < |s.conns|
  {
    s.(conns := s.conns[c := s.conns[c].(reader := pc)])
  }

  function ReaderApply(s: Hub, c: nat, a: ReaderAct): Hub
    requires ReaderEnabled(s, c, a)
  {
    match a
    case TakeLock => SetReader(s, c, RegInsert).(writer := Some(Reader(c)))
    case Insert => SetReader(s, c, RegUnlock).(clients := s.clients + {c})
    case ReleaseLock => SetReader(s, c, Spawn).(writer := None)
    case StartPump => s.(conns := s.conns[c := s.conns[c].(reader := Reading, pump := Selecting)])
    case ReadOk => s
    case ReadFail => SetReader(s, c, Left).(calls := s.calls[Reader(c) := Closing(c, Enter)])
  }

  // ----- writePump -----

  predicate PumpEnabled(s: Hub, c: nat, a: PumpAct)
  {
    c < |s.conns| &&
    match a
    case Take => s.conns[c].pump == Selecting && s.conns[c].send != []
    case WriteOk => s.conns[c].pump.Writing?
    case WriteFail => s.conns[c].pump.Writing?
    case PingOk => s.conns[c].pump == Selecting
    case PingFail => s.conns[c].pump == Selecting
    case SeeClosed => s.conns[c].pump == Selecting && s.conns[c].closed
  }

  function PumpApply(s: Hub, c: nat, a: PumpAct): Hub
    requires PumpEnabled(s, c, a)
  {
    var k := s.conns[c];
    match a
    case Take =>
      s.(conns := s.conns[c := k.(send := k.send[1..], taken := k.taken + [k.send[0]], pump := Writing(k.send[0]))])
    case WriteOk =>
      s.(conns := s.conns[c := k.(delivered := k.delivered + [k.pump.frame], pump := Selecting)])
    case PingOk => s
    case _ => s.(conns := s.conns[c := k.(pump := Stopped)], calls := s.calls[Pump(c) := Closing(c, Enter)])
  }

  // ----- Client.close, the same for every caller -----

  predicate CloseEnabled(s: Hub, t: Tid)
  {
    t in s.calls && s.calls[t].client < |s.conns| &&
    match s.calls[t].stage
    case Enter => !s.conns[s.calls[t].client].once.Running?
    case Lock => s.writer == None
    case Delete => s.readers == {}
    case _ => true
  }

  function SetStage(s: Hub, t: Tid, stage: Stage): Hub
    requires t in s.calls
  {
    s.(calls := s.calls[t := s.calls[t].(stage := stage)])
  }

  function CloseApply(s: Hub, t: Tid): Hub
    requires CloseEnabled(s, t)
  {
    var c := s.calls[t].client;
    var k := s.conns[c];
    match s.calls[t].stage
    case Enter =>
      if k.once == Done then s.(calls := s.calls - {t})
      else SetStage(s, t, Mark).(conns := s.conns[c := k.(once := Running(t))])
    case Mark => SetStage(s, t, Hangup).(conns := s.conns[c := k.(closed := true)])
    case Hangup => SetStage(s, t, Lock).(conns := s.conns[c := k.(hungUp := true)])
    case Lock => SetStage(s, t, Delete).(writer := Some(t))
    case Delete => SetStage(s, t, Unlock).(clients := s.clients - {c})
    case Unlock => SetStage(s, t, Finish).(writer := None)
    case Finish => s.(calls := s.calls - {t}, conns := s.conns[c := k.(once := Done)])
  }

  // ----- runPriceSubscribe / runIndexerStream and broadcast -----

  predicate LoopEnabled(s: Hub, p: nat, a: LoopAct)
  {
    p < |s.feeds| && Loop(p) !in s.calls &&
    var f := s.feeds[p];
    match a
    case TestCtx => f.pc == Test
    case Message(_) => f.pc == Upstream && (s.cancelled ==> f.residue > 0)
    case BadMessage => f.pc == Upstream && (s.cancelled ==> f.residue > 0)
    case UpstreamReturns => f.pc == Upstream
    case CheckCtx => f.pc == Check
    case Wake => f.pc == Sleeping
    case SnapLock => f.pc.AskRead? && s.writer == None
    case SnapCopy => f.pc.Copying?
    case Offer(c) => f.pc == Fanning && c in f.todo && c < |s.conns|
    case FanDone => f.pc == Fanning && f.todo == {}
    case TakeDropMu => f.pc.DropAsk? && s.dropMu == None
    case CountDrop => f.pc.DropCount?
    case ReleaseDropMu => f.pc.DropRelease?
  }

  function SetFeed(s: Hub, p: nat, f: Feed): Hub
    requires p < |s.feeds|
  {
    s.(feeds := s.feeds[p := f])
  }

  /** One message fewer may follow once the context is cancelled. */
  function Spend(s: Hub, f: Feed): Feed
  {
    if s.cancelled && f.residue > 0 then f.(residue := f.residue - 1) else f
  }

  function LoopApply(s: Hub, p: nat, a: LoopAct): Hub
    requires LoopEnabled(s, p, a)
  {
    var f := s.feeds[p];
    match a
    case TestCtx => SetFeed(s, p, f.(pc := if s.cancelled then Ended else Upstream))
    case Message(payload) => SetFeed(s, p, Spend(s, f).(pc := AskRead(payload)))
    case BadMessage => SetFeed(s, p, Spend(s, f))
    case UpstreamReturns => SetFeed(s, p, f.(pc := Check))
    case CheckCtx => SetFeed(s, p, f.(pc := if s.cancelled then Ended else Sleeping))
    case Wake => SetFeed(s, p, f.(pc := Test))
    case SnapLock => SetFeed(s, p, f.(pc := Copying(f.pc.payload))).(readers := s.readers + {Loop(p)})
    case SnapCopy =>
      SetFeed(s, p, f.(pc := Fanning, todo := s.clients, log := f.log + [f.pc.payload],
                       offered := f.offered + |s.clients|))
      .(readers := s.readers - {Loop(p)})
    case Offer(c) => OfferApply(s, p, c)
    case FanDone => SetFeed(s, p, f.(pc := Upstream))
    case TakeDropMu => SetFeed(s, p, f.(pc := DropCount(f.pc.victim))).(dropMu := Some(Loop(p)))
    case CountDrop =>
      SetFeed(s, p, f.(pc := DropRelease(f.pc.victim), dropped := f.dropped + {f.pc.victim})).(drops := s.drops + 1)
    case ReleaseDropMu =>
      SetFeed(s, p, f.(pc := Fanning)).(dropMu := None, calls := s.calls[Loop(p) := Closing(f.pc.victim, Enter)])
  }

  /** The select of `broadcast`: enqueue if the channel has room, else start dropping the client. */
  function OfferApply(s: Hub, p: nat, c: nat): Hub
    requires LoopEnabled(s, p, Offer(c))
  {
    var f, k := s.feeds[p], s.conns[c];
    if |k.send| < s.capacity then
      var frame := Frame(p, if |f.log| == 0 then 0 else |f.log| - 1);
      SetFeed(s, p, f.(todo := f.todo - {c}))
      .(sends := s.sends + 1, conns := s.conns[c := k.(send := k.send + [frame], enqueued := k.enqueued + [frame])])
    else
      SetFeed(s, p, f.(todo := f.todo - {c}, pc := DropAsk(c)))
  }

  // ----- Stop -----

  predicate StopEnabled(s: Hub, a: StopAct)
  {
    Stopper !in s.calls &&
    match a
    case Cancel(_, _) => s.stop == Off && |s.feeds| == 2
    case StopLock => s.stop == StopAsk && s.writer == None
    case StopCopy => s.stop == StopCopying
    case SweepOne(c) => s.stop == Sweeping && c in s.sweep
    case SweepDone => s.stop == Sweeping && s.sweep == {}
    case Join => s.stop == Waiting && forall p :: 0 <= p < |s.feeds| ==> s.feeds[p].pc == Ended
  }

  function StopApply(s: Hub, a: StopAct): Hub
    requires StopEnabled(s, a)
  {
    match a
    case Cancel(first, second) =>
      s.(stop := StopAsk, cancelled := true,
         feeds := [s.feeds[0].(residue := first), s.feeds[1].(residue := second)])
    case StopLock => s.(stop := StopCopying, readers := s.readers + {Stopper})
    case StopCopy => s.(stop := Sweeping, sweep := s.clients, snapshot := s.clients, readers := s.readers - {Stopper})
    case SweepOne(c) => s.(sweep := s.sweep - {c}, calls := s.calls[Stopper := Closing(c, Enter)])
    case SweepDone => s.(stop := Waiting)
    case Join => s.(stop := Returned)
  }

  // ----- steps and runs -----

  predicate Enabled(s: Hub, step: Step)
  {
    match step
    case Arrive => true
    case ReaderStep(c, a) => ReaderEnabled(s, c, a)
    case PumpStep(c, a) => PumpEnabled(s, c, a)
    case CloseStep(t) => CloseEnabled(s, t)
    case LoopStep(p, a) => LoopEnabled(s, p, a)
    case StopStep(a) => StopEnabled(s, a)
  }

  function Apply(s: Hub, step: Step): Hub
    requires Enabled(s, step)
  {
    match step
    case Arrive => s.(conns := s.conns + [NEW_CONN])
    case ReaderStep(c, a) => ReaderApply(s, c, a)
    case PumpStep(c, a) => PumpApply(s, c, a)
    case CloseStep(t) => CloseApply(s, t)
    case LoopStep(p, a) => LoopApply(s, p, a)
    case StopStep(a) => StopApply(s, a)
  }

  /** The state after taking `steps` one after the other from `s`, if each is enabled in its turn. */
  function Run(s: Hub, steps: seq<Step>): (r: Option<Hub>)
  {
    if steps == [] then Some(s) else
    match Run(s, steps[..|steps| - 1])
    case None => None
    case Some(mid) =>
      if Enabled(mid, steps[|steps| - 1]) then Some(Apply(mid, steps[|steps| - 1])) else None
  }

  /** `s` is a state of some run of a hub with the given buffer option. */
  ghost predicate Reachable(option: int, s: Hub)
  {
    exists steps :: Run(Init(option), steps) == Some(s)
  }

  lemma {:induction false} RunAppend(s: Hub, steps: seq<Step>, step: Step)
    ensures Run(s, steps + [step]) ==
            match Run(s, steps)
            case None => None
            case Some(mid) => if Enabled(mid, step) then Some(Apply(mid, step)) else None
  {
    assert (steps + [step])[..|steps|] == steps;
  }

  lemma {:induction false} RunPrepend(s: Hub, step: Step, rest: seq<Step>)
    requires Enabled(s, step)
    ensures Run(s, [step] + rest) == Run(Apply(s, step), rest)
  {
    var n := |rest| - 1;
    if rest == [] {
      assert [step] + rest == [] + [step];
      RunAppend(s, [], step);
    } else {
      RunPrepend(s, step, rest[..n]);
      assert [step] + rest == ([step] + rest[..n]) + [rest[n]];
      RunAppend(s, [step] + rest[..n], rest[n]);
    }
  }

  lemma {:induction false} RunJoin(s: Hub, first: seq<Step>, mid: Hub, rest: seq<Step>)
    requires Run(s, first) == Some(mid)
    ensures Run(s, first + rest) == Run(mid, rest)
  {
    if rest == [] {
      assert first + rest == first;
    } else {
      var n := |rest| - 1;
      RunJoin(s, first, mid, rest[..n]);
      assert first + rest == (first + rest[..n]) + [rest[n]] && rest == rest[..n] + [rest[n]];
      RunAppend(s, first + rest[..n], rest[n]);
      RunAppend(mid, rest[..n], rest[n]);
    }
  }
}
