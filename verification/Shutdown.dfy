/**
 `shutdown_all`, layered on the broker protocol.

 Phase 0 asks the broker to flush. Phase 1 sends `Terminate` to every root actor; each of
 those sends checks its handle's token first and then waits for room, like any other send.
 Everything the broker, the subscribers and other senders do is interleaved freely.
 */
module Shutdown {
  import opened Wrappers
  import opened Subscriptions
  import opened BrokerProtocol

  datatype Phase = NotStarted | Flushing(at: nat) | Signalling

  datatype Process<B, D> = Process(
    broker: State<B, D>,
    phase: Phase,
    flushed: Option<nat>,     // log position of the flush that was answered
    checked: set<Handle>,     // roots whose `Terminate` has passed its token check
    stops: map<Handle, nat>   // where in a root's inbox its `Terminate` landed
  )

  datatype Move<B, D> =
    | Elsewhere(action: Action<B, D>)
    | AskFlush
    | FlushReturned
    | FlushFailed
    | CheckRoot(root: Handle)
    | SignalRoot(root: Handle)

  ghost function After<B, D>(p: Process<B, D>, m: Move<B, D>): Process<B, D> {
    match m
    case Elsewhere(a) => p.(broker := Next(p.broker, a))
    case AskFlush =>
      if p.phase.NotStarted? && Accepts(p.broker) then
        p.(broker := Next(p.broker, Offer(Flush)), phase := Flushing(|p.broker.accepted|))
      else p
    case FlushReturned =>
      if p.phase.Flushing? && p.phase.at in p.broker.answered then
        p.(phase := Signalling, flushed := Some(p.phase.at))
      else p
    case FlushFailed =>
      // undeliverable, no reply, or past its deadline: shutdown carries on
      if p.phase.Signalling? then p else p.(phase := Signalling)
    case CheckRoot(h) =>
      if p.phase.Signalling? && h in p.broker.boxes && !p.broker.boxes[h].cancelled
      then p.(checked := p.checked + {h}) else p
    case SignalRoot(h) =>
      if h in p.checked && h !in p.stops && h in p.broker.boxes
         && p.broker.boxes[h].open && p.broker.boxes[h].HasRoom() then
        p.(broker := Next(p.broker, SendDirect(h, Terminate)),
           stops := p.stops[h := |p.broker.boxes[h].history|])
      else p
  }

  ghost function Start<B, D>(s: State<B, D>): Process<B, D> {
    Process(s, NotStarted, None, {}, map[])
  }

  ghost function RunAll<B, D>(p: Process<B, D>, moves: seq<Move<B, D>>): Process<B, D> {
    if moves == [] then p else After(RunAll(p, moves[..|moves| - 1]), moves[|moves| - 1])
  }

  // ----- the invariant -----

  /** Everything `h` was owed by the broadcasts ahead of the flush is in the first `upTo` items of its inbox. */
  ghost predicate Owed<B, D>(p: Process<B, D>, h: Handle, upTo: nat)
    requires h in p.broker.boxes && upTo <= |p.broker.boxes[h].history|
  {
    p.flushed.Some? && p.flushed.value <= |p.broker.accepted| ==>
      Projection(p.broker.accepted[..p.flushed.value], h) <= Events(p.broker.boxes[h].history[..upTo])
  }

  ghost predicate RootInv<B, D>(p: Process<B, D>, h: Handle)
    requires h in p.broker.boxes
  {
    var history := p.broker.boxes[h].history;
    && (h in p.checked ==> p.broker.boxes[h].open ==> Owed(p, h, |history|))
    && (h in p.stops ==>
          p.stops[h] < |history| && history[p.stops[h]] == Terminate && Owed(p, h, p.stops[h]))
  }

  ghost predicate ShutdownInv<B, D>(p: Process<B, D>) {
    && Inv(p.broker)
    && (p.phase.Flushing? ==> p.phase.at < |p.broker.accepted|)
    && (p.flushed.Some? ==> p.phase.Signalling? && p.flushed.value in p.broker.answered
                            && p.flushed.value < |p.broker.accepted|)
    && (p.phase.Signalling? || (p.checked == {} && p.stops == map[]))
    && p.stops.Keys <= p.broker.boxes.Keys
    && forall h | h in p.broker.boxes :: RootInv(p, h)
  }

  lemma EventsGrow<B, D>(a: seq<Item<B, D>>, b: seq<Item<B, D>>)
    requires a <= b
    ensures Events(a) <= Events(b)
  {
    assert b == a + b[|a|..];
    EventsAppend(a, b[|a|..]);
  }

  lemma MoveElsewhere<B, D>(p: Process<B, D>, a: Action<B, D>)
    requires ShutdownInv(p)
    ensures ShutdownInv(p.(broker := Next(p.broker, a)))
  {
    hide Inv, Projection, Events;
    var q := p.(broker := Next(p.broker, a));
    StepKeepsInv(p.broker, a);
    HistoriesGrow(p.broker, a);
    if p.flushed.Some? {
      assert q.broker.accepted[..p.flushed.value] == p.broker.accepted[..p.flushed.value];
    }
    forall h | h in q.broker.boxes ensures RootInv(q, h) {
      assert RootInv(p, h);
      var was, now := p.broker.boxes[h].history, q.broker.boxes[h].history;
      assert was[..|was|] == was && now[..|now|] == now;
      EventsGrow(was, now);
      if h in p.stops {
        assert now[..p.stops[h]] == was[..p.stops[h]];
      }
    }
  }

  lemma MoveFlushReturned<B, D>(p: Process<B, D>)
    requires ShutdownInv(p) && p.phase.Flushing? && p.phase.at in p.broker.answered
    ensures ShutdownInv(After(p, FlushReturned))
  {
    var q := After(p, FlushReturned);
    forall h | h in q.broker.boxes ensures RootInv(q, h) {
    }
  }

  lemma MoveCheckRoot<B, D>(p: Process<B, D>, h: Handle)
    requires ShutdownInv(p)
    ensures ShutdownInv(After(p, CheckRoot(h)))
  {
    var q := After(p, CheckRoot(h));
    forall g | g in q.broker.boxes ensures RootInv(q, g) {
      assert RootInv(p, g);
      if g == h && h in q.checked && h !in p.checked && p.broker.boxes[h].open && p.flushed.Some? {
        var i :| 0 <= i < |p.broker.answered| && p.broker.answered[i] == p.flushed.value;
        assert AnsweredInv(p.broker, p.broker.answered[i]);
        var history := p.broker.boxes[h].history;
        assert history[..|history|] == history;
      }
    }
  }

  lemma MoveSignalRoot<B, D>(p: Process<B, D>, h: Handle)
    requires ShutdownInv(p)
    ensures ShutdownInv(After(p, SignalRoot(h)))
  {
    hide Inv, Projection, Events;
    var q := After(p, SignalRoot(h));
    if q != p {
      var m := p.(broker := Next(p.broker, SendDirect(h, Terminate)));
      MoveElsewhere(p, SendDirect(h, Terminate));
      forall g | g in q.broker.boxes ensures RootInv(q, g) {
        assert RootInv(p, g) && RootInv(m, g);
        if g == h {
          var was, now := p.broker.boxes[h].history, q.broker.boxes[h].history;
          assert now[..|was|] == was == was[..|was|];
        }
      }
    }
  }

  lemma MoveKeepsInv<B, D>(p: Process<B, D>, m: Move<B, D>)
    requires ShutdownInv(p)
    ensures ShutdownInv(After(p, m))
  {
    match m
    case Elsewhere(a) => MoveElsewhere(p, a);
    case AskFlush =>
      if p.phase.NotStarted? {
        MoveElsewhere(p, Offer(Flush));
        var q := After(p, m);
        forall h | h in q.broker.boxes ensures RootInv(q, h) {
        }
      }
    case FlushReturned => if p.phase.Flushing? && p.phase.at in p.broker.answered { MoveFlushReturned(p); }
    case FlushFailed =>
      var q := After(p, m);
      forall h | h in q.broker.boxes ensures RootInv(q, h) {
        assert RootInv(p, h);
      }
    case CheckRoot(h) => MoveCheckRoot(p, h);
    case SignalRoot(h) => MoveSignalRoot(p, h);
  }

  lemma {:induction false} RunAllKeepsInv<B, D>(s: State<B, D>, moves: seq<Move<B, D>>)
    requires Initial(s)
    ensures ShutdownInv(RunAll(Start(s), moves))
  {
    if moves == [] {
      InitialInv(s);
    } else {
      RunAllKeepsInv(s, moves[..|moves| - 1]);
      MoveKeepsInv(RunAll(Start(s), moves[..|moves| - 1]), moves[|moves| - 1]);
    }
  }

  // ----- the results -----

  lemma {:induction false} EventHasIndex<B, D>(history: seq<Item<B, D>>, k: nat)
    requires k < |Events(history)|
    ensures exists i :: 0 <= i < |history| && history[i] == Event(Events(history)[k])
  {
    var n := |history| - 1;
    if k < |Events(history[..n])| {
      EventHasIndex(history[..n], k);
      var i :| 0 <= i < n && history[..n][i] == Event(Events(history[..n])[k]);
      assert history[i] == Event(Events(history)[k]);
    } else {
      assert history[n] == Event(Events(history)[k]);
    }
  }

  /**
   If the flush was answered, then in every root's inbox each broadcast the broker accepted
   ahead of the flush, and that this root was subscribed to, lies before the `Terminate`;
   so by the time the root handles `Terminate` it has handled that broadcast.
   */
  lemma TerminateIsBehindFlushedBroadcasts<B, D>(s0: State<B, D>, moves: seq<Move<B, D>>, h: Handle, j: nat)
    requires Initial(s0)
    requires var p := RunAll(Start(s0), moves);
      && p.flushed.Some? && j < p.flushed.value && h in p.stops
    ensures var p := RunAll(Start(s0), moves);
      && h in p.broker.boxes && p.flushed.value < |p.broker.accepted|
      && var box, stop, r := p.broker.boxes[h], p.stops[h], p.broker.accepted[j];
         && stop < |box.history| && box.history[stop] == Terminate
         && (r.Broadcast? && Subscribed(p.broker.accepted[..j], r.ty, h) ==>
               exists i :: 0 <= i < stop && box.history[i] == Event(Note(r.ty, r.body))
                        && (box.taken > stop ==> i < box.taken))
  {
    RunAllKeepsInv(s0, moves);
    var p := RunAll(Start(s0), moves);
    assert RootInv(p, h);
    var box, stop, at := p.broker.boxes[h], p.stops[h], p.flushed.value;
    var accepted := p.broker.accepted;
    if accepted[j].Broadcast? && Subscribed(accepted[..j], accepted[j].ty, h) {
      assert accepted[..at][..j] == accepted[..j];
      PlaceInProjection(accepted[..at], j, h);
      var k := |Projection(accepted[..j], h)|;
      EventHasIndex(box.history[..stop], k);
      var i :| 0 <= i < stop && box.history[..stop][i] == Event(Events(box.history[..stop])[k]);
      assert box.history[i] == Event(Note(accepted[j].ty, accepted[j].body));
    }
  }

  lemma RunAllSnoc<B, D>(p: Process<B, D>, moves: seq<Move<B, D>>, m: Move<B, D>)
    ensures RunAll(p, moves + [m]) == After(RunAll(p, moves), m)
  {
    assert (moves + [m])[..|moves|] == moves;
  }

  ghost predicate LostAtShutdown(s0: State<int, int>, moves: seq<Move<int, int>>, h: Handle) {
    var p := RunAll(Start(s0), moves);
    && p.broker.taken == |p.broker.accepted|
    && p.broker.busy == Idle
    && h in p.stops && h in p.broker.boxes
    && Projection(p.broker.accepted, h) == [Note(0, 7)]
    && p.broker.boxes[h].history == [Terminate]
  }

  // The losing run, in three stages: accept, and let the flush run out of time; stop the subscriber; fan out.
  ghost const H := Handle(1, 0)
  ghost const LOG: seq<Request<int>> := [Subscribe(0, H), Broadcast(0, 7), Flush]
  ghost const TABLE: Table := map[0 := map[1 := H]]
  ghost const OPEN_BOX: Mailbox<int, int> := Mailbox([], 0, true, false, 8)
  ghost const STOPPED_BOX: Mailbox<int, int> := Mailbox([Terminate], 1, false, false, 8)
  ghost const AT_START: State<int, int> := State([], 0, true, 8, map[], Idle, map[H := OPEN_BOX], [])
  ghost const AT_GIVE_UP: State<int, int> := State(LOG, 1, true, 8, TABLE, Idle, map[H := OPEN_BOX], [])
  ghost const AT_STOP: State<int, int> := State(LOG, 1, true, 8, TABLE, Idle, map[H := STOPPED_BOX], [])
  ghost const AT_FANNED: State<int, int> := State(LOG, 2, true, 8, TABLE, Idle, map[H := STOPPED_BOX], [])
  ghost const AT_END: State<int, int> := State(LOG, 3, true, 8, TABLE, Idle, map[H := STOPPED_BOX], [2])

  ghost const ASKED: seq<Move<int, int>> :=
    [Elsewhere(Offer(LOG[0]))] + [Elsewhere(Dequeue)] + [Elsewhere(Offer(LOG[1]))] + [AskFlush]
  ghost const GIVE_UP: seq<Move<int, int>> := ASKED + [FlushFailed]
  ghost const STOP: seq<Move<int, int>> := GIVE_UP + [CheckRoot(H)] + [SignalRoot(H)] + [Elsewhere(Receive(H))] + [Elsewhere(CloseBox(H))]
  ghost const FANNED: seq<Move<int, int>> :=
    STOP + [Elsewhere(Dequeue)] + [Elsewhere(CheckToken(H))] + [Elsewhere(Push(H))] + [Elsewhere(EndFanOut)]
  ghost const LOSE: seq<Move<int, int>> := FANNED + [Elsewhere(Dequeue)] + [Elsewhere(AnswerFlush)]

  lemma AskedStage()
    ensures RunAll(Start(AT_START), ASKED) == Process(AT_GIVE_UP, Flushing(2), None, {}, map[])
  {
    var q := Start(AT_START);
    RunAllSnoc(q, [], Elsewhere(Offer(LOG[0])));
    var first: seq<Move<int, int>> := [Elsewhere(Offer(LOG[0]))];
    assert [] + first == first;
    RunAllSnoc(q, [Elsewhere(Offer(LOG[0]))], Elsewhere(Dequeue));
    RunAllSnoc(q, [Elsewhere(Offer(LOG[0]))] + [Elsewhere(Dequeue)], Elsewhere(Offer(LOG[1])));
    RunAllSnoc(q, [Elsewhere(Offer(LOG[0]))] + [Elsewhere(Dequeue)] + [Elsewhere(Offer(LOG[1]))], AskFlush);
    assert [] + [LOG[0]] + [LOG[1]] + [Flush] == LOG;
    assert Inserted(map[], 0, H) == TABLE;
  }

  lemma GiveUpStage()
    ensures RunAll(Start(AT_START), GIVE_UP) == Process(AT_GIVE_UP, Signalling, None, {}, map[])
  {
    AskedStage();
    RunAllSnoc(Start(AT_START), ASKED, FlushFailed);
  }

  lemma StopStage()
    ensures RunAll(Start(AT_START), STOP) == Process(AT_STOP, Signalling, None, {H}, map[H := 0])
  {
    GiveUpStage();
    RunAllSnoc(Start(AT_START), GIVE_UP, CheckRoot(H));
    RunAllSnoc(Start(AT_START), GIVE_UP + [CheckRoot(H)], SignalRoot(H));
    RunAllSnoc(Start(AT_START), GIVE_UP + [CheckRoot(H)] + [SignalRoot(H)], Elsewhere(Receive(H)));
    RunAllSnoc(Start(AT_START), GIVE_UP + [CheckRoot(H)] + [SignalRoot(H)] + [Elsewhere(Receive(H))], Elsewhere(CloseBox(H)));
    var p := RunAll(Start(AT_START), GIVE_UP + [CheckRoot(H)] + [SignalRoot(H)]);
    assert p.broker.boxes[H].history == [Terminate];
    assert p.broker == AT_STOP.(boxes := map[H := OPEN_BOX.(history := [Terminate])]);
    assert p.stops == map[H := 0];
    assert p.checked == {H};
  }

  lemma FannedStage()
    ensures RunAll(Start(AT_START), FANNED) == Process(AT_FANNED, Signalling, None, {H}, map[H := 0])
  {
    StopStage();
    RunAllSnoc(Start(AT_START), STOP, Elsewhere(Dequeue));
    RunAllSnoc(Start(AT_START), STOP + [Elsewhere(Dequeue)], Elsewhere(CheckToken(H)));
    RunAllSnoc(Start(AT_START), STOP + [Elsewhere(Dequeue)] + [Elsewhere(CheckToken(H))], Elsewhere(Push(H)));
    RunAllSnoc(Start(AT_START), STOP + [Elsewhere(Dequeue)] + [Elsewhere(CheckToken(H))] + [Elsewhere(Push(H))],
               Elsewhere(EndFanOut));
    assert Targets(TABLE, 0) == {H} by { assert TABLE[0][1] == H; }
    var fanning := AT_STOP.(taken := 2, busy := FanOut(Note(0, 7), map[H := false]));
    assert Next(AT_STOP, Dequeue) == fanning;
    assert Next(fanning, CheckToken(H)) == fanning.(busy := FanOut(Note(0, 7), map[H := true]));
    assert map[H := true] - {H} == map[];
  }

  lemma LoseStage()
    ensures RunAll(Start(AT_START), LOSE) == Process(AT_END, Signalling, None, {H}, map[H := 0])
  {
    FannedStage();
    RunAllSnoc(Start(AT_START), FANNED, Elsewhere(Dequeue));
    RunAllSnoc(Start(AT_START), FANNED + [Elsewhere(Dequeue)], Elsewhere(AnswerFlush));
    assert Next(AT_FANNED, Dequeue) == AT_FANNED.(taken := 3, busy := Answering);
  }

  /**
   Without the flush there is no such order: a broadcast accepted before shutdown began can
   reach its subscriber's inbox after `Terminate` has closed it, and is lost.
   */
  lemma WithoutFlushABroadcastIsLost()
    ensures exists s0: State<int, int>, moves: seq<Move<int, int>>, h: Handle ::
              Initial(s0) && LostAtShutdown(s0, moves, h)
  {
    LoseStage();
    assert LOG[..1] == [Subscribe(0, H)] && LOG[..1][..0] == [];
    assert TableAfter(LOG[..1]) == TABLE;
    assert Projection(LOG[..1], H) == [];
    assert Subscribed(LOG[..1], 0, H);
    assert LOG[..2][..1] == LOG[..1];
    assert Projection(LOG[..2], H) == [] + [Note(0, 7)];
    assert Projection(LOG, H) == Projection(LOG[..2], H) + [];
    assert LostAtShutdown(AT_START, LOSE, H);
  }

  // The same beginning with the flush answered, in two stages: fan out and answer; stop the subscriber.
  ghost const KEPT_BOX: Mailbox<int, int> := OPEN_BOX.(history := [Event(Note(0, 7))])
  ghost const AT_ANSWER: State<int, int> := State(LOG, 3, true, 8, TABLE, Idle, map[H := KEPT_BOX], [2])
  ghost const DELIVER: seq<Move<int, int>> :=
    ASKED + [Elsewhere(Dequeue)] + [Elsewhere(CheckToken(H))] + [Elsewhere(Push(H))] + [Elsewhere(EndFanOut)]
  ghost const ANSWER: seq<Move<int, int>> := DELIVER + [Elsewhere(Dequeue)] + [Elsewhere(AnswerFlush)]
  ghost const KEEP: seq<Move<int, int>> := ANSWER + [FlushReturned] + [CheckRoot(H)] + [SignalRoot(H)]

  lemma FansOut()
    ensures Next(Next(Next(Next(AT_GIVE_UP, Dequeue), CheckToken(H)), Push(H)), EndFanOut) == AT_ANSWER.(taken := 2, answered := [])
  {
    assert Targets(TABLE, 0) == {H} by { assert TABLE[0][1] == H; }
    assert LOG[1] == Broadcast(0, 7);
    assert Begin(AT_GIVE_UP, LOG[1]) == FanOut(Note(0, 7), map[H := false]);
    assert map[H := false][H := true] == map[H := true];
    var fanning := AT_GIVE_UP.(taken := 2, busy := FanOut(Note(0, 7), map[H := false]));
    assert Next(AT_GIVE_UP, Dequeue) == fanning;
    assert Next(fanning, CheckToken(H)) == fanning.(busy := FanOut(Note(0, 7), map[H := true]));
    assert map[H := true] - {H} == map[];
    assert Enqueued(OPEN_BOX, Event(Note(0, 7))) == KEPT_BOX;
  }

  lemma DeliverStage()
    ensures RunAll(Start(AT_START), DELIVER) == Process(AT_ANSWER.(taken := 2, answered := []), Flushing(2), None, {}, map[])
  {
    hide Next;
    FansOut();
    AskedStage();
    RunAllSnoc(Start(AT_START), ASKED, Elsewhere(Dequeue));
    RunAllSnoc(Start(AT_START), ASKED + [Elsewhere(Dequeue)], Elsewhere(CheckToken(H)));
    RunAllSnoc(Start(AT_START), ASKED + [Elsewhere(Dequeue)] + [Elsewhere(CheckToken(H))], Elsewhere(Push(H)));
    RunAllSnoc(Start(AT_START), ASKED + [Elsewhere(Dequeue)] + [Elsewhere(CheckToken(H))] + [Elsewhere(Push(H))],
               Elsewhere(EndFanOut));
  }

  lemma AnswerStage()
    ensures RunAll(Start(AT_START), ANSWER) == Process(AT_ANSWER, Flushing(2), None, {}, map[])
  {
    DeliverStage();
    RunAllSnoc(Start(AT_START), DELIVER, Elsewhere(Dequeue));
    RunAllSnoc(Start(AT_START), DELIVER + [Elsewhere(Dequeue)], Elsewhere(AnswerFlush));
    var was := AT_ANSWER.(taken := 2, answered := []);
    assert Next(was, Dequeue) == was.(taken := 3, busy := Answering);
  }

  ghost predicate KeptAtShutdown(s0: State<int, int>, moves: seq<Move<int, int>>, h: Handle) {
    var p := RunAll(Start(s0), moves);
    p.flushed.Some? && h in p.stops && h in p.broker.boxes && p.broker.boxes[h].history == [Event(Note(0, 7)), Terminate]
  }

  /** With it a shutdown does get the same broadcast in ahead of the `Terminate`. */
  lemma WithTheFlushItIsKept()
    ensures exists s0: State<int, int>, moves: seq<Move<int, int>>, h: Handle ::
              Initial(s0) && KeptAtShutdown(s0, moves, h)
  {
    AnswerStage();
    RunAllSnoc(Start(AT_START), ANSWER, FlushReturned);
    RunAllSnoc(Start(AT_START), ANSWER + [FlushReturned], CheckRoot(H));
    RunAllSnoc(Start(AT_START), ANSWER + [FlushReturned] + [CheckRoot(H)], SignalRoot(H));
    assert KEPT_BOX.history + [Terminate] == [Event(Note(0, 7)), Terminate];
    assert KeptAtShutdown(AT_START, KEEP, H);
  }
}
