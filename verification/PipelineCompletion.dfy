/**
 The broadcast example can always be completed: with inboxes large enough and none closed or
 cancelled, every state any run has reached leads on to the one correct report. So there is no
 dead end in it, and the promise about its report is not an empty one.
 */
module PipelineCompletion {
  import opened Wrappers
  import opened Subscriptions
  import opened BrokerProtocol
  import opened Pipeline
  import opened PipelineProof
  import opened PipelineResults

  // ----- what is left to do -----

  ghost function OpsLeft(data: seq<int>, p: Program): int {
    8 + |MainNews(data)| - p.done
  }

  ghost function UpdatesLeftOf(data: seq<int>, p: Program, who: Source): int {
    |Emitted(who, MainNews(data))| - if who in p.offered then |p.offered[who]| else 0
  }

  ghost function UpdatesLeft(data: seq<int>, p: Program): int {
    UpdatesLeftOf(data, p, DataCollector) + UpdatesLeftOf(data, p, Aggregator) + UpdatesLeftOf(data, p, Printer)
  }

  ghost function RequestsLeft(p: Program): int {
    if p.asked then 0 else 1
  }

  ghost function Undequeued(bus: Bus): int {
    |bus.accepted| - bus.taken
  }

  /** A pending send has a token check and a push to go; a fan-out has its end to go as well. */
  ghost function FanWork(busy: Busy<Body>): int {
    match busy
    case Idle => 0
    case Answering => 1
    case FanOut(_, pending) => 1 + |pending| + |set h | h in pending && !pending[h]|
  }

  ghost function UntakenOf(bus: Bus, who: Source): int {
    var h := HandleOf(who);
    if h in bus.boxes then |bus.boxes[h].history| - bus.boxes[h].taken else 0
  }

  ghost function Untaken(bus: Bus): int {
    UntakenOf(bus, DataCollector) + UntakenOf(bus, Aggregator) + UntakenOf(bus, Printer)
  }

  // ----- enough room, and nothing closed -----

  /** Everything still to come fits into the inbox of `h`, even if it were never drained. */
  ghost predicate BoxRoom(data: seq<int>, p: Program, h: Handle)
    requires h in p.bus.boxes
  {
    |p.bus.boxes[h].history| + (if Pending(p.bus, h) then 1 else 0)
      + RequestsLeft(p) + Undequeued(p.bus) + OpsLeft(data, p) + UpdatesLeft(data, p) <= p.bus.boxes[h].capacity
  }

  ghost predicate Ample(data: seq<int>, p: Program) {
    && p.bus.open
    && |p.bus.accepted| + OpsLeft(data, p) + UpdatesLeft(data, p) <= p.bus.capacity
    && (forall who: Source :: HandleOf(who) in p.bus.boxes && p.bus.boxes[HandleOf(who)].Live())
    && (forall h | h in p.bus.boxes :: BoxRoom(data, p, h))
    && (p.asked ==> Requests(p.bus.boxes[HandleOf(Printer)].history) > 0)
  }

  ghost predicate Closes(step: Step) {
    step.Bus? && (step.action.CloseBox? || step.action.CancelToken? || step.action.CloseBroker?)
  }

  ghost predicate Unhindered(data: seq<int>, p: Program) {
    ProgramInv(data, p) && ReportInv(data, p) && Ample(data, p)
  }

  /** An actor has offered no more than it will ever say. */
  lemma OfferedIsPrefix(data: seq<int>, p: Program, who: Source)
    requires ProgramInv(data, p)
    ensures UpdatesLeftOf(data, p, who) >= |p.actors[who].outgoing|
  {
    hide Inv, Tally, Broadcasts, From, Handled, Emitted, Select, Shaped;
    assert ActorInv(p, who);
    if p.actors[who].started {
      if who.Printer? {
        DonesAreTheAggregators(who, Handled(p, who));
        DonesAreTheAggregators(who, MainNews(data));
      } else {
        HandledIsPrefix(data, p, who);
        EmittedGrows(who, Handled(p, who), MainNews(data));
      }
      assert |p.offered[who]| + |p.actors[who].outgoing| == |Emitted(who, Handled(p, who))|;
    }
  }

  lemma NothingOverdrawn(data: seq<int>, p: Program)
    requires ProgramInv(data, p)
    ensures OpsLeft(data, p) >= 0 && UpdatesLeft(data, p) >= 0 && Undequeued(p.bus) >= 0
    ensures Untaken(p.bus) >= 0 && forall who: Source :: UntakenOf(p.bus, who) >= 0
    ensures forall who: Source :: UpdatesLeft(data, p) >= |p.actors[who].outgoing|
  {
    hide Emitted, Handled, Select, Broadcasts, Tally, From, Shaped;
    OfferedIsPrefix(data, p, DataCollector);
    OfferedIsPrefix(data, p, Aggregator);
    OfferedIsPrefix(data, p, Printer);
    forall who: Source
      ensures UpdatesLeft(data, p) >= |p.actors[who].outgoing| && UntakenOf(p.bus, who) >= 0
    {
      if HandleOf(who) in p.bus.boxes { assert BoxInv(p.bus, HandleOf(who)); }
      match who { case DataCollector => case Aggregator => case Printer => }
    }
  }

  // ----- each step keeps room enough, and gets something done -----

  lemma OfferFits(data: seq<int>, p: Program, q: Program, r: Request<Body>)
    requires ProgramInv(data, p) && Ample(data, p) && q.bus == Offered(p.bus, r) && q.asked == p.asked
    requires OpsLeft(data, p) + UpdatesLeft(data, p) > 0
    requires OpsLeft(data, q) + UpdatesLeft(data, q) == OpsLeft(data, p) + UpdatesLeft(data, p) - 1
    ensures Accepts(p.bus) && Ample(data, q)
    ensures q.bus == p.bus.(accepted := p.bus.accepted + [r])
  {
    hide OpsLeft, UpdatesLeft, ProgramInv, Requests;
    assert p.bus.taken >= 0;
    forall h | h in q.bus.boxes ensures BoxRoom(data, q, h) {
      assert BoxRoom(data, p, h);
    }
  }

  lemma MainAdvances(data: seq<int>, p: Program)
    requires Unhindered(data, p) && OpsLeft(data, p) > 0
    ensures var q := NextStep(data, p, MainStep);
      Ample(data, q) && OpsLeft(data, q) == OpsLeft(data, p) - 1
  {
    hide ProgramInv, ReportInv, Emitted;
    NothingOverdrawn(data, p);
    var q := NextStep(data, p, MainStep);
    match OpAt(data, p.done)
    case Some(Publish(r)) =>
      OfferFits(data, p, p.(bus := Offered(p.bus, r), done := p.done + 1), r);
    case Some(Start(who)) =>
      forall h | h in q.bus.boxes ensures BoxRoom(data, q, h) {
        assert BoxRoom(data, p, h);
      }
    case None => assert false;
  }

  lemma SendAdvances(data: seq<int>, p: Program, who: Source)
    requires Unhindered(data, p) && p.actors[who].outgoing != []
    ensures var q := NextStep(data, p, Send(who));
      Ample(data, q) && OpsLeft(data, q) == OpsLeft(data, p) && UpdatesLeft(data, q) == UpdatesLeft(data, p) - 1
  {
    hide ReportInv, Emitted, Inv, MainInv, KeepsUp, Tally;
    NothingOverdrawn(data, p);
    var u := p.actors[who].outgoing[0];
    var r := Broadcast(STATUS, Status(who, u));
    var q := p.(bus := Offered(p.bus, r),
                actors := p.actors[who := p.actors[who].(outgoing := p.actors[who].outgoing[1..])],
                offered := p.offered[who := p.offered[who] + [u]]);
    match who { case DataCollector => case Aggregator => case Printer => }
    OfferFits(data, p, q, r);
    assert SendEnds(p.bus);
  }

  lemma AskAdvances(data: seq<int>, p: Program)
    requires Unhindered(data, p) && !p.asked
    ensures var q := NextStep(data, p, AskPrinter);
      && q.asked && Ample(data, q)
      && OpsLeft(data, q) == OpsLeft(data, p) && UpdatesLeft(data, q) == UpdatesLeft(data, p)
  {
    hide ProgramInv, ReportInv, Emitted, MainNews, Events;
    NothingOverdrawn(data, p);
    var h := HandleOf(Printer);
    var q := NextStep(data, p, AskPrinter);
    assert BoxRoom(data, p, h);
    BoxTakenIsNat(data, p, h);
    assert q.bus.boxes[h].history == p.bus.boxes[h].history + [Direct(AwaitReport)];
    RequestsAppend(p.bus.boxes[h].history, [Direct(AwaitReport)]);
    assert Requests([Direct(AwaitReport)]) == 1;
    forall g | g in q.bus.boxes ensures BoxRoom(data, q, g) {
      assert BoxRoom(data, p, g);
      assert Pending(q.bus, g) == Pending(p.bus, g);
    }
  }

  lemma BoxTakenIsNat(data: seq<int>, p: Program, h: Handle)
    requires ProgramInv(data, p) && h in p.bus.boxes
    ensures p.bus.boxes[h].taken <= |p.bus.boxes[h].history|
  {
    assert BoxInv(p.bus, h);
  }

  lemma TakeAdvances(data: seq<int>, p: Program, who: Source)
    requires Unhindered(data, p) && CanTake(p, who)
    ensures var q := NextStep(data, p, Take(who));
      && Ample(data, q) && q.asked == p.asked && Untaken(q.bus) == Untaken(p.bus) - 1
      && OpsLeft(data, q) == OpsLeft(data, p) && UpdatesLeft(data, q) == UpdatesLeft(data, p)
      && Undequeued(q.bus) == Undequeued(p.bus) && q.bus.busy == p.bus.busy
  {
    hide ProgramInv, ReportInv, Emitted, Requests, MainNews, Next, Handled;
    var q := NextStep(data, p, Take(who));
    TakeOffersNothing(data, p, who);
    ReceiveTakesOne(p.bus, who);
    forall g | g in q.bus.boxes ensures BoxRoom(data, q, g) {
      assert BoxRoom(data, p, g);
      assert Pending(q.bus, g) == Pending(p.bus, g);
    }
  }

  lemma TakeOffersNothing(data: seq<int>, p: Program, who: Source)
    requires CanTake(p, who)
    ensures var q := NextStep(data, p, Take(who));
      && q.bus == Next(p.bus, Receive(HandleOf(who))) && q.offered == p.offered && q.done == p.done && q.asked == p.asked
  {
    hide Next, PrinterHandles, Reaction, Values, Handled;
  }

  lemma ReceiveTakesOne(bus: Bus, who: Source)
    requires var h := HandleOf(who); h in bus.boxes && bus.boxes[h].taken < |bus.boxes[h].history|
    ensures var h, t := HandleOf(who), Next(bus, Receive(HandleOf(who)));
      && t == bus.(boxes := bus.boxes[h := bus.boxes[h].(taken := bus.boxes[h].taken + 1)])
      && Untaken(t) == Untaken(bus) - 1
  {
    match who { case DataCollector => case Aggregator => case Printer => }
  }

  lemma DequeueAdvances(data: seq<int>, p: Program)
    requires Unhindered(data, p) && p.bus.busy.Idle? && Undequeued(p.bus) > 0
    ensures var q := p.(bus := Next(p.bus, Dequeue));
      Ample(data, q) && Undequeued(q.bus) == Undequeued(p.bus) - 1
  {
    hide ProgramInv, ReportInv, Emitted, Requests, MainNews, Begin, Apply;
    var q := p.(bus := Next(p.bus, Dequeue));
    forall g | g in q.bus.boxes ensures BoxRoom(data, q, g) {
      assert BoxRoom(data, p, g);
    }
  }

  /** A step of the fan-out, whichever can be taken. */
  lemma FanOutStep(data: seq<int>, p: Program) returns (a: BusAction)
    requires Unhindered(data, p) && !p.bus.busy.Idle?
    ensures a.CheckToken? || a.Push? || a.EndFanOut? || a.AnswerFlush?
    ensures var bus := Next(p.bus, a);
      FanWork(bus.busy) < FanWork(p.bus.busy) && Undequeued(bus) == Undequeued(p.bus)
  {
    hide Unhindered, Next;
    var pending := if p.bus.busy.FanOut? then p.bus.busy.pending else map[];
    if pending == map[] {
      a := if p.bus.busy.FanOut? then EndFanOut else AnswerFlush;
      FanOutEnds(data, p);
    } else {
      var h :| h in pending;
      a := if pending[h] then Push(h) else CheckToken(h);
      SendDone(pending, h);
      if pending[h] {
        PushGoes(data, p, h);
      } else {
        SendChecked(pending, h);
        CheckGoes(p.bus, h);
      }
    }
  }

  lemma FanOutEnds(data: seq<int>, p: Program)
    requires Unhindered(data, p) && (p.bus.busy.Answering? || (p.bus.busy.FanOut? && p.bus.busy.pending == map[]))
    ensures var bus := Next(p.bus, if p.bus.busy.FanOut? then EndFanOut else AnswerFlush);
      bus.busy.Idle? && Undequeued(bus) == Undequeued(p.bus)
  {
    hide ReportInv, Ample, MainInv, ActorInv, BoxInv, AnsweredInv;
  }

  lemma CheckGoes(bus: Bus, h: Handle)
    requires Pending(bus, h) && !bus.busy.pending[h]
    ensures var t := Next(bus, CheckToken(h));
      && Undequeued(t) == Undequeued(bus)
      && (t.busy == bus.busy.(pending := bus.busy.pending - {h}) || t.busy == bus.busy.(pending := bus.busy.pending[h := true]))
  {
  }

  /** There is room for every send of the fan-out. */
  lemma PushGoes(data: seq<int>, p: Program, h: Handle)
    requires Unhindered(data, p) && Pending(p.bus, h) && p.bus.busy.pending[h]
    ensures Next(p.bus, Push(h)).busy == p.bus.busy.(pending := p.bus.busy.pending - {h})
    ensures Undequeued(Next(p.bus, Push(h))) == Undequeued(p.bus)
  {
    hide ReportInv, ProgramInv, Emitted, MainNews;
    NothingOverdrawn(data, p);
    if h in p.bus.boxes {
      assert BoxRoom(data, p, h);
      BoxTakenIsNat(data, p, h);
    }
  }

  lemma SendDone(pending: map<Handle, bool>, h: Handle)
    requires h in pending
    ensures var rest := pending - {h};
      |rest| == |pending| - 1
      && |set g | g in rest && !rest[g]| <= |set g | g in pending && !pending[g]|
  {
    var rest := pending - {h};
    assert rest.Keys == pending.Keys - {h};
    Smaller(set g | g in rest && !rest[g], set g | g in pending && !pending[g]);
  }

  lemma SendChecked(pending: map<Handle, bool>, h: Handle)
    requires h in pending && !pending[h]
    ensures var next := pending[h := true];
      |next| == |pending| && |set g | g in next && !next[g]| < |set g | g in pending && !pending[g]|
  {
    var next := pending[h := true];
    assert next.Keys == pending.Keys;
    assert (set g | g in next && !next[g]) == (set g | g in pending && !pending[g]) - {h};
  }

  lemma Smaller(a: set<Handle>, b: set<Handle>)
    requires a <= b
    ensures |a| <= |b|
  {
    assert a + (b - a) == b;
  }

  /** Whatever the broker does between dequeues, what has been enqueued is what was pending. */
  lemma FanOutKeepsAmple(data: seq<int>, p: Program, a: BusAction)
    requires Unhindered(data, p) && (a.CheckToken? || a.Push? || a.EndFanOut? || a.AnswerFlush?)
    ensures Ample(data, p.(bus := Next(p.bus, a)))
  {
    hide ProgramInv, ReportInv, Emitted, MainNews, Events;
    var q := p.(bus := Next(p.bus, a));
    OffersNothing(p.bus, a);
    ForeignAsksNothing(p.bus, a, HandleOf(Printer));
    FanOutKeepsLive(p.bus, a);
    forall g | g in q.bus.boxes ensures BoxRoom(data, q, g) {
      assert BoxRoom(data, p, g);
      FanOutBox(p.bus, a, g);
    }
  }

  lemma FanOutKeepsLive(bus: Bus, a: BusAction)
    requires a.CheckToken? || a.Push? || a.EndFanOut? || a.AnswerFlush?
    ensures var t := Next(bus, a);
      && t.open == bus.open && t.capacity == bus.capacity && t.taken == bus.taken && t.boxes.Keys == bus.boxes.Keys
      && forall h | h in bus.boxes :: t.boxes[h].Live() == bus.boxes[h].Live()
  {
  }

  lemma FanOutBox(bus: Bus, a: BusAction, h: Handle)
    requires h in bus.boxes && (a.CheckToken? || a.Push? || a.EndFanOut? || a.AnswerFlush?)
    ensures var t := Next(bus, a);
      && h in t.boxes && t.boxes[h].capacity == bus.boxes[h].capacity
      && |t.boxes[h].history| + (if Pending(t, h) then 1 else 0) <= |bus.boxes[h].history| + (if Pending(bus, h) then 1 else 0)
  {
  }

  lemma StepKeepsUnhindered(data: seq<int>, p: Program, step: Step)
    requires Unhindered(data, p) && !Closes(step)
    ensures Unhindered(data, NextStep(data, p, step))
  {
    StepKeepsProgram(data, p, step);
    StepKeepsReport(data, p, step);
    StepKeepsAmple(data, p, step);
  }

  lemma StepKeepsAmple(data: seq<int>, p: Program, step: Step)
    requires Unhindered(data, p) && !Closes(step)
    ensures Ample(data, NextStep(data, p, step))
  {
    hide ProgramInv, ReportInv, Ample, Next, Emitted;
    match step
    case Bus(a) =>
      if a.Dequeue? {
        if p.bus.busy.Idle? && Undequeued(p.bus) > 0 { DequeueAdvances(data, p); } else { DequeueIdles(p.bus); }
      } else if Foreign(a) {
        FanOutKeepsAmple(data, p, a);
      }
    case MainStep =>
      if OpsLeft(data, p) > 0 { MainAdvances(data, p); }
    case AskPrinter => if !p.asked { AskAdvances(data, p); }
    case Send(who) => HasActor(data, p, who); if p.actors[who].outgoing != [] { SendAdvances(data, p, who); }
    case Take(who) => if CanTake(p, who) { TakeAdvances(data, p, who); }
  }

  lemma HasActor(data: seq<int>, p: Program, who: Source)
    requires ProgramInv(data, p)
    ensures who in p.actors && who in p.offered
  {
  }

  lemma DequeueIdles(bus: Bus)
    requires !(bus.busy.Idle? && Undequeued(bus) > 0)
    ensures Next(bus, Dequeue) == bus
  {
  }

  // ----- when there is nothing left to do -----

  ghost predicate Quiet(data: seq<int>, p: Program) {
    && OpsLeft(data, p) == 0 && p.asked
    && p.bus.busy.Idle? && Undequeued(p.bus) == 0
    && forall who: Source :: who in p.actors && p.actors[who].outgoing == [] && UntakenOf(p.bus, who) == 0
  }

  /** Every actor has then handled all it was owed. */
  lemma QuietHandledAll(data: seq<int>, p: Program, who: Source)
    requires Unhindered(data, p) && Quiet(data, p)
    ensures Handled(p, who) == Select(Broadcasts(p.bus.accepted), who.Printer?)
  {
    hide ReportInv, ActorInv, Tally, Emitted, AnsweredInv, RunComplete;
    var h := HandleOf(who);
    var box := p.bus.boxes[h];
    BoxHasItsProjection(p.bus, h);
    assert BoxInv(p.bus, h);
    assert UntakenOf(p.bus, who) == 0;
    assert box.history[..box.taken] == box.history;
    assert Log(p.bus) == p.bus.accepted;
    ProjectionOfShaped(p.bus.accepted, who);
  }

  /** And every collector has said everything, and been heard. */
  lemma QuietSaidAll(data: seq<int>, p: Program, who: Source)
    requires Unhindered(data, p) && Quiet(data, p)
    ensures From(Handled(p, Printer), who) == Emitted(who, MainNews(data))
  {
    hide Inv, Tally, Emitted, Handled, From, Shaped, Ample;
    var all := Broadcasts(p.bus.accepted);
    QuietHandledAll(data, p, who);
    QuietHandledAll(data, p, Printer);
    ProjectionOfShaped(p.bus.accepted, who);
    SelectedStatuses(all, who);
    assert ActorInv(p, who);
    assert MainNews(data)[..Issued(p.done)] == MainNews(data);
    assert p.offered[who] + [] == p.offered[who];
    assert Ample(data, p);
    IsOpen(data, p);
    if who.Printer? {
      DonesAreTheAggregators(who, Handled(p, who));
      DonesAreTheAggregators(who, MainNews(data));
    }
  }

  lemma IsOpen(data: seq<int>, p: Program)
    requires Ample(data, p)
    ensures p.bus.open
  {
  }

  lemma QuietIsComplete(data: seq<int>, p: Program)
    requires Unhindered(data, p) && Quiet(data, p)
    ensures p.printer.collectorsFinished == COLLECTOR_COUNT
  {
    var news := Handled(p, Printer);
    forall i | 0 <= i < |news|
      ensures news[i].body.Status? && (news[i].body.update.Done? ==> news[i].body.from.Aggregator?)
    {
      HandledStatuses(data, p, i);
    }
    hide Ample, Quiet, Handled, From, Emitted, Inv, MainInv;
    TallyBySource(news);
    QuietSaidAll(data, p, DataCollector);
    QuietSaidAll(data, p, Aggregator);
    QuietSaidAll(data, p, Printer);
    EmittedInFull(DataCollector, data);
    EmittedInFull(Aggregator, data);
    FinishedMeansAll(From(news, DataCollector), Emitted(DataCollector, MainNews(data)));
    FinishedMeansAll(From(news, Aggregator), Emitted(Aggregator, MainNews(data)));
    DonesAreTheAggregators(Printer, MainNews(data));
    NoFinished(From(news, Printer));
  }

  lemma QuietHasReported(data: seq<int>, p: Program)
    requires Unhindered(data, p) && Quiet(data, p)
    ensures p.reports == [RunningSum(data)]
  {
    hide ProgramInv, ReportInv;
    QuietIsComplete(data, p);
    TwoFinishedMeanDrained(data, p);
    ReportsCounted(data, p);
    var box := p.bus.boxes[HandleOf(Printer)];
    BoxTakenIsNat(data, p, HandleOf(Printer));
    assert UntakenOf(p.bus, Printer) == 0;
    assert box.history[..box.taken] == box.history;
    assert |p.reports| == 1;
    var sum := p.reports[0];
    assert sum in p.reports;
  }

  // ----- getting there -----

  ghost predicate Less(data: seq<int>, q: Program, p: Program) {
    var (o, u, a, d, f, t) := (OpsLeft(data, p), UpdatesLeft(data, p), RequestsLeft(p), Undequeued(p.bus), FanWork(p.bus.busy), Untaken(p.bus));
    var (o', u', a', d', f', t') := (OpsLeft(data, q), UpdatesLeft(data, q), RequestsLeft(q), Undequeued(q.bus), FanWork(q.bus.busy), Untaken(q.bus));
    o' < o || (o' == o && (u' < u || (u' == u && (a' < a || (a' == a && (d' < d || (d' == d && (f' < f || (f' == f && t' < t)))))))))
  }

  /** Until all is quiet some step gets on with it. */
  lemma SomethingToDo(data: seq<int>, p: Program) returns (step: Step)
    requires Unhindered(data, p) && !Quiet(data, p)
    ensures !Closes(step) && Less(data, NextStep(data, p, step), p)
  {
    hide ReportInv, Ample, Next, Emitted, Inv, MainInv, Tally;
    NothingOverdrawn(data, p);
    if OpsLeft(data, p) > 0 {
      step := MainStep;
      MainAdvances(data, p);
    } else if who: Source :| p.actors[who].outgoing != [] {
      step := Send(who);
      SendAdvances(data, p, who);
    } else if !p.asked {
      step := AskPrinter;
      AskAdvances(data, p);
    } else if !p.bus.busy.Idle? {
      var a := FanOutStep(data, p);
      step := Bus(a);
    } else if Undequeued(p.bus) > 0 {
      step := Bus(Dequeue);
      DequeueAdvances(data, p);
    } else {
      var who: Source :| UntakenOf(p.bus, who) != 0;
      step := Take(who);
      assert ActorInv(p, who);
      TakeAdvances(data, p, who);
    }
  }

  /** Nobody can run on the spot: every step that changes anything lessens what is left to do. */
  lemma EveryStepCounts(data: seq<int>, p: Program, step: Step)
    requires Unhindered(data, p) && !Closes(step) && NextStep(data, p, step) != p
    ensures Less(data, NextStep(data, p, step), p)
  {
    hide ReportInv, Ample, Next, Emitted, Inv, MainInv, Tally;
    match step
    case Bus(a) =>
      if a.Dequeue? {
        if p.bus.busy.Idle? && Undequeued(p.bus) > 0 { DequeueAdvances(data, p); } else { DequeueIdles(p.bus); }
      } else if Foreign(a) {
        FanOutCounts(p.bus, a);
      }
    case MainStep => MainAdvances(data, p);
    case AskPrinter => AskAdvances(data, p);
    case Send(who) => SendAdvances(data, p, who);
    case Take(who) => TakeAdvances(data, p, who);
  }

  lemma FanOutCounts(bus: Bus, a: BusAction)
    requires a.CheckToken? || a.Push? || a.EndFanOut? || a.AnswerFlush?
    requires Next(bus, a) != bus
    ensures FanWork(Next(bus, a).busy) < FanWork(bus.busy) && Undequeued(Next(bus, a)) == Undequeued(bus)
  {
    if a.CheckToken? || a.Push? {
      var pending := bus.busy.pending;
      SendDone(pending, a.to);
      if !pending[a.to] { SendChecked(pending, a.to); }
    }
  }

  lemma {:induction false} ExecuteCons(data: seq<int>, p: Program, step: Step, rest: seq<Step>)
    ensures Execute(data, p, [step] + rest) == Execute(data, NextStep(data, p, step), rest)
  {
    if rest == [] {
      assert [step] + rest == [step];
      assert [step][..0] == [];
    } else {
      var n := |rest| - 1;
      assert ([step] + rest)[..1 + n] == [step] + rest[..n];
      ExecuteCons(data, p, step, rest[..n]);
    }
  }

  lemma {:induction false} ExecuteAppend(data: seq<int>, p: Program, a: seq<Step>, b: seq<Step>)
    ensures Execute(data, p, a + b) == Execute(data, Execute(data, p, a), b)
  {
    if b == [] {
      assert a + b == a;
    } else {
      assert (a + b)[..|a + b| - 1] == a + b[..|b| - 1];
      ExecuteAppend(data, p, a, b[..|b| - 1]);
    }
  }

  lemma {:induction false} RunToTheEnd(data: seq<int>, p: Program) returns (steps: seq<Step>)
    requires Unhindered(data, p)
    ensures Execute(data, p, steps).reports == [RunningSum(data)]
    decreases OpsLeft(data, p), UpdatesLeft(data, p), RequestsLeft(p), Undequeued(p.bus), FanWork(p.bus.busy), Untaken(p.bus)
  {
    hide ProgramInv, ReportInv, Ample, Quiet, NextStep, Unhindered;
    if Quiet(data, p) {
      QuietHasReported(data, p);
      steps := [];
    } else {
      var step := SomethingToDo(data, p);
      var q := NextStep(data, p, step);
      StepKeepsUnhindered(data, p, step);
      NonNegative(data, p);
      NonNegative(data, q);
      var rest := RunToTheEnd(data, q);
      steps := [step] + rest;
      ExecuteCons(data, p, step, rest);
    }
  }

  lemma NonNegative(data: seq<int>, p: Program)
    requires Unhindered(data, p)
    ensures OpsLeft(data, p) >= 0 && UpdatesLeft(data, p) >= 0 && Undequeued(p.bus) >= 0
    ensures RequestsLeft(p) >= 0 && FanWork(p.bus.busy) >= 0 && Untaken(p.bus) >= 0
  {
    NothingOverdrawn(data, p);
  }

  // ----- the result -----

  /** At the start: nothing closed, and every inbox has room for all the program will ever send. */
  ghost predicate Roomy(data: seq<int>, p: Program) {
    var all := 9 + |MainNews(data)| + |Emitted(DataCollector, MainNews(data))| + |Emitted(Aggregator, MainNews(data))|
               + |Emitted(Printer, MainNews(data))|;
    && p.bus.open && all <= p.bus.capacity
    && (forall who: Source :: HandleOf(who) in p.bus.boxes && p.bus.boxes[HandleOf(who)].Live())
    && (forall h | h in p.bus.boxes :: all <= p.bus.boxes[h].capacity)
  }

  lemma {:induction false} RunsStayUnhindered(data: seq<int>, p0: Program, steps: seq<Step>)
    requires Begins(p0) && Roomy(data, p0) && (forall i | 0 <= i < |steps| :: !Closes(steps[i]))
    ensures Unhindered(data, Execute(data, p0, steps))
  {
    if steps == [] {
      hide ProgramInv, ReportInv, Emitted;
      ExecutionKeepsInv(data, p0, []);
      forall h | h in p0.bus.boxes ensures BoxRoom(data, p0, h) {
      }
    } else {
      hide ProgramInv, ReportInv, Ample, Roomy, NextStep;
      RunsStayUnhindered(data, p0, steps[..|steps| - 1]);
      StepKeepsUnhindered(data, Execute(data, p0, steps[..|steps| - 1]), steps[|steps| - 1]);
    }
  }

  /**
   For any data, any run in which no inbox has been closed and no token cancelled, however far it
   has got and in whatever order, can be carried on to the one report of the wrapped sum.
   */
  lemma EveryRunCanReport(data: seq<int>, p0: Program, steps: seq<Step>)
    requires Begins(p0) && Roomy(data, p0) && (forall i | 0 <= i < |steps| :: !Closes(steps[i]))
    ensures exists more: seq<Step> :: Execute(data, p0, steps + more).reports == [Wrap(Sum(data))]
  {
    hide Unhindered, Execute, Roomy, Emitted;
    RunsStayUnhindered(data, p0, steps);
    var more := RunToTheEnd(data, Execute(data, p0, steps));
    ExecuteAppend(data, p0, steps, more);
    RunningSumIsWrappedSum(data);
  }

  ghost function StateAt(data: seq<int>, p0: Program, run: nat -> Step, n: nat): Program {
    if n == 0 then p0 else NextStep(data, StateAt(data, p0, run, n - 1), run(n - 1))
  }

  lemma {:induction false} SomeStepIsIdle(data: seq<int>, p0: Program, run: nat -> Step, n: nat, p: Program) returns (m: nat)
    requires p == StateAt(data, p0, run, n) && Unhindered(data, p) && forall k: nat :: !Closes(run(k))
    ensures StateAt(data, p0, run, m + 1) == StateAt(data, p0, run, m)
    decreases OpsLeft(data, p), UpdatesLeft(data, p), RequestsLeft(p), Undequeued(p.bus), FanWork(p.bus.busy), Untaken(p.bus)
  {
    hide ProgramInv, ReportInv, Ample, NextStep, Unhindered;
    var q := StateAt(data, p0, run, n + 1);
    if q == p {
      m := n;
    } else {
      EveryStepCounts(data, p, run(n));
      StepKeepsUnhindered(data, p, run(n));
      NonNegative(data, p);
      NonNegative(data, q);
      m := SomeStepIsIdle(data, p0, run, n + 1, q);
    }
  }

  /** No run goes on for ever: in any endless list of steps that closes nothing, some step changes nothing. */
  lemma NoRunGoesOnForEver(data: seq<int>, p0: Program, run: nat -> Step)
    requires Begins(p0) && Roomy(data, p0) && forall k: nat :: !Closes(run(k))
    ensures exists n: nat :: StateAt(data, p0, run, n + 1) == StateAt(data, p0, run, n)
  {
    RunsStayUnhindered(data, p0, []);
    var n := SomeStepIsIdle(data, p0, run, 0, p0);
  }

  /** No step that closes nothing has any effect. */
  ghost predicate Stuck(data: seq<int>, p: Program) {
    forall step | !Closes(step) :: NextStep(data, p, step) == p
  }

  /** A run that can go no further has sent the one report. So, with room enough, there is no other way for it to end. */
  lemma AStuckRunHasReported(data: seq<int>, p0: Program, steps: seq<Step>)
    requires Begins(p0) && Roomy(data, p0) && (forall i | 0 <= i < |steps| :: !Closes(steps[i]))
    requires Stuck(data, Execute(data, p0, steps))
    ensures Execute(data, p0, steps).reports == [Wrap(Sum(data))]
  {
    hide Unhindered, Execute, Roomy, Emitted, Quiet, NextStep;
    var p := Execute(data, p0, steps);
    RunsStayUnhindered(data, p0, steps);
    if !Quiet(data, p) {
      var step := SomethingToDo(data, p);
    }
    QuietHasReported(data, p);
    RunningSumIsWrappedSum(data);
  }

  ghost predicate Fits32(x: int) {
    -0x8000_0000 <= x < 0x8000_0000
  }

  /** So the reports are right in every run exactly for data whose sum fits in 32 bits. */
  lemma ReportsAreTheSumExactlyWhenItFits(data: seq<int>, p0: Program)
    requires Begins(p0) && Roomy(data, p0)
    ensures (forall steps: seq<Step>, r | r in Execute(data, p0, steps).reports :: r == Sum(data)) <==> Fits32(Sum(data))
  {
    hide Execute, Roomy, Begins;
    if Fits32(Sum(data)) {
      forall steps: seq<Step>, r | r in Execute(data, p0, steps).reports ensures r == Sum(data) {
        OneCorrectReport(data, p0, steps);
      }
    } else {
      EveryRunCanReport(data, p0, []);
      var more: seq<Step> :| Execute(data, p0, [] + more).reports == [Wrap(Sum(data))];
      assert [] + more == more;
      assert Wrap(Sum(data)) in Execute(data, p0, more).reports;
    }
  }

  /** An input that shows it. */
  lemma OneTooManyWrapsAround(p0: Program)
    requires Begins(p0) && Roomy([0x7fff_ffff, 1], p0)
    ensures exists steps: seq<Step> :: Execute([0x7fff_ffff, 1], p0, steps).reports == [-0x8000_0000]
  {
    hide Execute, Roomy, Begins;
    var data := [0x7fff_ffff, 1];
    EveryRunCanReport(data, p0, []);
    var more: seq<Step> :| Execute(data, p0, [] + more).reports == [Wrap(Sum(data))];
    assert [] + more == more;
    assert data[..1] == [0x7fff_ffff] && data[..1][..0] == [];
    assert Sum(data) == 0x8000_0000;
    assert Wrap(0x8000_0000) == -0x8000_0000;
  }
}
