/**
 The broadcast example: data in, two collectors, one printer, and a single report.

 The example's four parties run on top of the broker protocol, interleaved step by step:
 `main` issues its sends in program order, each actor broadcasts what a handler asked for
 before it takes its next message, the report request may reach the printer at any moment,
 and any inbox, including the broker's, may close at any time.
 */
module Pipeline {
  import opened Wrappers
  import opened Subscriptions
  import opened BrokerProtocol

  // ----- messages -----

  datatype Source = DataCollector | Aggregator | Printer

  datatype StatusUpdate = Ready | Updated(value: int) | Done(sum: int) | Finished

  /** `from` records who broadcast an update; no handler reads it. */
  datatype Body = NewData(value: int) | Finalize | Status(from: Source, update: StatusUpdate)

  datatype AwaitReport = AwaitReport

  const NEW_DATA: TypeId := 0
  const FINALIZE: TypeId := 1
  const STATUS: TypeId := 2

  const COLLECTOR_COUNT := 2

  type Bus = State<Body, AwaitReport>
  type BusAction = Action<Body, AwaitReport>
  type News = Note<Body>

  ghost function HandleOf(who: Source): Handle {
    match who
    case DataCollector => Handle(1, 0)
    case Aggregator => Handle(2, 0)
    case Printer => Handle(3, 0)
  }

  // ----- 32-bit sums -----

  /** The value a wrapping 32-bit addition leaves for the mathematical `x`. */
  function Wrap(x: int): (r: int)
    ensures -0x8000_0000 <= r < 0x8000_0000
    ensures (r - x) % 0x1_0000_0000 == 0
    ensures -0x8000_0000 <= x < 0x8000_0000 ==> r == x
  {
    (x + 0x8000_0000) % 0x1_0000_0000 - 0x8000_0000
  }

  ghost function Sum(data: seq<int>): int {
    if data == [] then 0 else Sum(data[..|data| - 1]) + data[|data| - 1]
  }

  ghost function RunningSum(data: seq<int>): int {
    if data == [] then 0 else Wrap(RunningSum(data[..|data| - 1]) + data[|data| - 1])
  }

  /** Wrapping at every addition leaves the mathematical sum, wrapped once. */
  lemma {:induction false} RunningSumIsWrappedSum(data: seq<int>)
    ensures RunningSum(data) == Wrap(Sum(data))
  {
    if data != [] {
      RunningSumIsWrappedSum(data[..|data| - 1]);
      var s := Sum(data[..|data| - 1]);
      WrapAbsorbs(s, data[|data| - 1]);
    }
  }

  lemma WrapAbsorbs(s: int, x: int)
    ensures Wrap(Wrap(s) + x) == Wrap(s + x)
  {
    var q := (s + 0x8000_0000) / 0x1_0000_0000;
    assert Wrap(s) == s - q * 0x1_0000_0000;
    var y := s + x + 0x8000_0000;
    assert (y - q * 0x1_0000_0000) % 0x1_0000_0000 == y % 0x1_0000_0000;
  }

  // ----- what each collector broadcasts for the broadcasts it has handled -----

  ghost function Values(news: seq<News>): seq<int> {
    if news == [] then []
    else
      var n := |news| - 1;
      Values(news[..n]) + if news[n].body.NewData? then [news[n].body.value] else []
  }

  /** The updates one handler call broadcasts, given the data handled before it. */
  ghost function Reaction(who: Source, before: seq<int>, body: Body): seq<StatusUpdate> {
    match (who, body)
    case (DataCollector, NewData(v)) => [Updated(v)]
    case (DataCollector, Finalize) => [Finished]
    case (Aggregator, NewData(v)) => [Updated(RunningSum(before + [v]))]
    case (Aggregator, Finalize) => [Done(RunningSum(before)), Finished]
    case _ => []
  }

  /** Everything an actor has to say, its readiness first, once it has handled `news`. */
  ghost function Emitted(who: Source, news: seq<News>): seq<StatusUpdate> {
    if news == [] then [Ready]
    else
      var n := |news| - 1;
      Emitted(who, news[..n]) + Reaction(who, Values(news[..n]), news[n].body)
  }

  // ----- the actors' own state, edited by their handlers -----

  class DataCollectorActor {
    var dataPoints: seq<int>

    constructor ()
      ensures dataPoints == []
    {
      dataPoints := [];
    }

    method OnNewData(value: int) returns (updates: seq<StatusUpdate>)
      modifies this
      ensures dataPoints == old(dataPoints) + [value]
      ensures updates == [Updated(value)] == Reaction(DataCollector, old(dataPoints), NewData(value))
    {
      dataPoints := dataPoints + [value];
      updates := [Updated(value)];
    }

    method OnFinalize() returns (updates: seq<StatusUpdate>)
      ensures updates == [Finished] == Reaction(DataCollector, dataPoints, Finalize)
    {
      updates := [Finished];
    }
  }

  class AggregatorActor {
    var sum: int
    ghost var handled: seq<int>

    ghost predicate Valid()
      reads this
    {
      sum == RunningSum(handled)
    }

    constructor ()
      ensures Valid() && handled == []
    {
      sum, handled := 0, [];
    }

    method OnNewData(value: int) returns (updates: seq<StatusUpdate>)
      requires Valid()
      modifies this
      ensures Valid() && handled == old(handled) + [value]
      ensures updates == [Updated(Wrap(Sum(handled)))] == Reaction(Aggregator, old(handled), NewData(value))
    {
      RunningSumIsWrappedSum(handled + [value]);
      sum := Wrap(sum + value);
      handled := handled + [value];
      updates := [Updated(sum)];
    }

    method OnFinalize() returns (updates: seq<StatusUpdate>)
      requires Valid()
      ensures updates == [Done(Wrap(Sum(handled))), Finished] == Reaction(Aggregator, handled, Finalize)
    {
      RunningSumIsWrappedSum(handled);
      updates := [Done(sum), Finished];
    }
  }

  datatype PrinterState = PrinterState(finalSum: Option<int>, collectorsFinished: nat, waiting: bool)

  predicate RunComplete(p: PrinterState) {
    p.finalSum.Some? && p.collectorsFinished == COLLECTOR_COUNT
  }

  /** The printer after one inbox item, and the `FinalReport`s it sent while handling it. */
  function PrinterHandles(p: PrinterState, item: Item<Body, AwaitReport>): (PrinterState, seq<int>) {
    match item
    case Event(Note(_, Status(_, update))) =>
      var q := match update
        case Done(sum) => p.(finalSum := Some(sum))
        case Finished => p.(collectorsFinished := p.collectorsFinished + 1)
        case _ => p;
      if RunComplete(q) && q.waiting then (q.(waiting := false), [q.finalSum.value]) else (q, [])
    case Direct(AwaitReport) =>
      if RunComplete(p) then (p, [p.finalSum.value]) else (p.(waiting := true), [])
    case _ => (p, [])
  }

  class PrinterActor {
    var finalSum: Option<int>
    var collectorsFinished: nat
    var waiting: bool

    function State(): PrinterState
      reads this
    {
      PrinterState(finalSum, collectorsFinished, waiting)
    }

    constructor ()
      ensures State() == PrinterState(None, 0, false)
    {
      finalSum, collectorsFinished, waiting := None, 0, false;
    }

    method OnStatusUpdate(from: Source, update: StatusUpdate) returns (reports: seq<int>)
      modifies this
      ensures (State(), reports) == PrinterHandles(old(State()), Event(Note(STATUS, Status(from, update))))
    {
      match update {
        case Done(sum) => finalSum := Some(sum);
        case Finished => collectorsFinished := collectorsFinished + 1;
        case _ =>
      }
      if RunComplete(State()) && waiting {
        waiting := false;
        reports := [finalSum.value];
      } else {
        reports := [];
      }
    }

    method OnAwaitReport() returns (reports: seq<int>)
      modifies this
      ensures (State(), reports) == PrinterHandles(old(State()), Direct(AwaitReport))
    {
      if RunComplete(State()) {
        reports := [finalSum.value];
      } else {
        waiting := true;
        reports := [];
      }
    }
  }

  // ----- the whole program -----

  /** A running actor: whether it has started, and the updates its current handler has still to broadcast. */
  datatype Actor = Actor(started: bool, outgoing: seq<StatusUpdate>)

  datatype Program = Program(
    bus: Bus,
    done: nat,                    // how many of `main`'s operations have completed
    actors: map<Source, Actor>,
    printer: PrinterState,
    reports: seq<int>,
    asked: bool,
    offered: map<Source, seq<StatusUpdate>>   // every update each actor has handed to the broker's inbox
  )

  datatype MainOp = Publish(request: Request<Body>) | Start(who: Source)

  ghost function Subscriptions5(): seq<Request<Body>> {
    [Subscribe(NEW_DATA, HandleOf(DataCollector)), Subscribe(FINALIZE, HandleOf(DataCollector)),
     Subscribe(NEW_DATA, HandleOf(Aggregator)), Subscribe(FINALIZE, HandleOf(Aggregator)),
     Subscribe(STATUS, HandleOf(Printer))]
  }

  /** What `main` broadcasts: the data, then the marker that ends it. */
  ghost function MainNews(data: seq<int>): seq<News> {
    seq(|data|, i requires 0 <= i < |data| => Note(NEW_DATA, NewData(data[i]))) + [Note(FINALIZE, Finalize)]
  }

  /** `main`, in program order: subscribe, start the actors, broadcast the data, broadcast `Finalize`. */
  ghost function OpAt(data: seq<int>, i: nat): Option<MainOp> {
    if i < 5 then Some(Publish(Subscriptions5()[i]))
    else if i == 5 then Some(Start(DataCollector))
    else if i == 6 then Some(Start(Aggregator))
    else if i == 7 then Some(Start(Printer))
    else if i - 8 < |MainNews(data)| then
      Some(Publish(Broadcast(MainNews(data)[i - 8].ty, MainNews(data)[i - 8].body)))
    else None
  }

  datatype Step =
    | Bus(action: BusAction)   // the broker's own steps, and any inbox closing or being cancelled
    | MainStep
    | AskPrinter
    | Send(who: Source)        // an actor broadcasts the next update of its current handler
    | Take(who: Source)        // an actor dequeues and handles its next message

  /** The broker-protocol steps that belong to nobody in this program. */
  ghost predicate Foreign(a: BusAction) {
    !a.Offer? && !a.SendDirect? && !a.Receive?
  }

  /** A send to the broker: enqueued, or dropped by a closed inbox, or waiting for room. */
  ghost predicate SendEnds(bus: Bus) {
    !bus.open || Accepts(bus)
  }

  ghost function Offered(bus: Bus, r: Request<Body>): Bus {
    Next(bus, Offer(r))
  }

  ghost predicate CanTake(p: Program, who: Source) {
    && who in p.actors && p.actors[who].started && p.actors[who].outgoing == []
    && HandleOf(who) in p.bus.boxes
    && p.bus.boxes[HandleOf(who)].taken < |p.bus.boxes[HandleOf(who)].history|
  }

  /** The broadcasts an actor has handled so far. */
  ghost function Handled(p: Program, who: Source): seq<News> {
    if HandleOf(who) in p.bus.boxes && p.bus.boxes[HandleOf(who)].taken <= |p.bus.boxes[HandleOf(who)].history| then
      Events(p.bus.boxes[HandleOf(who)].history[..p.bus.boxes[HandleOf(who)].taken])
    else []
  }

  ghost function NextStep(data: seq<int>, p: Program, step: Step): Program {
    match step
    case Bus(a) => if Foreign(a) then p.(bus := Next(p.bus, a)) else p
    case MainStep =>
      (match OpAt(data, p.done)
       case Some(Publish(r)) =>
         if SendEnds(p.bus) then p.(bus := Offered(p.bus, r), done := p.done + 1) else p
       case Some(Start(who)) =>
         p.(actors := p.actors[who := Actor(true, [Ready])], done := p.done + 1)
       case None => p)
    case AskPrinter =>
      var h := HandleOf(Printer);
      if p.asked || (h in p.bus.boxes && p.bus.boxes[h].open && !p.bus.boxes[h].HasRoom()) then p
      else p.(bus := Next(p.bus, SendDirect(h, Direct(AwaitReport))), asked := true)
    case Send(who) =>
      if who in p.actors && who in p.offered && p.actors[who].outgoing != [] && SendEnds(p.bus) then
        var update := p.actors[who].outgoing[0];
        p.(bus := Offered(p.bus, Broadcast(STATUS, Status(who, update))),
           actors := p.actors[who := p.actors[who].(outgoing := p.actors[who].outgoing[1..])],
           offered := p.offered[who := p.offered[who] + [update]])
      else p
    case Take(who) =>
      if CanTake(p, who) then
        var box := p.bus.boxes[HandleOf(who)];
        var item := box.history[box.taken];
        var q := p.(bus := Next(p.bus, Receive(HandleOf(who))));
        if who.Printer? then
          var (printer, sent) := PrinterHandles(p.printer, item);
          q.(printer := printer, reports := p.reports + sent)
        else if item.Event? then
          q.(actors := p.actors[who := Actor(true, Reaction(who, Values(Handled(p, who)), item.note.body))])
        else q
      else p
  }

  ghost predicate Begins(p: Program) {
    && Initial(p.bus)
    && p.done == 0 && p.reports == [] && !p.asked && p.printer == PrinterState(None, 0, false)
    && (forall who: Source :: who in p.actors && p.actors[who] == Actor(false, []))
    && (forall who: Source :: who in p.offered && p.offered[who] == [])
  }

  ghost function Execute(data: seq<int>, p: Program, steps: seq<Step>): Program {
    if steps == [] then p
    else NextStep(data, Execute(data, p, steps[..|steps| - 1]), steps[|steps| - 1])
  }
}
