/** The invariant of the whole broadcast example, and what it says about the report. */
module PipelineResults {
  import opened Wrappers
  import opened Subscriptions
  import opened BrokerProtocol
  import opened Pipeline
  import opened PipelineProof

  // ----- the invariant -----

  /** How many of `main`'s broadcasts have been issued. */
  ghost function Issued(done: nat): nat {
    if done < 8 then 0 else done - 8
  }

  /** What `main` has put in the broker's inbox: its operations in order, all of them unless the inbox closed. */
  ghost predicate MainInv(data: seq<int>, accepted: seq<Request<Body>>, open: bool, done: nat) {
    var news := Select(Broadcasts(accepted), false);
    && Shaped(accepted)
    && Issued(done) <= |MainNews(data)|
    && news <= MainNews(data)[..Issued(done)]
    && (open ==>
          && news == MainNews(data)[..Issued(done)]
          && (if done < 5 then |accepted| == done else |accepted| >= 5))
  }

  ghost function StartsAt(who: Source): nat {
    match who
    case DataCollector => 5
    case Aggregator => 6
    case Printer => 7
  }

  /**
   An actor that has started has broadcast, or will before its next message, exactly what it
   owes for the messages handled; `heard` is what of it the broker's inbox has accepted.
   */
  ghost predicate KeepsUp(who: Source, actor: Actor, offered: seq<StatusUpdate>, heard: seq<StatusUpdate>,
                          handled: seq<News>, open: bool, done: nat)
  {
    && (actor.started <==> done > StartsAt(who))
    && (if actor.started then offered + actor.outgoing == Emitted(who, handled)
        else offered == [] && actor.outgoing == [] && handled == [])
    && heard <= offered
    && (open ==> heard == offered)
  }

  ghost predicate ActorInv(p: Program, who: Source)
    requires who in p.actors && who in p.offered
  {
    KeepsUp(who, p.actors[who], p.offered[who], From(Broadcasts(p.bus.accepted), who), Handled(p, who), p.bus.open, p.done)
  }

  ghost predicate ProgramInv(data: seq<int>, p: Program) {
    && Inv(p.bus)
    && (forall who: Source :: who in p.actors && who in p.offered)
    && MainInv(data, p.bus.accepted, p.bus.open, p.done)
    && (forall who: Source :: ActorInv(p, who))
    && (p.printer.collectorsFinished, p.printer.finalSum) == Tally(Handled(p, Printer))
  }

  // ----- what the invariant implies -----

  lemma TakenIsPrefix(bus: Bus, h: Handle)
    requires Inv(bus) && h in bus.boxes
    ensures bus.boxes[h].taken <= |bus.boxes[h].history|
    ensures Events(bus.boxes[h].history[..bus.boxes[h].taken]) <= Projection(bus.accepted, h)
  {
    assert BoxInv(bus, h);
    var box := bus.boxes[h];
    assert box.history == box.history[..box.taken] + box.history[box.taken..];
    EventsAppend(box.history[..box.taken], box.history[box.taken..]);
    BoxHasItsProjection(bus, h);
    ProjectionGrows(bus.accepted, bus.taken, h);
  }

  /** What an actor has handled is a prefix of what the broker's order holds for it. */
  lemma HandledIsPrefix(data: seq<int>, p: Program, who: Source)
    requires ProgramInv(data, p)
    ensures Handled(p, who) <= Select(Broadcasts(p.bus.accepted), who.Printer?)
  {
    if HandleOf(who) in p.bus.boxes {
      TakenIsPrefix(p.bus, HandleOf(who));
      ProjectionOfShaped(p.bus.accepted, who);
    }
  }

  /** What a collector has said, as accepted by the broker, is a prefix of everything it will ever say. */
  lemma AcceptedIsPrefix(data: seq<int>, p: Program, who: Source)
    requires ProgramInv(data, p)
    ensures From(Broadcasts(p.bus.accepted), who) <= Emitted(who, MainNews(data))
  {
    hide Inv, Tally, Broadcasts, From, Handled, Emitted, Select, Shaped;
    assert ActorInv(p, who);
    if !p.actors[who].started {
    } else if who.Printer? {
      DonesAreTheAggregators(who, Handled(p, who));
      DonesAreTheAggregators(who, MainNews(data));
    } else {
      HandledIsPrefix(data, p, who);
      EmittedGrows(who, Handled(p, who), MainNews(data));
    }
  }

  /** What the printer has handled from `who` is a prefix of everything `who` will ever broadcast. */
  lemma HeardIsPrefix(data: seq<int>, p: Program, who: Source)
    requires ProgramInv(data, p)
    ensures From(Handled(p, Printer), who) <= Emitted(who, MainNews(data))
  {
    var all := Broadcasts(p.bus.accepted);
    HandledIsPrefix(data, p, Printer);
    FromGrows(Handled(p, Printer), Select(all, true), who);
    ProjectionOfShaped(p.bus.accepted, who);
    SelectedStatuses(all, who);
    AcceptedIsPrefix(data, p, who);
  }

  lemma {:induction false} SelectedAreStatuses(news: seq<News>)
    requires forall i | 0 <= i < |news| :: WellTyped(news[i])
    ensures forall i | 0 <= i < |Select(news, true)| :: Select(news, true)[i].body.Status?
  {
    if news != [] {
      SelectedAreStatuses(news[..|news| - 1]);
    }
  }

  lemma HandledStatuses(data: seq<int>, p: Program, i: nat)
    requires ProgramInv(data, p) && i < |Handled(p, Printer)|
    ensures var body := Handled(p, Printer)[i].body;
            body.Status? && (body.update.Done? ==> body.from.Aggregator?)
  {
    var all := Broadcasts(p.bus.accepted);
    var news := Handled(p, Printer);
    HandledIsPrefix(data, p, Printer);
    ProjectionOfShaped(p.bus.accepted, Printer);
    SelectedAreStatuses(all);
    assert news[i] == Select(all, true)[i];
    var who := news[i].body.from;
    FromContains(news, i);
    HeardIsPrefix(data, p, who);
    if who != Aggregator {
      DonesAreTheAggregators(who, MainNews(data));
    }
  }

  /**
   Two `Finished` are the whole story: whenever the printer has counted two, it has handled
   every update of both collectors, `Done` among them, and it never counts a third.
   */
  lemma TwoFinishedMeanDrained(data: seq<int>, p: Program)
    requires ProgramInv(data, p)
    ensures p.printer.collectorsFinished <= COLLECTOR_COUNT
    ensures p.printer.collectorsFinished == COLLECTOR_COUNT ==>
              && From(Handled(p, Printer), DataCollector) == Emitted(DataCollector, MainNews(data))
              && From(Handled(p, Printer), Aggregator) == Emitted(Aggregator, MainNews(data))
              && p.printer.finalSum == Some(RunningSum(data))
  {
    var news := Handled(p, Printer);
    forall i | 0 <= i < |news|
      ensures news[i].body.Status? && (news[i].body.update.Done? ==> news[i].body.from.Aggregator?)
    {
      HandledStatuses(data, p, i);
    }
    TallyBySource(news);
    HeardIsPrefix(data, p, DataCollector);
    HeardIsPrefix(data, p, Aggregator);
    HeardIsPrefix(data, p, Printer);
    EmittedInFull(DataCollector, data);
    EmittedInFull(Aggregator, data);
    FinishedMeansAll(From(news, DataCollector), Emitted(DataCollector, MainNews(data)));
    FinishedMeansAll(From(news, Aggregator), Emitted(Aggregator, MainNews(data)));
    DonesAreTheAggregators(Printer, MainNews(data));
    forall i | 0 <= i < |From(news, Printer)| ensures !From(news, Printer)[i].Finished? {
      assert From(news, Printer)[i] == Emitted(Printer, MainNews(data))[i];
    }
    NoFinished(From(news, Printer));
  }

  // ----- the invariant is kept -----

  lemma BeginsInv(data: seq<int>, p: Program)
    requires Begins(p)
    ensures ProgramInv(data, p)
  {
    InitialInv(p.bus);
    forall who: Source ensures ActorInv(p, who) {
    }
  }

  /** Inboxes that only grow leave what has been handled as it was. */
  lemma HandledStable(p: Program, q: Program, who: Source)
    requires Inv(p.bus)
    requires q.bus.boxes.Keys == p.bus.boxes.Keys
    requires var h := HandleOf(who);
      h in p.bus.boxes ==> q.bus.boxes[h].taken == p.bus.boxes[h].taken
                           && p.bus.boxes[h].history <= q.bus.boxes[h].history
    ensures Handled(q, who) == Handled(p, who)
  {
    var h := HandleOf(who);
    if h in p.bus.boxes {
      assert BoxInv(p.bus, h);
      var n := p.bus.boxes[h].taken;
      assert q.bus.boxes[h].history[..n] == p.bus.boxes[h].history[..n];
    }
  }

  lemma TalliesKept(data: seq<int>, p: Program, q: Program)
    requires ProgramInv(data, p)
    requires q.printer == p.printer && Handled(q, Printer) == Handled(p, Printer)
    ensures (q.printer.collectorsFinished, q.printer.finalSum) == Tally(Handled(q, Printer))
  {
  }

  /** A step of the broker or of an inbox that takes nothing and offers nothing. */
  lemma BusStep(data: seq<int>, p: Program, a: BusAction)
    requires ProgramInv(data, p) && !a.Offer? && !a.Receive?
    ensures ProgramInv(data, p.(bus := Next(p.bus, a)))
  {
    var q := p.(bus := Next(p.bus, a));
    StepKeepsInv(p.bus, a);
    OffersNothing(p.bus, a);
    forall who: Source
      ensures Handled(q, who) == Handled(p, who) && ActorInv(q, who)
    {
      HandledStable(p, q, who);
      assert ActorInv(p, who);
    }
    TalliesKept(data, p, q);
  }

  lemma OffersNothing(s: Bus, a: BusAction)
    requires !a.Offer? && !a.Receive?
    ensures Next(s, a).accepted == s.accepted && (Next(s, a).open ==> s.open)
    ensures Next(s, a).boxes.Keys == s.boxes.Keys
    ensures forall h | h in s.boxes :: Next(s, a).boxes[h].taken == s.boxes[h].taken
                                    && s.boxes[h].history <= Next(s, a).boxes[h].history
  {
    hide Next;
    HistoriesGrow(s, a);
    BrokerOffersNothing(s, a);
    forall h | h in s.boxes ensures Next(s, a).boxes[h].taken == s.boxes[h].taken {
      BoxGrows(s, a, h);
    }
  }

  lemma BrokerOffersNothing(s: Bus, a: BusAction)
    requires !a.Offer?
    ensures Next(s, a).accepted == s.accepted && (Next(s, a).open ==> s.open)
  {
    hide Begin, Apply;
  }

  lemma BroadcastsSnoc(accepted: seq<Request<Body>>, r: Request<Body>, who: Source)
    ensures var now, was := Broadcasts(accepted + [r]), Broadcasts(accepted);
      if r.Broadcast? then
        var note := Note(r.ty, r.body);
        && From(now, who) == From(was, who) + (if note.body.Status? && note.body.from == who then [note.body.update] else [])
        && Select(now, false) == Select(was, false) + if note.ty == STATUS then [] else [note]
      else now == was
  {
    assert (accepted + [r])[..|accepted|] == accepted;
    var was := Broadcasts(accepted);
    if r.Broadcast? {
      var note := Note(r.ty, r.body);
      assert Broadcasts(accepted + [r]) == was + [note];
      assert (was + [note])[..|was|] == was;
    }
  }

  lemma MainPublishes(data: seq<int>, p: Program, r: Request<Body>)
    requires ProgramInv(data, p) && SendEnds(p.bus)
    requires OpAt(data, p.done) == Some(Publish(r))
    ensures ProgramInv(data, p.(bus := Offered(p.bus, r), done := p.done + 1))
  {
    hide Inv, KeepsUp, Tally, Handled;
    var q := p.(bus := Offered(p.bus, r), done := p.done + 1);
    StepKeepsInv(p.bus, Offer(r));
    PublishedIsNoStatus(data, p.done, r);
    MainIssues(data, p.bus.accepted, p.bus.open, p.done, r);
    forall who: Source
      ensures Handled(q, who) == Handled(p, who) && ActorInv(q, who)
    {
      PublishKeepsActor(p, q, r, who);
    }
    TalliesKept(data, p, q);
  }

  /** `main`'s own sends and operations leave an actor that is not being started where it was. */
  lemma PublishKeepsActor(p: Program, q: Program, r: Request<Body>, who: Source)
    requires Inv(p.bus) && who in p.actors && who in p.offered && ActorInv(p, who)
    requires q == p.(bus := Offered(p.bus, r), done := p.done + 1)
    requires r.Broadcast? ==> !r.body.Status?
    requires p.done != StartsAt(who)
    ensures Handled(q, who) == Handled(p, who) && ActorInv(q, who)
  {
    hide Emitted, Inv, Handled, KeepsUp, Broadcasts, From;
    HandledStable(p, q, who);
    BroadcastsSnoc(p.bus.accepted, r, who);
    var was := From(Broadcasts(p.bus.accepted), who);
    assert was + [] == was;
    KeepsUpIssuing(who, p.actors[who], p.offered[who], was, Handled(p, who), p.bus.open, p.done);
  }

  lemma KeepsUpIssuing(who: Source, actor: Actor, offered: seq<StatusUpdate>, heard: seq<StatusUpdate>,
                       handled: seq<News>, open: bool, done: nat)
    requires KeepsUp(who, actor, offered, heard, handled, open, done) && done != StartsAt(who)
    ensures KeepsUp(who, actor, offered, heard, handled, open, done + 1)
  {
    hide Emitted;
  }

  lemma PublishedIsNoStatus(data: seq<int>, i: nat, r: Request<Body>)
    requires OpAt(data, i) == Some(Publish(r))
    ensures r.Broadcast? ==> WellTyped(Note(r.ty, r.body)) && r.ty != STATUS
    ensures i < 5 ==> r == Subscriptions5()[i]
    ensures i >= 5 ==> i >= 8 && r.Broadcast? && i - 8 < |MainNews(data)| && MainNews(data)[i - 8] == Note(r.ty, r.body)
  {
  }

  lemma MainIssues(data: seq<int>, accepted: seq<Request<Body>>, open: bool, done: nat, r: Request<Body>)
    requires MainInv(data, accepted, open, done)
    requires OpAt(data, done) == Some(Publish(r))
    ensures open ==> MainInv(data, accepted + [r], open, done + 1)
    ensures !open ==> MainInv(data, accepted, open, done + 1)
  {
    hide OpAt, From, Select, Broadcasts, Shaped, MainNews;
    PublishedIsNoStatus(data, done, r);
    var m := MainNews(data);
    assert m[..Issued(done)] <= m[..Issued(done + 1)];
    if open {
      ShapedSnoc(accepted, r);
      NewsSnoc(accepted, r, m, done);
    }
  }

  lemma NewsSnoc(accepted: seq<Request<Body>>, r: Request<Body>, m: seq<News>, done: nat)
    requires Issued(done) <= |m| && Select(Broadcasts(accepted), false) == m[..Issued(done)]
    requires if done < 5 then !r.Broadcast? else done >= 8 && done - 8 < |m|
    requires done >= 8 ==> r.Broadcast? && m[done - 8] == Note(r.ty, r.body) && r.ty != STATUS
    ensures Issued(done + 1) <= |m| && Select(Broadcasts(accepted + [r]), false) == m[..Issued(done + 1)]
  {
    hide Select, Broadcasts;
    BroadcastsSnoc(accepted, r, Printer);
    if done >= 8 {
      assert m[..done - 7] == m[..done - 8] + [m[done - 8]];
    }
  }

  lemma ShapedSnoc(accepted: seq<Request<Body>>, r: Request<Body>)
    requires Shaped(accepted)
    requires if |accepted| < 5 then r == Subscriptions5()[|accepted|] else r.Broadcast? && WellTyped(Note(r.ty, r.body))
    ensures Shaped(accepted + [r])
  {
  }

  lemma MainStarts(data: seq<int>, p: Program, started: Source)
    requires ProgramInv(data, p)
    requires OpAt(data, p.done) == Some(Start(started))
    ensures ProgramInv(data, NextStep(data, p, MainStep))
  {
    hide Inv, Tally, MainNews, Select, Broadcasts, From;
    var q := NextStep(data, p, MainStep);
    assert p.done == StartsAt(started) && Issued(q.done) == 0;
    forall who: Source
      ensures Handled(q, who) == Handled(p, who) && ActorInv(q, who)
    {
      HandledStable(p, q, who);
      assert ActorInv(p, who);
    }
    TalliesKept(data, p, q);
  }

  lemma StatusAccepted(data: seq<int>, accepted: seq<Request<Body>>, open: bool, done: nat, who: Source, u: StatusUpdate)
    requires MainInv(data, accepted, open, done) && open && done > 5
    ensures MainInv(data, accepted + [Broadcast(STATUS, Status(who, u))], open, done)
  {
    BroadcastsSnoc(accepted, Broadcast(STATUS, Status(who, u)), who);
  }

  lemma ActorSends(data: seq<int>, p: Program, who: Source)
    requires ProgramInv(data, p)
    requires p.actors[who].outgoing != [] && SendEnds(p.bus)
    ensures ProgramInv(data, NextStep(data, p, Send(who)))
  {
    hide Inv, Tally, Emitted, Handled, From;
    var q := NextStep(data, p, Send(who));
    var u := p.actors[who].outgoing[0];
    var r := Broadcast(STATUS, Status(who, u));
    assert ActorInv(p, who);
    StepKeepsInv(p.bus, Offer(r));
    if p.bus.open {
      StatusAccepted(data, p.bus.accepted, p.bus.open, p.done, who, u);
    }
    forall other: Source
      ensures Handled(q, other) == Handled(p, other) && ActorInv(q, other)
    {
      SendKeepsActor(p, q, who, other);
    }
    TalliesKept(data, p, q);
  }

  /** Moving one update from what is still to be said to what has been said. */
  lemma KeepsUpSending(who: Source, actor: Actor, offered: seq<StatusUpdate>, heard: seq<StatusUpdate>,
                       handled: seq<News>, open: bool, done: nat)
    requires KeepsUp(who, actor, offered, heard, handled, open, done) && actor.outgoing != []
    ensures var u := actor.outgoing[0];
      KeepsUp(who, actor.(outgoing := actor.outgoing[1..]), offered + [u], if open then heard + [u] else heard,
              handled, open, done)
  {
    hide Emitted;
    var u := actor.outgoing[0];
    assert (offered + [u]) + actor.outgoing[1..] == offered + actor.outgoing;
  }

  lemma SendKeepsActor(p: Program, q: Program, who: Source, other: Source)
    requires Inv(p.bus) && who in p.actors && who in p.offered && p.actors[who].outgoing != [] && SendEnds(p.bus)
    requires other in p.actors && other in p.offered && ActorInv(p, other)
    requires var actor := p.actors[who];
      var u := actor.outgoing[0];
      q == p.(bus := Offered(p.bus, Broadcast(STATUS, Status(who, u))),
              actors := p.actors[who := actor.(outgoing := actor.outgoing[1..])],
              offered := p.offered[who := p.offered[who] + [u]])
    ensures Handled(q, other) == Handled(p, other) && ActorInv(q, other)
  {
    hide Inv, Emitted, Handled, KeepsUp, Broadcasts, From;
    HandledStable(p, q, other);
    var u := p.actors[who].outgoing[0];
    BroadcastsSnoc(p.bus.accepted, Broadcast(STATUS, Status(who, u)), other);
    var was := From(Broadcasts(p.bus.accepted), other);
    assert was + [] == was;
    if other == who {
      KeepsUpSending(who, p.actors[who], p.offered[who], was, Handled(p, who), p.bus.open, p.done);
    }
  }

  /** Handling the next item of an inbox adds its broadcast, if it is one, to what has been handled. */
  lemma TakeHandles(p: Program, q: Program, who: Source)
    requires Inv(p.bus) && CanTake(p, who)
    requires q.bus == Next(p.bus, Receive(HandleOf(who)))
    ensures var box := p.bus.boxes[HandleOf(who)];
      var item := box.history[box.taken];
      Handled(q, who) == Handled(p, who) + if item.Event? then [item.note] else []
    ensures forall other: Source :: other != who ==> Handled(q, other) == Handled(p, other)
  {
    hide Inv, Handled, Events;
    OwnItemHandled(p, q, who);
    forall other: Source | other != who ensures Handled(q, other) == Handled(p, other) {
      assert HandleOf(other) != HandleOf(who);
      HandledStable(p, q, other);
    }
  }

  lemma OwnItemHandled(p: Program, q: Program, who: Source)
    requires Inv(p.bus) && CanTake(p, who)
    requires q.bus == Next(p.bus, Receive(HandleOf(who)))
    ensures var box := p.bus.boxes[HandleOf(who)];
      var item := box.history[box.taken];
      Handled(q, who) == Handled(p, who) + if item.Event? then [item.note] else []
  {
    hide Projection, TableAfter, AnsweredInv, Begin, Apply;
    var box := p.bus.boxes[HandleOf(who)];
    assert BoxInv(p.bus, HandleOf(who));
    assert box.history[..box.taken + 1] == box.history[..box.taken] + [box.history[box.taken]];
    EventsAppend(box.history[..box.taken], [box.history[box.taken]]);
    assert Events(box.history[box.taken..box.taken + 1][..0]) == [];
  }

  /** Handling a broadcast turns into the updates now owed for it. */
  lemma KeepsUpTaking(who: Source, actor: Actor, offered: seq<StatusUpdate>, heard: seq<StatusUpdate>,
                      handled: seq<News>, open: bool, done: nat, note: News)
    requires KeepsUp(who, actor, offered, heard, handled, open, done) && actor.started && actor.outgoing == []
    ensures KeepsUp(who, Actor(true, Reaction(who, Values(handled), note.body)), offered, heard,
                    handled + [note], open, done)
  {
    EmittedSnoc(who, handled, note);
    assert offered + [] == offered;
  }

  lemma CollectorTakes(data: seq<int>, p: Program, who: Source)
    requires ProgramInv(data, p) && CanTake(p, who) && !who.Printer?
    ensures ProgramInv(data, NextStep(data, p, Take(who)))
  {
    hide Inv, KeepsUp, MainInv, Tally, Reaction, Values, Events, Broadcasts, From;
    var q := NextStep(data, p, Take(who));
    StepKeepsInv(p.bus, Receive(HandleOf(who)));
    TakeHandles(p, q, who);
    forall other: Source ensures ActorInv(q, other) {
      TakeKeepsActor(p, q, who, other);
    }
    TalliesKept(data, p, q);
  }

  lemma TakeKeepsActor(p: Program, q: Program, who: Source, other: Source)
    requires Inv(p.bus) && CanTake(p, who) && other in p.actors && other in p.offered && ActorInv(p, other)
    requires q.bus == Next(p.bus, Receive(HandleOf(who))) && q.done == p.done && q.offered == p.offered
    requires var item := p.bus.boxes[HandleOf(who)].history[p.bus.boxes[HandleOf(who)].taken];
      q.actors == if item.Event?
                  then p.actors[who := Actor(true, Reaction(who, Values(Handled(p, who)), item.note.body))] else p.actors
    ensures ActorInv(q, other)
  {
    hide Inv, Reaction, Emitted, Broadcasts, From, Values;
    TakeHandles(p, q, who);
    if other == who {
      var item := p.bus.boxes[HandleOf(who)].history[p.bus.boxes[HandleOf(who)].taken];
      if item.Event? {
        KeepsUpTaking(who, p.actors[who], p.offered[who], From(Broadcasts(p.bus.accepted), who), Handled(p, who),
                      p.bus.open, p.done, item.note);
      } else {
        assert Handled(p, who) + [] == Handled(p, who);
      }
    }
  }

  lemma TallySnoc(news: seq<News>, note: News)
    ensures var (count, sum) := Tally(news);
      Tally(news + [note]) ==
        match note.body {
          case Status(_, Finished) => (count + 1, sum)
          case Status(_, Done(s)) => (count, Some(s))
          case _ => (count, sum)
        }
  {
    assert (news + [note])[..|news|] == news;
  }

  lemma PrinterTakes(data: seq<int>, p: Program)
    requires ProgramInv(data, p) && CanTake(p, Printer)
    ensures ProgramInv(data, NextStep(data, p, Take(Printer)))
  {
    var q := NextStep(data, p, Take(Printer));
    StepKeepsInv(p.bus, Receive(HandleOf(Printer)));
    TakeHandles(p, q, Printer);
    var item := p.bus.boxes[HandleOf(Printer)].history[p.bus.boxes[HandleOf(Printer)].taken];
    assert p.actors[Printer] == Actor(true, []);
    assert p.actors[Printer := Actor(true, [])] == p.actors;
    forall other: Source ensures ActorInv(q, other) {
      TakeKeepsActor(p, q, Printer, other);
    }
    PrinterTallies(p.printer, Handled(p, Printer), item);
  }

  /** The handler's bookkeeping is the tally of what has been handled. */
  lemma PrinterTallies(printer: PrinterState, handled: seq<News>, item: Item<Body, AwaitReport>)
    requires (printer.collectorsFinished, printer.finalSum) == Tally(handled)
    ensures var q := PrinterHandles(printer, item).0;
      (q.collectorsFinished, q.finalSum) == Tally(handled + if item.Event? then [item.note] else [])
  {
    if item.Event? {
      TallySnoc(handled, item.note);
    } else {
      assert handled + [] == handled;
    }
  }

  lemma StepKeepsProgram(data: seq<int>, p: Program, step: Step)
    requires ProgramInv(data, p)
    ensures ProgramInv(data, NextStep(data, p, step))
  {
    match step
    case Bus(a) => if Foreign(a) { BusStep(data, p, a); }
    case MainStep =>
      match OpAt(data, p.done) {
        case Some(Publish(r)) => if SendEnds(p.bus) { MainPublishes(data, p, r); }
        case Some(Start(who)) => MainStarts(data, p, who);
        case None =>
      }
    case AskPrinter => AskKeepsProgram(data, p);
    case Send(who) => if p.actors[who].outgoing != [] && SendEnds(p.bus) { ActorSends(data, p, who); }
    case Take(who) =>
      if CanTake(p, who) {
        if who.Printer? { PrinterTakes(data, p); } else { CollectorTakes(data, p, who); }
      }
  }

  lemma AskKeepsProgram(data: seq<int>, p: Program)
    requires ProgramInv(data, p)
    ensures ProgramInv(data, NextStep(data, p, AskPrinter))
  {
    var q := p.(bus := Next(p.bus, SendDirect(HandleOf(Printer), Direct(AwaitReport))));
    BusStep(data, p, SendDirect(HandleOf(Printer), Direct(AwaitReport)));
    var r := q.(asked := true);
    forall who: Source
      ensures Handled(r, who) == Handled(q, who) && ActorInv(r, who)
    {
      assert ActorInv(q, who);
    }
  }

  // ----- the report -----

  ghost function Requests(history: seq<Item<Body, AwaitReport>>): nat {
    if history == [] then 0
    else Requests(history[..|history| - 1]) + if history[|history| - 1].Direct? then 1 else 0
  }

  ghost predicate ReportInv(data: seq<int>, p: Program) {
    var h := HandleOf(Printer);
    && (h in p.bus.boxes ==>
          var box := p.bus.boxes[h];
          && box.taken <= |box.history|
          && Requests(box.history) <= (if p.asked then 1 else 0)
          && |p.reports| + (if p.printer.waiting then 1 else 0) == Requests(box.history[..box.taken]))
    && (RunComplete(p.printer) ==> !p.printer.waiting)
    && (h !in p.bus.boxes ==> p.reports == [] && !p.printer.waiting)
    && (forall r | r in p.reports :: RunComplete(p.printer) && r == RunningSum(data))
  }

  lemma {:induction false} RequestsAppend(a: seq<Item<Body, AwaitReport>>, b: seq<Item<Body, AwaitReport>>)
    ensures Requests(a + b) == Requests(a) + Requests(b)
  {
    if b == [] {
      assert a + b == a;
    } else {
      var n := |b| - 1;
      assert (a + b)[..|a| + n] == a + b[..n];
      RequestsAppend(a, b[..n]);
    }
  }

  /** An inbox that gains no request, and from which none is taken, changes nothing about the report. */
  lemma ReportFrame(data: seq<int>, p: Program, q: Program)
    requires ReportInv(data, p)
    requires q.reports == p.reports && q.printer == p.printer && q.asked == p.asked
    requires q.bus.boxes.Keys == p.bus.boxes.Keys
    requires var h := HandleOf(Printer);
      h in p.bus.boxes ==>
        && q.bus.boxes[h].taken == p.bus.boxes[h].taken
        && p.bus.boxes[h].history <= q.bus.boxes[h].history
        && Requests(q.bus.boxes[h].history) == Requests(p.bus.boxes[h].history)
    ensures ReportInv(data, q)
  {
    var h := HandleOf(Printer);
    if h in p.bus.boxes {
      var n := p.bus.boxes[h].taken;
      assert q.bus.boxes[h].history[..n] == p.bus.boxes[h].history[..n];
    }
  }

  lemma ForeignAsksNothing(bus: Bus, a: BusAction, h: Handle)
    requires Foreign(a) && h in bus.boxes
    ensures h in Next(bus, a).boxes && Requests(Next(bus, a).boxes[h].history) == Requests(bus.boxes[h].history)
  {
    if a.Push? && Pending(bus, h) {
      RequestsAppend(bus.boxes[h].history, [Event(bus.busy.note)]);
      assert Requests([Event(bus.busy.note)]) == 0;
    }
  }

  lemma AskKeepsReport(data: seq<int>, p: Program)
    requires ReportInv(data, p)
    ensures ReportInv(data, NextStep(data, p, AskPrinter))
  {
    var h := HandleOf(Printer);
    if h in p.bus.boxes && !p.asked {
      var box := p.bus.boxes[h];
      RequestsAppend(box.history, [Direct(AwaitReport)]);
      assert Requests([Direct(AwaitReport)]) == 1;
      assert (box.history + [Direct(AwaitReport)])[..box.taken] == box.history[..box.taken];
    }
  }

  lemma RequestTaken(history: seq<Item<Body, AwaitReport>>, taken: nat)
    requires taken < |history|
    ensures Requests(history[..taken + 1]) == Requests(history[..taken]) + if history[taken].Direct? then 1 else 0
  {
    assert history[..taken + 1][..taken] == history[..taken];
  }

  /** Once a report has been sent the printer's answer no longer changes. */
  lemma ReportsStand(data: seq<int>, p: Program, q: Program, item: Item<Body, AwaitReport>)
    requires ProgramInv(data, p) && ProgramInv(data, q)
    requires q.printer == PrinterHandles(p.printer, item).0
    ensures RunComplete(p.printer) ==> RunComplete(q.printer)
    ensures RunComplete(q.printer) ==> q.printer.finalSum == Some(RunningSum(data))
  {
    TwoFinishedMeanDrained(data, p);
    TwoFinishedMeanDrained(data, q);
    FinishedOnlyGrow(p.printer, item);
  }

  /** Taking the next item: a report goes out only for a request taken, and only once everything has drained. */
  lemma PrinterKeepsReport(data: seq<int>, p: Program)
    requires ProgramInv(data, p) && ReportInv(data, p) && CanTake(p, Printer)
    ensures ReportInv(data, NextStep(data, p, Take(Printer)))
  {
    hide ProgramInv, Reaction, Values, Handled, PrinterHandles, RunComplete;
    var q := NextStep(data, p, Take(Printer));
    var box := p.bus.boxes[HandleOf(Printer)];
    var item := box.history[box.taken];
    PrinterTakes(data, p);
    ReportsStand(data, p, q, item);
    RequestTaken(box.history, box.taken);
    RequestsAppend(box.history[..box.taken + 1], box.history[box.taken + 1..]);
    assert box.history == box.history[..box.taken + 1] + box.history[box.taken + 1..];
    PrinterCounts(p.printer, item);
    var sent := PrinterHandles(p.printer, item).1;
    assert q.reports == p.reports + sent;
    assert q.bus.boxes[HandleOf(Printer)].history == box.history;
    assert q.bus.boxes[HandleOf(Printer)].taken == box.taken + 1;
  }

  /** A request taken is either answered or waiting, and none waits once the run is complete. */
  lemma PrinterCounts(printer: PrinterState, item: Item<Body, AwaitReport>)
    requires !(printer.waiting && item.Direct?) && (RunComplete(printer) ==> !printer.waiting)
    ensures var (q, sent) := PrinterHandles(printer, item);
      && |sent| + (if q.waiting then 1 else 0)
           == (if printer.waiting then 1 else 0) + (if item.Direct? then 1 else 0)
      && (RunComplete(q) ==> !q.waiting)
      && forall r | r in sent :: RunComplete(q) && q.finalSum == Some(r)
  {
  }

  lemma FinishedOnlyGrow(printer: PrinterState, item: Item<Body, AwaitReport>)
    ensures var q := PrinterHandles(printer, item).0;
      q.collectorsFinished >= printer.collectorsFinished && (printer.finalSum.Some? ==> q.finalSum.Some?)
  {
  }

  lemma BusKeepsReport(data: seq<int>, p: Program, a: BusAction)
    requires ReportInv(data, p) && Foreign(a)
    ensures ReportInv(data, p.(bus := Next(p.bus, a)))
  {
    OffersNothing(p.bus, a);
    if HandleOf(Printer) in p.bus.boxes { ForeignAsksNothing(p.bus, a, HandleOf(Printer)); }
    ReportFrame(data, p, p.(bus := Next(p.bus, a)));
  }

  lemma OfferKeepsReport(data: seq<int>, p: Program, q: Program)
    requires ReportInv(data, p)
    requires q.bus.boxes == p.bus.boxes && q.reports == p.reports && q.printer == p.printer && q.asked == p.asked
    ensures ReportInv(data, q)
  {
    ReportFrame(data, p, q);
  }

  lemma CollectorKeepsReport(data: seq<int>, p: Program, who: Source)
    requires ReportInv(data, p) && CanTake(p, who) && !who.Printer?
    ensures ReportInv(data, NextStep(data, p, Take(who)))
  {
    assert HandleOf(who) != HandleOf(Printer);
    var q := NextStep(data, p, Take(who));
    assert q.bus == Next(p.bus, Receive(HandleOf(who)));
    ReportFrame(data, p, q);
  }

  lemma StepKeepsReport(data: seq<int>, p: Program, step: Step)
    requires ProgramInv(data, p) && ReportInv(data, p)
    ensures ReportInv(data, NextStep(data, p, step))
  {
    hide ProgramInv, ReportInv, PrinterHandles, Reaction, Values, Handled, RunComplete;
    match step
    case Bus(a) => if Foreign(a) { BusKeepsReport(data, p, a); }
    case MainStep => OfferKeepsReport(data, p, NextStep(data, p, step));
    case AskPrinter => AskKeepsReport(data, p);
    case Send(_) => OfferKeepsReport(data, p, NextStep(data, p, step));
    case Take(who) =>
      if CanTake(p, who) {
        if who.Printer? { PrinterKeepsReport(data, p); } else { CollectorKeepsReport(data, p, who); }
      }
  }

  lemma {:induction false} ExecutionKeepsInv(data: seq<int>, p: Program, steps: seq<Step>)
    requires Begins(p)
    ensures ProgramInv(data, Execute(data, p, steps)) && ReportInv(data, Execute(data, p, steps))
  {
    if steps == [] {
      BeginsInv(data, p);
    } else {
      var was := Execute(data, p, steps[..|steps| - 1]);
      ExecutionKeepsInv(data, p, steps[..|steps| - 1]);
      StepKeepsProgram(data, was, steps[|steps| - 1]);
      StepKeepsReport(data, was, steps[|steps| - 1]);
    }
  }

  /** How many `AwaitReport`s the printer has handled. */
  ghost function RequestsHandled(p: Program): nat {
    var h := HandleOf(Printer);
    if h in p.bus.boxes && p.bus.boxes[h].taken <= |p.bus.boxes[h].history|
    then Requests(p.bus.boxes[h].history[..p.bus.boxes[h].taken]) else 0
  }

  /**
   The promise of the example. In every interleaving, whatever data is broadcast before the
   one `Finalize` and whenever the one `AwaitReport` arrives, at most one `FinalReport` is
   sent, and it has been sent exactly when the run is complete and the request handled. What
   the printer has handled from a source is always a part, from the start, of all that source
   has to say. By the time of the report it is all of it: each data point, and the sum after
   each. The sum reported is the sum of all the data, wrapped to 32 bits: the mathematical sum
   exactly when that fits.
   */
  lemma OneCorrectReport(data: seq<int>, p0: Program, steps: seq<Step>)
    requires Begins(p0)
    ensures var p := Execute(data, p0, steps);
      && |p.reports| <= 1
      && |p.reports| == (if RunComplete(p.printer) then RequestsHandled(p) else 0)
      && forall r | r in p.reports ::
           && r == Wrap(Sum(data))
           && (r == Sum(data) <==> -0x8000_0000 <= Sum(data) < 0x8000_0000)
           && From(Handled(p, Printer), DataCollector) == WholeStream(DataCollector, data)
           && From(Handled(p, Printer), Aggregator) == WholeStream(Aggregator, data)
    ensures forall who: Source :: From(Handled(Execute(data, p0, steps), Printer), who) <= WholeStream(who, data)
  {
    hide Execute, ProgramInv, ReportInv, Handled, Emitted, WholeStream;
    var p := Execute(data, p0, steps);
    ExecutionKeepsInv(data, p0, steps);
    forall who: Source
      ensures Emitted(who, MainNews(data)) == WholeStream(who, data) && From(Handled(p, Printer), who) <= WholeStream(who, data)
    {
      EmittedIsTheWholeStream(who, data);
      HeardIsPrefix(data, p, who);
    }
    ReportsCounted(data, p);
    TwoFinishedMeanDrained(data, p);
    RunningSumIsWrappedSum(data);
  }

  lemma ReportsCounted(data: seq<int>, p: Program)
    requires ReportInv(data, p)
    ensures |p.reports| <= 1 && |p.reports| == if RunComplete(p.printer) then RequestsHandled(p) else 0
    ensures forall r | r in p.reports :: RunComplete(p.printer) && r == RunningSum(data)
  {
    var h := HandleOf(Printer);
    if h in p.bus.boxes {
      var box := p.bus.boxes[h];
      assert box.history == box.history[..box.taken] + box.history[box.taken..];
      RequestsAppend(box.history[..box.taken], box.history[box.taken..]);
    }
    if |p.reports| > 0 {
      var sum := p.reports[0];
      assert sum in p.reports;
      assert RunComplete(p.printer);
    }
  }

  /** Counting two `Finished` already means the sum has arrived: the other half of the completion test is implied. */
  lemma TwoFinishedImplyDone(data: seq<int>, p0: Program, steps: seq<Step>)
    requires Begins(p0)
    ensures var printer := Execute(data, p0, steps).printer;
      && printer.collectorsFinished <= COLLECTOR_COUNT
      && (RunComplete(printer) <==> printer.collectorsFinished == COLLECTOR_COUNT)
  {
    ExecutionKeepsInv(data, p0, steps);
    TwoFinishedMeanDrained(data, Execute(data, p0, steps));
  }
}
