/**
 Why the broadcast example reports only when everything has drained.

 The argument follows the data: `main`'s broadcasts reach each collector in order, what a
 collector has to say reaches the broker in order, and the printer handles a prefix of the
 broker's order. So the updates the printer has handled from one collector are a prefix of
 everything that collector will ever say, whose last word is `Finished`.
 */
module PipelineProof {
  import opened Wrappers
  import opened Subscriptions
  import opened BrokerProtocol
  import opened Pipeline

  // ----- reading the broker's order -----

  ghost function Broadcasts(requests: seq<Request<Body>>): seq<News> {
    if requests == [] then []
    else
      var n := |requests| - 1;
      Broadcasts(requests[..n])
      + if requests[n].Broadcast? then [Note(requests[n].ty, requests[n].body)] else []
  }

  /** The status updates of `news`, or everything else. */
  ghost function Select(news: seq<News>, statuses: bool): seq<News> {
    if news == [] then []
    else
      var n := |news| - 1;
      Select(news[..n], statuses) + if (news[n].ty == STATUS) == statuses then [news[n]] else []
  }

  ghost function From(news: seq<News>, who: Source): seq<StatusUpdate> {
    if news == [] then []
    else
      var n := |news| - 1;
      From(news[..n], who)
      + if news[n].body.Status? && news[n].body.from == who then [news[n].body.update] else []
  }

  ghost function FinishedCount(updates: seq<StatusUpdate>): nat {
    if updates == [] then 0
    else FinishedCount(updates[..|updates| - 1]) + if updates[|updates| - 1].Finished? then 1 else 0
  }

  ghost function LastDone(updates: seq<StatusUpdate>): Option<int> {
    if updates == [] then None
    else if updates[|updates| - 1].Done? then Some(updates[|updates| - 1].sum)
    else LastDone(updates[..|updates| - 1])
  }

  /** What the printer holds once it has handled `news`. */
  ghost function Tally(news: seq<News>): (nat, Option<int>) {
    if news == [] then (0, None)
    else
      var n := |news| - 1;
      var (count, sum) := Tally(news[..n]);
      match news[n].body
      case Status(_, Finished) => (count + 1, sum)
      case Status(_, Done(s)) => (count, Some(s))
      case _ => (count, sum)
  }

  lemma {:induction false} BroadcastsGrow(a: seq<Request<Body>>, b: seq<Request<Body>>)
    requires a <= b
    ensures Broadcasts(a) <= Broadcasts(b)
    decreases |b|
  {
    if a != b {
      BroadcastsGrow(a, b[..|b| - 1]);
    }
  }

  lemma {:induction false} SelectGrows(a: seq<News>, b: seq<News>, statuses: bool)
    requires a <= b
    ensures Select(a, statuses) <= Select(b, statuses)
    decreases |b|
  {
    if a != b {
      SelectGrows(a, b[..|b| - 1], statuses);
    }
  }

  lemma {:induction false} FromGrows(a: seq<News>, b: seq<News>, who: Source)
    requires a <= b
    ensures From(a, who) <= From(b, who)
    decreases |b|
  {
    if a != b {
      FromGrows(a, b[..|b| - 1], who);
    }
  }

  lemma {:induction false} EmittedGrows(who: Source, a: seq<News>, b: seq<News>)
    requires a <= b
    ensures Emitted(who, a) <= Emitted(who, b)
    decreases |b|
  {
    if a != b {
      EmittedGrows(who, a, b[..|b| - 1]);
    }
  }

  ghost predicate WellTyped(n: News) {
    (n.ty == STATUS <==> n.body.Status?) && (n.ty == NEW_DATA <==> n.body.NewData?)
    && (n.ty == FINALIZE <==> n.body.Finalize?)
  }

  /** The broker's inbox holds the five subscriptions, then nothing but broadcasts. */
  ghost predicate Shaped(requests: seq<Request<Body>>) {
    forall i | 0 <= i < |requests| ::
      if i < 5 then requests[i] == Subscriptions5()[i]
      else requests[i].Broadcast? && WellTyped(Note(requests[i].ty, requests[i].body))
  }

  lemma {:induction false} SelectedStatuses(news: seq<News>, who: Source)
    requires forall i | 0 <= i < |news| :: WellTyped(news[i])
    ensures From(Select(news, true), who) == From(news, who)
  {
    if news != [] {
      var n := |news| - 1;
      SelectedStatuses(news[..n], who);
      var s := Select(news[..n], true);
      if news[n].ty == STATUS {
        assert (s + [news[n]])[..|s|] == s;
      } else {
        assert s + [] == s;
      }
    }
  }

  // ----- the subscriptions in force -----

  lemma TableOfFive(ty: TypeId, who: Source)
    requires ty == NEW_DATA || ty == FINALIZE || ty == STATUS
    ensures Lookup(TableAfter(Subscriptions5()), ty, HandleOf(who).id) == Some(HandleOf(who))
            <==> (ty == STATUS) == who.Printer?
  {
    var s := Subscriptions5();
    var dc, ag, pr := Handle(1, 0), Handle(2, 0), Handle(3, 0);
    var t1: Table := map[0 := map[1 := dc]];
    var t2: Table := map[0 := map[1 := dc], 1 := map[1 := dc]];
    var t3: Table := map[0 := map[1 := dc, 2 := ag], 1 := map[1 := dc]];
    var t4: Table := map[0 := map[1 := dc, 2 := ag], 1 := map[1 := dc, 2 := ag]];
    var t5: Table := t4[2 := map[3 := pr]];
    assert s[..1][..0] == [] && s[..2][..1] == s[..1] && s[..3][..2] == s[..2] && s[..4][..3] == s[..3];
    assert TableAfter(s[..1]) == t1;
    assert TableAfter(s[..2]) == t2;
    assert TableAfter(s[..3]) == t3;
    assert TableAfter(s[..4]) == t4;
    assert TableAfter(s) == t5;
  }

  lemma {:induction false} TableOfShaped(requests: seq<Request<Body>>)
    requires Shaped(requests) && |requests| >= 5
    ensures TableAfter(requests) == TableAfter(Subscriptions5())
  {
    if |requests| == 5 {
      assert requests == Subscriptions5();
    } else {
      TableOfShaped(requests[..|requests| - 1]);
    }
  }

  lemma SubscribedInShaped(log: seq<Request<Body>>, note: News, who: Source)
    requires Shaped(log) && |log| >= 5 && WellTyped(note)
    ensures Subscribed(log, note.ty, HandleOf(who)) <==> (note.ty == STATUS) == who.Printer?
  {
    TableOfShaped(log);
    assert note.body.NewData? || note.body.Finalize? || note.body.Status?;
    TableOfFive(note.ty, who);
  }

  /** The printer is sent the status updates, each collector everything else. */
  lemma {:induction false} ProjectionOfShaped(log: seq<Request<Body>>, who: Source)
    requires Shaped(log)
    ensures Projection(log, HandleOf(who)) == Select(Broadcasts(log), who.Printer?)
    ensures forall i | 0 <= i < |Broadcasts(log)| :: WellTyped(Broadcasts(log)[i])
  {
    if log != [] {
      var n := |log| - 1;
      ProjectionOfShaped(log[..n], who);
      if n >= 5 {
        var note := Note(log[n].ty, log[n].body);
        SubscribedInShaped(log[..n], note, who);
        assert Broadcasts(log) == Broadcasts(log[..n]) + [note];
        assert Broadcasts(log)[..|Broadcasts(log[..n])|] == Broadcasts(log[..n]);
      } else {
        assert Broadcasts(log) == Broadcasts(log[..n]);
      }
    }
  }

  // ----- the printer's tally, source by source -----

  lemma {:induction false} TallyBySource(news: seq<News>)
    requires forall i | 0 <= i < |news| ::
               news[i].body.Status? && (news[i].body.update.Done? ==> news[i].body.from.Aggregator?)
    ensures Tally(news).0 == FinishedCount(From(news, DataCollector)) + FinishedCount(From(news, Aggregator))
                             + FinishedCount(From(news, Printer))
    ensures Tally(news).1 == LastDone(From(news, Aggregator))
  {
    if news != [] {
      var n := |news| - 1;
      TallyBySource(news[..n]);
      FromSnoc(news, DataCollector);
      FromSnoc(news, Aggregator);
      FromSnoc(news, Printer);
      match news[n].body.from
      case DataCollector =>
      case Aggregator =>
      case Printer =>
    }
  }

  lemma FromSnoc(news: seq<News>, who: Source)
    requires news != [] && news[|news| - 1].body.Status?
    ensures var n := |news| - 1;
      var u, now, was := news[n].body.update, From(news, who), From(news[..n], who);
      if news[n].body.from == who then
        FinishedCount(now) == FinishedCount(was) + (if u.Finished? then 1 else 0)
        && LastDone(now) == if u.Done? then Some(u.sum) else LastDone(was)
      else now == was
  {
    var n := |news| - 1;
    var a := From(news[..n], who);
    if news[n].body.from == who {
      assert (a + [news[n].body.update])[..|a|] == a;
    } else {
      assert a + [] == a;
    }
  }

  ghost predicate LastWord(updates: seq<StatusUpdate>) {
    && updates != [] && updates[|updates| - 1].Finished?
    && forall i | 0 <= i < |updates| - 1 :: !updates[i].Finished?
  }

  lemma {:induction false} NoFinished(updates: seq<StatusUpdate>)
    requires forall i | 0 <= i < |updates| :: !updates[i].Finished?
    ensures FinishedCount(updates) == 0
  {
    if updates != [] {
      NoFinished(updates[..|updates| - 1]);
    }
  }

  /** A part of what a collector says contains its `Finished` only if it is all of it. */
  lemma FinishedMeansAll(part: seq<StatusUpdate>, all: seq<StatusUpdate>)
    requires part <= all && LastWord(all)
    ensures FinishedCount(part) == if part == all then 1 else 0
  {
    if part == all {
      NoFinished(all[..|all| - 1]);
    } else {
      forall i | 0 <= i < |part| ensures !part[i].Finished? {
        assert part[i] == all[i];
      }
      NoFinished(part);
    }
  }

  lemma {:induction false} EmittedForData(who: Source, data: seq<int>, k: nat)
    requires who != Printer && k <= |data|
    ensures Values(MainNews(data)[..k]) == data[..k]
    ensures forall i | 0 <= i < |Emitted(who, MainNews(data)[..k])| ::
              var u := Emitted(who, MainNews(data)[..k])[i]; u.Ready? || u.Updated?
  {
    var news := MainNews(data)[..k];
    if k > 0 {
      EmittedForData(who, data, k - 1);
      assert news[..k - 1] == MainNews(data)[..k - 1];
      assert news[k - 1].body == NewData(data[k - 1]);
      assert data[..k] == data[..k - 1] + [data[k - 1]];
    }
  }

  lemma EmittedSnoc(who: Source, news: seq<News>, note: News)
    ensures Emitted(who, news + [note]) == Emitted(who, news) + Reaction(who, Values(news), note.body)
  {
    assert (news + [note])[..|news|] == news;
  }

  /** Each collector's last word is `Finished`; the aggregator's word before it carries the sum. */
  lemma EmittedInFull(who: Source, data: seq<int>)
    requires who != Printer
    ensures LastWord(Emitted(who, MainNews(data)))
    ensures who.Aggregator? ==> LastDone(Emitted(who, MainNews(data))) == Some(RunningSum(data))
  {
    hide RunningSum, Wrap, LastDone;
    var news := MainNews(data);
    var k := |data|;
    assert data[..k] == data;
    assert news == news[..k] + [Note(FINALIZE, Finalize)];
    EmittedForData(who, data, k);
    EmittedSnoc(who, news[..k], Note(FINALIZE, Finalize));
    var said := Emitted(who, news[..k]);
    var all := Emitted(who, news);
    if who.Aggregator? {
      assert all == said + [Done(RunningSum(data)), Finished];
      LastDoneBeforeFinished(said, RunningSum(data));
    } else {
      assert all == said + [Finished];
    }
  }

  /**
   All that an actor ever has to say, read off the data: the data collector repeats each point, the
   aggregator gives the sum so far after each, and both say when they are through.
   */
  ghost function WholeStream(who: Source, data: seq<int>): seq<StatusUpdate> {
    match who
    case DataCollector => [Ready] + seq(|data|, i requires 0 <= i < |data| => Updated(data[i])) + [Finished]
    case Aggregator =>
      [Ready] + seq(|data|, i requires 0 <= i < |data| => Updated(Wrap(Sum(data[..i + 1])))) + [Done(Wrap(Sum(data))), Finished]
    case Printer => [Ready]
  }

  ghost function UpdatesTo(who: Source, data: seq<int>, k: nat): seq<StatusUpdate>
    requires k <= |data|
  {
    seq(k, i requires 0 <= i < k => Updated(if who.DataCollector? then data[i] else Wrap(Sum(data[..i + 1]))))
  }

  lemma SaidNothing(who: Source)
    ensures Emitted(who, []) == [StatusUpdate.Ready]
  {
  }

  lemma {:induction false} SaidAfter(who: Source, data: seq<int>, k: nat)
    requires who != Printer && k <= |data|
    ensures Emitted(who, MainNews(data)[..k]) == [StatusUpdate.Ready] + UpdatesTo(who, data, k)
  {
    hide Wrap, Sum, RunningSum, Emitted, Values;
    var news := MainNews(data);
    if k == 0 {
      SaidNothing(who);
    } else {
      var v := data[k - 1];
      SaidAfter(who, data, k - 1);
      EmittedForData(who, data, k - 1);
      assert news[..k] == news[..k - 1] + [Note(NEW_DATA, NewData(v))];
      EmittedSnoc(who, news[..k - 1], Note(NEW_DATA, NewData(v)));
      assert data[..k] == data[..k - 1] + [v];
      RunningSumIsWrappedSum(data[..k]);
      OneMoreUpdate(who, data, k);
    }
  }

  lemma OneMoreUpdate(who: Source, data: seq<int>, k: nat)
    requires 0 < k <= |data|
    ensures UpdatesTo(who, data, k) == UpdatesTo(who, data, k - 1)
              + [Updated(if who.DataCollector? then data[k - 1] else Wrap(Sum(data[..k])))]
  {
    hide Wrap, Sum;
  }

  /** What the handlers make of `main`'s broadcasts is that stream. */
  lemma EmittedIsTheWholeStream(who: Source, data: seq<int>)
    ensures Emitted(who, MainNews(data)) == WholeStream(who, data)
  {
    hide Wrap, Sum, RunningSum, Emitted, Values;
    var news, k := MainNews(data), |data|;
    if who.Printer? {
      DonesAreTheAggregators(who, news);
    } else {
      SaidAfter(who, data, k);
      EmittedForData(who, data, k);
      assert data[..k] == data;
      assert news == news[..k] + [Note(FINALIZE, Finalize)];
      EmittedSnoc(who, news[..k], Note(FINALIZE, Finalize));
      RunningSumIsWrappedSum(data);
      assert WholeStream(who, data) == [StatusUpdate.Ready] + UpdatesTo(who, data, k)
               + if who.DataCollector? then [Finished] else [Done(Wrap(Sum(data))), Finished];
    }
  }

  lemma LastDoneBeforeFinished(said: seq<StatusUpdate>, sum: int)
    ensures LastDone(said + [Done(sum), Finished]) == Some(sum)
  {
    var all := said + [Done(sum), Finished];
    assert all[..|all| - 1] == said + [Done(sum)];
  }

  lemma {:induction false} DonesAreTheAggregators(who: Source, news: seq<News>)
    requires who != Aggregator
    ensures forall i | 0 <= i < |Emitted(who, news)| :: !Emitted(who, news)[i].Done?
    ensures who.Printer? ==> Emitted(who, news) == [Ready]
  {
    if news != [] {
      DonesAreTheAggregators(who, news[..|news| - 1]);
    }
  }

  lemma {:induction false} FromContains(news: seq<News>, i: nat)
    requires i < |news| && news[i].body.Status?
    ensures news[i].body.update in From(news, news[i].body.from)
  {
    var n := |news| - 1;
    if i < n {
      FromContains(news[..n], i);
    }
  }
}
