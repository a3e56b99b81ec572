/**
 The broker at work, interleaved with everybody else.

 The broker takes one request at a time from a FIFO inbox and finishes it before taking the
 next. A broadcast is fanned out by one send per subscriber; the sends run concurrently, so
 they land in any order, and each one first looks at its handle's cancellation token and then
 waits for room in the subscriber's bounded inbox. Clients, subscribers, other senders and
 inboxes closing may act between any two of these steps.

 An action that is not possible in a state leaves it unchanged, so a run is any list of
 actions and every theorem holds of every run.
 */
module BrokerProtocol {
  import opened Wrappers
  import opened Subscriptions

  datatype Note<B> = Note(ty: TypeId, body: B)

  /** What an actor's inbox holds: broadcasts from the broker, direct messages, and the stop signal. */
  datatype Item<B, D> = Event(note: Note<B>) | Direct(msg: D) | Terminate

  /**
   An inbox, kept as everything ever enqueued and how much of it has been taken. The queue is
   `history[taken..]`. `cancelled` is the token of the handle the broker sends through.
   */
  datatype Mailbox<B, D> =
    Mailbox(history: seq<Item<B, D>>, taken: nat, open: bool, cancelled: bool, capacity: nat)
  {
    ghost predicate HasRoom() {
      |history| - taken < capacity
    }
    ghost predicate Live() {
      open && !cancelled
    }
  }

  datatype Busy<B> =
    | Idle
      // `pending` holds the sends still to finish; true once the token check has passed
    | FanOut(note: Note<B>, pending: map<Handle, bool>)
    | Answering

  datatype State<B, D> = State(
    accepted: seq<Request<B>>,  // everything that ever entered the broker's inbox
    taken: nat,                 // how much of it the broker has dequeued
    open: bool,
    capacity: nat,
    table: Table,
    busy: Busy<B>,
    boxes: map<Handle, Mailbox<B, D>>,
    answered: seq<nat>          // log positions of the flushes answered so far
  )

  datatype Action<B, D> =
    | Offer(request: Request<B>)
    | Dequeue
    | CheckToken(to: Handle)
    | Push(to: Handle)
    | EndFanOut
    | AnswerFlush
    | SendDirect(to: Handle, item: Item<B, D>)
    | Receive(at: Handle)
    | CloseBox(at: Handle)
    | CancelToken(at: Handle)
    | CloseBroker

  /** The requests dequeued so far. */
  ghost function Log<B, D>(s: State<B, D>): seq<Request<B>>
    requires s.taken <= |s.accepted|
  {
    s.accepted[..s.taken]
  }

  ghost predicate Subscribed<B>(log: seq<Request<B>>, ty: TypeId, h: Handle) {
    Lookup(TableAfter(log), ty, h.id) == Some(h)
  }

  ghost function Targets(t: Table, ty: TypeId): set<Handle> {
    if ty in t then t[ty].Values else {}
  }

  // ----- the steps -----

  ghost predicate Accepts<B, D>(s: State<B, D>) {
    s.open && |s.accepted| - s.taken < s.capacity
  }

  ghost function Begin<B, D>(s: State<B, D>, r: Request<B>): Busy<B> {
    match r
    case Broadcast(ty, body) => FanOut(Note(ty, body), map h | h in Targets(s.table, ty) :: false)
    case Flush => Answering
    case _ => Idle
  }

  ghost function SetBox<B, D>(s: State<B, D>, h: Handle, b: Mailbox<B, D>): State<B, D> {
    s.(boxes := s.boxes[h := b])
  }

  ghost function Enqueued<B, D>(b: Mailbox<B, D>, item: Item<B, D>): Mailbox<B, D> {
    b.(history := b.history + [item])
  }

  ghost predicate Pending<B, D>(s: State<B, D>, h: Handle) {
    s.busy.FanOut? && h in s.busy.pending
  }

  ghost function Finished<B, D>(s: State<B, D>, h: Handle): State<B, D>
    requires s.busy.FanOut?
  {
    s.(busy := s.busy.(pending := s.busy.pending - {h}))
  }

  ghost function Next<B, D>(s: State<B, D>, a: Action<B, D>): State<B, D> {
    match a
    case Offer(r) =>
      if Accepts(s) then s.(accepted := s.accepted + [r]) else s
    case Dequeue =>
      if s.busy.Idle? && s.taken < |s.accepted| then
        var r := s.accepted[s.taken];
        s.(taken := s.taken + 1, table := Apply(s.table, r), busy := Begin(s, r))
      else s
    case CheckToken(h) =>
      if Pending(s, h) && !s.busy.pending[h] then
        if h !in s.boxes || s.boxes[h].cancelled then Finished(s, h)
        else s.(busy := s.busy.(pending := s.busy.pending[h := true]))
      else s
    case Push(h) =>
      if Pending(s, h) && s.busy.pending[h] then
        if h !in s.boxes || !s.boxes[h].open then Finished(s, h)
        else if s.boxes[h].HasRoom() then
          SetBox(Finished(s, h), h, Enqueued(s.boxes[h], Event(s.busy.note)))
        else s
      else s
    case EndFanOut =>
      if s.busy.FanOut? && s.busy.pending == map[] then s.(busy := Idle) else s
    case AnswerFlush =>
      if s.busy.Answering? && s.taken > 0 then s.(busy := Idle, answered := s.answered + [s.taken - 1]) else s
    case SendDirect(h, item) =>
      if h in s.boxes && !item.Event? && s.boxes[h].open && s.boxes[h].HasRoom()
      then SetBox(s, h, Enqueued(s.boxes[h], item)) else s
    case Receive(h) =>
      if h in s.boxes && s.boxes[h].taken < |s.boxes[h].history| then
        var b := s.boxes[h];
        SetBox(s, h, b.(taken := b.taken + 1))
      else s
    case CloseBox(h) =>
      // an actor closes its inbox some time after taking the stop signal; what is queued by then is still drained
      if h in s.boxes then SetBox(s, h, s.boxes[h].(open := false)) else s
    case CancelToken(h) =>
      if h in s.boxes then SetBox(s, h, s.boxes[h].(cancelled := true)) else s
    case CloseBroker => s.(open := false)
  }

  ghost predicate Initial<B, D>(s: State<B, D>) {
    && s.accepted == [] && s.taken == 0 && s.table == map[] && s.busy == Idle && s.answered == []
    && forall h | h in s.boxes :: s.boxes[h].history == [] && s.boxes[h].taken == 0
  }

  ghost function Run<B, D>(s: State<B, D>, acts: seq<Action<B, D>>): State<B, D> {
    if acts == [] then s else Next(Run(s, acts[..|acts| - 1]), acts[|acts| - 1])
  }

  // ----- what each subscriber is owed -----

  ghost function Events<B, D>(history: seq<Item<B, D>>): seq<Note<B>> {
    if history == [] then []
    else
      var n := |history| - 1;
      Events(history[..n]) + if history[n].Event? then [history[n].note] else []
  }

  /** The broadcasts of `log` of a type `h` was subscribed to when the broker reached them, in order. */
  ghost function Projection<B>(log: seq<Request<B>>, h: Handle): seq<Note<B>> {
    if log == [] then []
    else
      var n := |log| - 1;
      Projection(log[..n], h)
      + match log[n] {
          case Broadcast(ty, body) => if Subscribed(log[..n], ty, h) then [Note(ty, body)] else []
          case _ => []
        }
  }

  lemma {:induction false} EventsAppend<B, D>(a: seq<Item<B, D>>, b: seq<Item<B, D>>)
    ensures Events(a + b) == Events(a) + Events(b)
  {
    if b == [] {
      assert a + b == a;
    } else {
      var n := |b| - 1;
      assert (a + b)[..|a| + n] == a + b[..n];
      EventsAppend(a, b[..n]);
    }
  }

  lemma {:induction false} ProjectionGrows<B>(log: seq<Request<B>>, k: nat, h: Handle)
    requires k <= |log|
    ensures Projection(log[..k], h) <= Projection(log, h)
    decreases |log|
  {
    if k < |log| {
      var n := |log| - 1;
      assert log[..n][..k] == log[..k];
      ProjectionGrows(log[..n], k, h);
    } else {
      assert log[..k] == log;
    }
  }

  /** Each broadcast due to `h` has its own place in the projection: right after all those due before it. */
  lemma PlaceInProjection<B>(log: seq<Request<B>>, j: nat, h: Handle)
    requires j < |log| && log[j].Broadcast? && Subscribed(log[..j], log[j].ty, h)
    ensures |Projection(log[..j], h)| < |Projection(log, h)|
    ensures Projection(log, h)[|Projection(log[..j], h)|] == Note(log[j].ty, log[j].body)
  {
    assert log[..j + 1][..j] == log[..j];
    ProjectionGrows(log, j + 1, h);
  }

  // ----- the invariant -----

  ghost predicate BoxInv<B, D>(s: State<B, D>, h: Handle)
    requires h in s.boxes && s.taken <= |s.accepted|
    requires s.busy.FanOut? ==> s.taken > 0
  {
    var b := s.boxes[h];
    var events := Events(b.history);
    && b.taken <= |b.history|
    && (if Pending(s, h) then
          && events <= Projection(s.accepted[..s.taken - 1], h)
          && (b.open && (s.busy.pending[h] || !b.cancelled) ==> events == Projection(s.accepted[..s.taken - 1], h))
        else
          && events <= Projection(Log(s), h)
          && (b.Live() ==> events == Projection(Log(s), h)))
  }

  ghost predicate Inv<B, D>(s: State<B, D>) {
    && s.taken <= |s.accepted|
    && s.table == TableAfter(Log(s))
    && (s.busy.FanOut? ==>
          && s.taken > 0
          && s.accepted[s.taken - 1] == Broadcast(s.busy.note.ty, s.busy.note.body)
          && forall h | h in s.busy.pending :: Subscribed(s.accepted[..s.taken - 1], s.busy.note.ty, h))
    && (s.busy.Answering? ==> s.taken > 0 && s.accepted[s.taken - 1].Flush?)
    && (forall h | h in s.boxes :: BoxInv(s, h))
    && (forall i | 0 <= i < |s.answered| :: AnsweredInv(s, s.answered[i]))
  }

  /** An answered flush has every broadcast ahead of it in every inbox still reachable. */
  ghost predicate AnsweredInv<B, D>(s: State<B, D>, at: nat) {
    && at < s.taken <= |s.accepted| && s.accepted[at].Flush?
    && forall h | h in s.boxes && s.boxes[h].Live() ::
         Projection(s.accepted[..at], h) <= Events(s.boxes[h].history)
  }

  lemma InitialInv<B, D>(s: State<B, D>)
    requires Initial(s)
    ensures Inv(s)
  {
    assert Log(s) == [];
  }

  lemma StepOffer<B, D>(s: State<B, D>, r: Request<B>)
    requires Inv(s)
    ensures Inv(Next(s, Offer(r)))
  {
    var t := Next(s, Offer(r));
    assert forall k: nat | k <= s.taken :: t.accepted[..k] == s.accepted[..k];
    forall h | h in t.boxes ensures BoxInv(t, h) {
      assert BoxInv(s, h);
    }
    forall i | 0 <= i < |t.answered| ensures AnsweredInv(t, t.answered[i]) {
      assert AnsweredInv(s, s.answered[i]);
    }
  }

  lemma TargetsAreSubscribed<B>(log: seq<Request<B>>, ty: TypeId, h: Handle)
    ensures h in Targets(TableAfter(log), ty) <==> Subscribed(log, ty, h)
  {
    var t := TableAfter(log);
    TableHoldsEarliestUnremoved(log, ty, h);
    if h in Targets(t, ty) {
      var id :| id in t[ty] && t[ty][id] == h;
    }
  }

  lemma StepDequeue<B, D>(s: State<B, D>)
    requires Inv(s)
    ensures Inv(Next(s, Dequeue))
  {
    var t := Next(s, Dequeue);
    if t != s {
      var r := s.accepted[s.taken];
      assert Log(t)[..s.taken] == Log(s) == t.accepted[..t.taken - 1];
      assert Log(t) == Log(s) + [r];
      forall h: Handle
        ensures Pending(t, h) <==> r.Broadcast? && Subscribed(Log(s), r.ty, h)
      {
        if r.Broadcast? { TargetsAreSubscribed(Log(s), r.ty, h); }
      }
      forall h | h in t.boxes ensures BoxInv(t, h) {
        assert BoxInv(s, h);
      }
      forall i | 0 <= i < |t.answered| ensures AnsweredInv(t, t.answered[i]) {
        assert AnsweredInv(s, s.answered[i]);
      }
    }
  }

  /** A step that touches one inbox, the fan-out or neither keeps what every other inbox has. */
  lemma StepFrame<B, D>(s: State<B, D>, t: State<B, D>, h: Handle)
    requires Inv(s)
    requires t.accepted == s.accepted && t.taken == s.taken && t.table == s.table && t.answered == s.answered
    requires t.boxes.Keys == s.boxes.Keys
    requires t.busy == s.busy || (s.busy.FanOut? && t.busy.FanOut? && t.busy.note == s.busy.note)
    requires forall g | g != h :: Pending(t, g) == Pending(s, g)
                               && (Pending(s, g) ==> t.busy.pending[g] == s.busy.pending[g])
    requires Pending(t, h) ==> Pending(s, h)
    requires forall g | g in s.boxes && g != h :: t.boxes[g] == s.boxes[g]
    requires h in s.boxes ==> BoxInv(t, h)
    requires h in s.boxes ==> Events(s.boxes[h].history) <= Events(t.boxes[h].history)
    requires h in s.boxes ==> (t.boxes[h].Live() ==> s.boxes[h].Live())
    ensures Inv(t)
  {
    hide Events, Projection, TableAfter, Subscribed;
    forall g | g in t.boxes ensures BoxInv(t, g) {
      assert BoxInv(s, g);
    }
    forall i | 0 <= i < |t.answered| ensures AnsweredInv(t, t.answered[i]) {
      assert AnsweredInv(s, s.answered[i]);
    }
    if t.busy.FanOut? {
      forall g | g in t.busy.pending ensures g in s.busy.pending {
        assert Pending(t, g);
        assert Pending(s, g);
      }
    }
  }

  lemma StepCheckToken<B, D>(s: State<B, D>, h: Handle)
    requires Inv(s)
    ensures Inv(Next(s, CheckToken(h)))
  {
    hide Events, TableAfter, Subscribed, AnsweredInv, Projection;
    if h in s.boxes {
      assert BoxInv(s, h);
      if Pending(s, h) { ProjectionGrows(Log(s), s.taken - 1, h); assert Log(s)[..s.taken - 1] == s.accepted[..s.taken - 1]; }
    }
    StepFrame(s, Next(s, CheckToken(h)), h);
  }

  lemma PushKeepsBox<B, D>(s: State<B, D>, h: Handle)
    requires Inv(s) && Pending(s, h) && h in s.boxes
    ensures Projection(s.accepted[..s.taken - 1], h) <= Projection(Log(s), h)
    ensures s.busy.pending[h] && s.boxes[h].open ==>
              Events(Enqueued(s.boxes[h], Event(s.busy.note)).history) == Projection(Log(s), h)
  {
    assert BoxInv(s, h);
    ProjectionGrows(Log(s), s.taken - 1, h);
    assert Log(s)[..s.taken - 1] == s.accepted[..s.taken - 1];
    EventsAppend(s.boxes[h].history, [Event(s.busy.note)]);
    assert Events<B, D>([Event(s.busy.note)]) == [s.busy.note];
  }

  lemma StepPush<B, D>(s: State<B, D>, h: Handle)
    requires Inv(s)
    ensures Inv(Next(s, Push(h)))
  {
    hide Projection, Events, TableAfter, Subscribed, AnsweredInv;
    var t := Next(s, Push(h));
    if t != s {
      if h in s.boxes {
        PushKeepsBox(s, h);
        assert BoxInv(s, h);
        EventsAppend(s.boxes[h].history, [Event(s.busy.note)]);
        assert !Pending(t, h);
        assert BoxInv(t, h);
      }
      StepFrame(s, t, h);
    }
  }

  lemma StepAnswerFlush<B, D>(s: State<B, D>)
    requires Inv(s)
    ensures Inv(Next(s, AnswerFlush))
  {
    var t := Next(s, AnswerFlush);
    if t != s {
      var at := s.taken - 1;
      forall h | h in t.boxes ensures BoxInv(t, h) {
        assert BoxInv(s, h);
      }
      assert Log(s)[..at] == s.accepted[..at];
      forall h | h in t.boxes && t.boxes[h].Live()
        ensures Projection(s.accepted[..at], h) <= Events(t.boxes[h].history)
      {
        assert BoxInv(s, h);
      }
      forall i | 0 <= i < |t.answered| ensures AnsweredInv(t, t.answered[i]) {
        if i < |s.answered| { assert AnsweredInv(s, s.answered[i]); }
      }
    }
  }

  /** Replacing an inbox by one holding the same broadcasts, and no more reachable than before, breaks nothing. */
  lemma StepInbox<B, D>(s: State<B, D>, h: Handle, b: Mailbox<B, D>)
    requires Inv(s) && h in s.boxes
    requires b.taken <= |b.history| && Events(b.history) == Events(s.boxes[h].history)
    requires (b.open ==> s.boxes[h].open) && (s.boxes[h].cancelled ==> b.cancelled)
    ensures Inv(SetBox(s, h, b))
  {
    assert BoxInv(s, h);
    var t := SetBox(s, h, b);
    assert Pending(t, h) == Pending(s, h);
    assert BoxInv(t, h);
    StepFrame(s, t, h);
  }

  lemma StepSendDirect<B, D>(s: State<B, D>, h: Handle, item: Item<B, D>)
    requires Inv(s)
    ensures Inv(Next(s, SendDirect(h, item)))
  {
    if h in s.boxes && !item.Event? {
      assert BoxInv(s, h);
      EventsAppend(s.boxes[h].history, [item]);
      assert Events([item]) == [];
      StepInbox(s, h, Enqueued(s.boxes[h], item));
    }
  }

  lemma StepReceive<B, D>(s: State<B, D>, h: Handle)
    requires Inv(s)
    ensures Inv(Next(s, Receive(h)))
  {
    hide Events, Projection, TableAfter, Subscribed, AnsweredInv, Begin, Apply;
    if h in s.boxes && s.boxes[h].taken < |s.boxes[h].history| {
      var b := s.boxes[h];
      StepInbox(s, h, b.(taken := b.taken + 1));
    }
  }

  lemma StepClose<B, D>(s: State<B, D>, a: Action<B, D>)
    requires Inv(s) && (a.CloseBox? || a.CancelToken?)
    ensures Inv(Next(s, a))
  {
    if a.at in s.boxes {
      assert BoxInv(s, a.at);
      StepInbox(s, a.at, s.boxes[a.at].(open := false));
      StepInbox(s, a.at, s.boxes[a.at].(cancelled := true));
    }
  }

  lemma StepKeepsInv<B, D>(s: State<B, D>, a: Action<B, D>)
    requires Inv(s)
    ensures Inv(Next(s, a))
  {
    match a
    case Offer(r) => StepOffer(s, r);
    case Dequeue => StepDequeue(s);
    case CheckToken(h) => StepCheckToken(s, h);
    case Push(h) => StepPush(s, h);
    case AnswerFlush => StepAnswerFlush(s);
    case SendDirect(h, item) => StepSendDirect(s, h, item);
    case Receive(h) => StepReceive(s, h);
    case CloseBox(_) => StepClose(s, a);
    case CancelToken(_) => StepClose(s, a);
    case EndFanOut => StepQuiet(s, a);
    case CloseBroker => StepQuiet(s, a);
  }

  lemma StepQuiet<B, D>(s: State<B, D>, a: Action<B, D>)
    requires Inv(s) && (a.EndFanOut? || a.CloseBroker?)
    ensures Inv(Next(s, a))
  {
    hide Events, TableAfter, Subscribed, Projection;
    var t := Next(s, a);
    forall h | h in t.boxes ensures BoxInv(t, h) {
      assert BoxInv(s, h);
    }
    forall i | 0 <= i < |t.answered| ensures AnsweredInv(t, t.answered[i]) {
      assert AnsweredInv(s, s.answered[i]);
    }
  }

  lemma {:induction false} RunKeepsInv<B, D>(s: State<B, D>, acts: seq<Action<B, D>>)
    requires Initial(s)
    ensures Inv(Run(s, acts))
  {
    if acts == [] {
      InitialInv(s);
    } else {
      RunKeepsInv(s, acts[..|acts| - 1]);
      StepKeepsInv(Run(s, acts[..|acts| - 1]), acts[|acts| - 1]);
    }
  }

  // ----- the results -----

  /**
   In every reachable state, what the broker has put in an inbox is the projection of its
   log: in log order, nothing twice and nothing extra. An inbox that is open and whose token
   is live has all of it, or, while its send of the current fan-out is pending, all but that
   one broadcast. An inbox that closed, or whose token was cancelled, has a prefix.
   */
  lemma InboxIsProjection<B, D>(s0: State<B, D>, acts: seq<Action<B, D>>, h: Handle)
    requires Initial(s0)
    ensures var s := Run(s0, acts); s.taken <= |s.accepted| && (h in s.boxes ==> OwedExactly(s, h))
  {
    RunKeepsInv(s0, acts);
    BoxHasItsProjection(Run(s0, acts), h);
  }

  ghost predicate OwedExactly<B, D>(s: State<B, D>, h: Handle)
    requires h in s.boxes && s.taken <= |s.accepted|
  {
    var events := Events(s.boxes[h].history);
    && events <= Projection(Log(s), h)
    && (s.boxes[h].Live() && !Pending(s, h) ==> events == Projection(Log(s), h))
    && (s.boxes[h].Live() && Pending(s, h) ==> events + [s.busy.note] == Projection(Log(s), h))
  }

  lemma BoxHasItsProjection<B, D>(s: State<B, D>, h: Handle)
    requires Inv(s)
    ensures h in s.boxes ==> OwedExactly(s, h)
  {
    if h in s.boxes {
      assert BoxInv(s, h);
      if Pending(s, h) {
        ProjectionGrows(Log(s), s.taken - 1, h);
        assert Log(s)[..s.taken - 1] == s.accepted[..s.taken - 1];
      }
    }
  }

  /**
   The flush barrier. Once the flush at log position `at` has been answered, any broadcast
   `j` ahead of it is in the inbox of every actor subscribed when the broker reached `j`,
   at its own place among that actor's broadcasts, if the inbox is still open and its token live.
   */
  lemma FlushIsABarrier<B, D>(s0: State<B, D>, acts: seq<Action<B, D>>, at: nat, j: nat, h: Handle)
    requires Initial(s0)
    requires at in Run(s0, acts).answered && j < at
    requires h in Run(s0, acts).boxes && Run(s0, acts).boxes[h].Live()
    ensures var s := Run(s0, acts);
      && at < |s.accepted|
      && var events, place := Events(s.boxes[h].history), |Projection(s.accepted[..j], h)|;
         s.accepted[j].Broadcast? && Subscribed(s.accepted[..j], s.accepted[j].ty, h) ==>
           place < |events| && events[place] == Note(s.accepted[j].ty, s.accepted[j].body)
  {
    RunKeepsInv(s0, acts);
    var s := Run(s0, acts);
    var i :| 0 <= i < |s.answered| && s.answered[i] == at;
    assert AnsweredInv(s, s.answered[i]);
    if s.accepted[j].Broadcast? && Subscribed(s.accepted[..j], s.accepted[j].ty, h) {
      assert s.accepted[..at][..j] == s.accepted[..j];
      PlaceInProjection(s.accepted[..at], j, h);
    }
  }

  lemma BoxGrows<B, D>(s: State<B, D>, a: Action<B, D>, h: Handle)
    requires h in s.boxes
    ensures var t := Next(s, a);
      && h in t.boxes
      && s.boxes[h].history <= t.boxes[h].history && s.boxes[h].taken <= t.boxes[h].taken
      && (t.boxes[h].open ==> s.boxes[h].open) && (s.boxes[h].cancelled ==> t.boxes[h].cancelled)
      && (!a.Receive? ==> s.boxes[h].taken == t.boxes[h].taken)
  {
    hide Begin, Apply;
  }

  lemma LogGrows<B, D>(s: State<B, D>, a: Action<B, D>)
    ensures var t := Next(s, a);
      s.accepted <= t.accepted && s.taken <= t.taken && s.answered <= t.answered && t.boxes.Keys == s.boxes.Keys
  {
    hide Begin, Apply;
  }

  /** Nothing that has entered an inbox or the broker's log ever leaves it or moves. */
  lemma HistoriesGrow<B, D>(s: State<B, D>, a: Action<B, D>)
    ensures var t := Next(s, a);
      && s.accepted <= t.accepted && s.taken <= t.taken && s.answered <= t.answered
      && t.boxes.Keys == s.boxes.Keys
      && forall h | h in s.boxes ::
           && s.boxes[h].history <= t.boxes[h].history && s.boxes[h].taken <= t.boxes[h].taken
           && (t.boxes[h].open ==> s.boxes[h].open) && (s.boxes[h].cancelled ==> t.boxes[h].cancelled)
  {
    hide Next;
    LogGrows(s, a);
    var t := Next(s, a);
    forall h | h in s.boxes
      ensures s.boxes[h].history <= t.boxes[h].history && s.boxes[h].taken <= t.boxes[h].taken
      ensures (t.boxes[h].open ==> s.boxes[h].open) && (s.boxes[h].cancelled ==> t.boxes[h].cancelled)
    {
      BoxGrows(s, a, h);
    }
  }
}
