/**
 Request and reply: why every `ask` gets its own answer, at most one, and cannot hang while
 nobody could answer it.

 Each ask has a private one-slot reply channel. Its address travels inside the request's
 envelope, may be copied and stored by whoever handles the request, and dies copy by copy.
 The channel closes when no copy is left, which includes the asker's own until it drops it.
 Any number of asks run at once, interleaved with everything recipients do.
 */
module Ask {
  import opened Wrappers
  import SendPath

  datatype AskError = Undeliverable | CancelledBeforeDelivery | NoReply | TimedOut | UnexpectedReply(received: nat)

  /** A reply: the request it answers, its type, and its content. */
  datatype Reply = Reply(request: nat, ty: nat, body: int)

  /** Only failures before delivery are mapped; all but cancellation mean the inbox was closed. */
  function FromMessageError(e: SendPath.SendError): AskError {
    match e
    case Cancelled => CancelledBeforeDelivery
    case _ => Undeliverable
  }

  /** What a received reply means to a caller expecting type `expected`; `None` is a closed channel. */
  function ClassifyReply(expected: nat, reply: Option<Reply>): Result<int, AskError> {
    match reply
    case None => Err(NoReply)
    case Some(r) => if r.ty == expected then Ok(r.body) else Err(UnexpectedReply(r.ty))
  }

  datatype Stage = Sending | Delivered | Awaiting | Done(result: Result<int, AskError>)

  /** `queued` is everything ever put in the reply channel; the first `received` were taken out. */
  datatype Exchange = Exchange(stage: Stage, expected: nat, ownCopy: bool, queued: seq<Reply>, received: nat)

  /** A live copy of a reply address outside the asker: which channel it leads to, and the request it came with. */
  datatype Address = Address(channel: nat, request: nat)

  datatype State = State(
    exchanges: seq<Exchange>,         // ask number `i` owns channel number `i`
    addresses: map<nat, Address>,     // live copies, each under a name of its own
    dropsOwnCopy: bool                // whether `exchange` drops its envelope before it waits
  )

  datatype Action =
    | NewAsk(expected: nat)
    | Deliver(ask: nat, name: nat)
    | Refuse(ask: nat, error: SendPath.SendError)
    | DropEnvelope(ask: nat)
    | CopyAddress(name: nat, copy: nat)
    | DropAddress(name: nat)
    | SendReply(name: nat, ty: nat, body: int)
    | Receive(ask: nat)
    | SeeClosed(ask: nat)
    | TimeOut(ask: nat)

  const REPLY_CHANNEL_CAPACITY := 1

  ghost predicate Is(s: State, i: nat, stage: Stage) {
    i < |s.exchanges| && s.exchanges[i].stage == stage
  }

  ghost function Update(s: State, i: nat, e: Exchange): State
    requires i < |s.exchanges|
  {
    s.(exchanges := s.exchanges[i := e])
  }

  /** The exchange returns; its receiver and whatever copy it still held go with it. */
  ghost function Finish(s: State, i: nat, result: Result<int, AskError>): State
    requires i < |s.exchanges|
  {
    Update(s, i, s.exchanges[i].(stage := Done(result), ownCopy := false))
  }

  ghost predicate HeldElsewhere(s: State, i: nat) {
    exists n :: n in s.addresses && s.addresses[n].channel == i
  }

  ghost predicate ChannelClosedFor(s: State, i: nat)
    requires i < |s.exchanges|
  {
    !s.exchanges[i].ownCopy && !HeldElsewhere(s, i)
  }

  ghost predicate Empty(e: Exchange) {
    |e.queued| <= e.received
  }

  ghost function Next(s: State, a: Action): State {
    match a
    case NewAsk(expected) => s.(exchanges := s.exchanges + [Exchange(Sending, expected, true, [], 0)])
    case Deliver(i, n) =>
      if Is(s, i, Sending) && n !in s.addresses then
        Update(s, i, s.exchanges[i].(stage := Delivered)).(addresses := s.addresses[n := Address(i, i)])
      else s
    case Refuse(i, e) => if Is(s, i, Sending) then Finish(s, i, Err(FromMessageError(e))) else s
    case DropEnvelope(i) =>
      if Is(s, i, Delivered) then
        Update(s, i, s.exchanges[i].(stage := Awaiting, ownCopy := s.exchanges[i].ownCopy && !s.dropsOwnCopy))
      else s
    case CopyAddress(n, m) =>
      if n in s.addresses && m !in s.addresses then s.(addresses := s.addresses[m := s.addresses[n]]) else s
    case DropAddress(n) => s.(addresses := s.addresses - {n})
    case SendReply(n, ty, body) =>
      if n in s.addresses && s.addresses[n].channel < |s.exchanges| then
        var i := s.addresses[n].channel;
        var e := s.exchanges[i];
        // a finished asker's channel is closed and discards; a full one makes the sender wait
        if e.stage.Done? || |e.queued| - e.received >= REPLY_CHANNEL_CAPACITY then s
        else Update(s, i, e.(queued := e.queued + [Reply(s.addresses[n].request, ty, body)]))
      else s
    case Receive(i) =>
      if Is(s, i, Awaiting) && s.exchanges[i].received < |s.exchanges[i].queued| then
        var e := s.exchanges[i];
        Finish(Update(s, i, e.(received := e.received + 1)), i, ClassifyReply(e.expected, Some(e.queued[e.received])))
      else s
    case SeeClosed(i) =>
      if Is(s, i, Awaiting) && Empty(s.exchanges[i]) && ChannelClosedFor(s, i)
      then Finish(s, i, ClassifyReply(s.exchanges[i].expected, None)) else s
    case TimeOut(i) =>
      if i < |s.exchanges| && !s.exchanges[i].stage.Done? then Finish(s, i, Err(TimedOut)) else s
  }

  ghost predicate Initial(s: State) {
    s.exchanges == [] && s.addresses == map[]
  }

  ghost function Run(s: State, acts: seq<Action>): State {
    if acts == [] then s else Next(Run(s, acts[..|acts| - 1]), acts[|acts| - 1])
  }

  // ----- the invariant -----

  ghost predicate ExchangeInv(s: State, i: nat)
    requires i < |s.exchanges|
  {
    var e := s.exchanges[i];
    && e.received <= |e.queued|
    && (forall k | 0 <= k < |e.queued| :: e.queued[k].request == i)
    && (e.stage.Sending? || e.stage.Delivered? ==> e.ownCopy)
    && (e.stage.Awaiting? ==> e.ownCopy == !s.dropsOwnCopy)
    && (e.stage.Sending? ==> e.queued == [] && !HeldElsewhere(s, i))
    && (!e.stage.Done? ==> e.received == 0)
    && (e.stage.Done? ==> ResultInv(s, i))
  }

  /** How each result came about. */
  ghost predicate ResultInv(s: State, i: nat)
    requires i < |s.exchanges| && s.exchanges[i].stage.Done?
  {
    var e := s.exchanges[i];
    match e.stage.result
    case Ok(_) => e.queued != [] && e.stage.result == ClassifyReply(e.expected, Some(e.queued[0]))
    case Err(UnexpectedReply(_)) => e.queued != [] && e.stage.result == ClassifyReply(e.expected, Some(e.queued[0]))
    case Err(NoReply) => e.queued == [] && ChannelClosedFor(s, i)
    case Err(TimedOut) => e.received == 0
    case Err(_) => e.queued == [] && ChannelClosedFor(s, i)
  }

  ghost predicate Inv(s: State) {
    && (forall i: nat | i < |s.exchanges| :: ExchangeInv(s, i))
    && (forall n | n in s.addresses :: AddressInv(s, n))
  }

  ghost predicate AddressInv(s: State, n: nat)
    requires n in s.addresses
  {
    s.addresses[n].channel < |s.exchanges| && s.addresses[n].request == s.addresses[n].channel
  }

  /** Exchanges that did not change, and that gained no address, keep what was known of them. */
  lemma OthersKept(s: State, t: State, i: nat)
    requires Inv(s) && i < |s.exchanges| <= |t.exchanges| && t.dropsOwnCopy == s.dropsOwnCopy
    requires t.exchanges[i] == s.exchanges[i] && (HeldElsewhere(t, i) ==> HeldElsewhere(s, i))
    ensures ExchangeInv(t, i)
  {
    assert ExchangeInv(s, i);
  }

  lemma StepNewAsk(s: State, expected: nat)
    requires Inv(s)
    ensures Inv(Next(s, NewAsk(expected)))
  {
    var t := Next(s, NewAsk(expected));
    forall n | n in t.addresses ensures AddressInv(t, n) {
      assert AddressInv(s, n);
    }
    forall i: nat | i < |t.exchanges| ensures ExchangeInv(t, i) {
      if i < |s.exchanges| {
        OthersKept(s, t, i);
      }
    }
  }

  lemma StepOnExchange(s: State, t: State, i: nat)
    requires Inv(s) && i < |s.exchanges| == |t.exchanges| && t.dropsOwnCopy == s.dropsOwnCopy
    requires forall j: nat | j < |s.exchanges| && j != i :: t.exchanges[j] == s.exchanges[j]
    requires t.addresses == s.addresses || (exists n: nat :: n !in s.addresses && t.addresses == s.addresses[n := Address(i, i)])
    requires ExchangeInv(t, i)
    ensures Inv(t)
  {
    forall n | n in t.addresses ensures AddressInv(t, n) {
      assert n in s.addresses ==> AddressInv(s, n);
    }
    forall j: nat | j < |t.exchanges| ensures ExchangeInv(t, j) {
      if j != i {
        OthersKept(s, t, j);
      }
    }
  }

  lemma StepAddresses(s: State, a: Action)
    requires Inv(s) && (a.CopyAddress? || a.DropAddress?)
    ensures Inv(Next(s, a))
  {
    var t := Next(s, a);
    forall n | n in t.addresses ensures AddressInv(t, n) {
      assert n in s.addresses ==> AddressInv(s, n);
      if a.CopyAddress? && a.name in s.addresses { assert AddressInv(s, a.name); }
    }
    forall i: nat | i < |t.exchanges| ensures ExchangeInv(t, i) {
      OthersKept(s, t, i);
    }
  }

  lemma StepSendReply(s: State, n: nat, ty: nat, body: int)
    requires Inv(s)
    ensures Inv(Next(s, SendReply(n, ty, body)))
  {
    var t := Next(s, SendReply(n, ty, body));
    if t != s {
      assert AddressInv(s, n);
      var i := s.addresses[n].channel;
      assert ExchangeInv(s, i);
      assert HeldElsewhere(s, i);
      assert ExchangeInv(t, i);
      StepOnExchange(s, t, i);
    }
  }

  lemma StepAsker(s: State, a: Action)
    requires Inv(s)
    requires a.Deliver? || a.Refuse? || a.DropEnvelope? || a.Receive? || a.SeeClosed? || a.TimeOut?
    ensures Inv(Next(s, a))
  {
    var t := Next(s, a);
    if t != s {
      assert ExchangeInv(s, a.ask);
      assert t.addresses == s.addresses ==> HeldElsewhere(t, a.ask) == HeldElsewhere(s, a.ask);
      StepOnExchange(s, t, a.ask);
    }
  }

  lemma StepKeepsInv(s: State, a: Action)
    requires Inv(s)
    ensures Inv(Next(s, a))
  {
    match a
    case NewAsk(expected) => StepNewAsk(s, expected);
    case CopyAddress(_, _) => StepAddresses(s, a);
    case DropAddress(_) => StepAddresses(s, a);
    case SendReply(n, ty, body) => StepSendReply(s, n, ty, body);
    case _ => StepAsker(s, a);
  }

  lemma {:induction false} RunKeepsInv(s: State, acts: seq<Action>)
    requires Initial(s)
    ensures Inv(Run(s, acts)) && Run(s, acts).dropsOwnCopy == s.dropsOwnCopy
  {
    if acts != [] {
      RunKeepsInv(s, acts[..|acts| - 1]);
      StepKeepsInv(Run(s, acts[..|acts| - 1]), acts[|acts| - 1]);
    }
  }

  // ----- what was asked and answered, read off the run's actions -----

  /** The type each ask expects, in the order they were made. */
  ghost function Expected(acts: seq<Action>): seq<nat> {
    if acts == [] then []
    else
      var last := acts[|acts| - 1];
      Expected(acts[..|acts| - 1]) + if last.NewAsk? then [last.expected] else []
  }

  /** The ask that the address named `n` came with, if such an address is live: delivered, or copied from one, and not dropped since. */
  ghost function Leads(s0: State, acts: seq<Action>, n: nat): Option<nat> {
    if acts == [] then None
    else
      var before := acts[..|acts| - 1];
      var was := Leads(s0, before, n);
      match acts[|acts| - 1]
      case Deliver(i, name) => if name == n && was.None? && Is(Run(s0, before), i, Sending) then Some(i) else was
      case CopyAddress(name, copy) => if copy == n && was.None? then Leads(s0, before, name) else was
      case DropAddress(name) => if name == n then None else was
      case _ => was
  }

  /** Action `k` sends a reply through a live address that came with ask `i`. */
  ghost predicate Answers(s0: State, acts: seq<Action>, k: int, i: nat) {
    0 <= k < |acts| && acts[k].SendReply? && Leads(s0, acts[..k], acts[k].name) == Some(i)
  }

  ghost predicate AnswersFirst(s0: State, acts: seq<Action>, k: int, i: nat) {
    Answers(s0, acts, k, i) && forall j | 0 <= j < k :: !Answers(s0, acts, j, i)
  }

  /** The first reply to ask `i`. */
  ghost function FirstAnswer(s0: State, acts: seq<Action>, i: nat): Option<Action> {
    if acts == [] then None
    else
      var before := acts[..|acts| - 1];
      if FirstAnswer(s0, before, i).Some? then FirstAnswer(s0, before, i)
      else if Answers(s0, acts, |acts| - 1, i) then Some(acts[|acts| - 1])
      else None
  }

  lemma {:induction false} FirstAnswerIsFirst(s0: State, acts: seq<Action>, i: nat)
    ensures match FirstAnswer(s0, acts, i)
            case None => forall k :: !Answers(s0, acts, k, i)
            case Some(r) => r.SendReply? && exists k :: AnswersFirst(s0, acts, k, i) && acts[k] == r
  {
    if acts != [] {
      var n := |acts| - 1;
      var before := acts[..n];
      FirstAnswerIsFirst(s0, before, i);
      assert forall k | 0 <= k < n :: before[..k] == acts[..k];
      assert forall k | 0 <= k < n :: Answers(s0, before, k, i) == Answers(s0, acts, k, i);
      if FirstAnswer(s0, before, i).Some? {
        var k :| AnswersFirst(s0, before, k, i) && before[k] == FirstAnswer(s0, before, i).value;
        assert AnswersFirst(s0, acts, k, i);
      } else if Answers(s0, acts, n, i) {
        assert AnswersFirst(s0, acts, n, i);
      }
    }
  }

  lemma {:induction false} AddressesLead(s0: State, acts: seq<Action>, n: nat)
    requires Initial(s0)
    ensures var s := Run(s0, acts);
      Leads(s0, acts, n) == if n in s.addresses then Some(s.addresses[n].channel) else None
  {
    if acts != [] {
      var before, a := acts[..|acts| - 1], acts[|acts| - 1];
      AddressesLead(s0, before, n);
      if a.CopyAddress? { AddressesLead(s0, before, a.name); }
    }
  }

  lemma {:induction false} AsksExpect(s0: State, acts: seq<Action>)
    requires Initial(s0)
    ensures |Run(s0, acts).exchanges| == |Expected(acts)|
    ensures forall i | 0 <= i < |Expected(acts)| :: Run(s0, acts).exchanges[i].expected == Expected(acts)[i]
  {
    hide Next;
    if acts != [] {
      AsksExpect(s0, acts[..|acts| - 1]);
      AsksMade(Run(s0, acts[..|acts| - 1]), acts[|acts| - 1]);
    }
  }

  lemma AsksMade(s: State, a: Action)
    ensures var t := Next(s, a);
      && |t.exchanges| == |s.exchanges| + (if a.NewAsk? then 1 else 0)
      && (forall i | 0 <= i < |s.exchanges| :: t.exchanges[i].expected == s.exchanges[i].expected)
      && (a.NewAsk? ==> t.exchanges[|s.exchanges|].expected == a.expected)
  {
  }

  /** An exchange against the first reply its channel was sent. */
  ghost predicate Reflects(e: Exchange, first: Option<Action>, i: nat) {
    && (first.Some? ==> first.value.SendReply?)
    && match e.stage {
         case Done(Ok(body)) => first.Some? && first.value.ty == e.expected && first.value.body == body
         case Done(Err(UnexpectedReply(ty))) => first.Some? && first.value.ty == ty && ty != e.expected
         case Done(Err(TimedOut)) => true
         case Done(Err(_)) => first.None?
         case _ => e.queued == if first.Some? then [Reply(i, first.value.ty, first.value.body)] else []
       }
  }

  lemma StepReflects(s: State, a: Action, i: nat, first: Option<Action>)
    requires Inv(s) && i < |s.exchanges| && Reflects(s.exchanges[i], first, i)
    ensures var replies := a.SendReply? && a.name in s.addresses && s.addresses[a.name].channel == i;
      i < |Next(s, a).exchanges| && Reflects(Next(s, a).exchanges[i], if first.None? && replies then Some(a) else first, i)
  {
    assert ExchangeInv(s, i);
    if a.SendReply? && a.name in s.addresses {
      assert AddressInv(s, a.name);
      assert HeldElsewhere(s, s.addresses[a.name].channel);
    }
  }

  lemma {:induction false} RunReflects(s0: State, acts: seq<Action>, i: nat)
    requires Initial(s0)
    ensures if i < |Run(s0, acts).exchanges| then Reflects(Run(s0, acts).exchanges[i], FirstAnswer(s0, acts, i), i)
            else FirstAnswer(s0, acts, i).None?
  {
    hide Next, Inv, Reflects;
    if acts != [] {
      var before, a := acts[..|acts| - 1], acts[|acts| - 1];
      var was := Run(s0, before);
      RunReflects(s0, before, i);
      RunKeepsInv(s0, before);
      if a.SendReply? { AddressesLead(s0, before, a.name); }
      if i < |was.exchanges| {
        StepReflects(was, a, i, FirstAnswer(s0, before, i));
      } else {
        NotAskedYet(was, a, i);
      }
    }
  }

  /** A reply cannot come before its ask, which starts with none. */
  lemma NotAskedYet(s: State, a: Action, i: nat)
    requires Inv(s) && i >= |s.exchanges|
    ensures a.SendReply? && a.name in s.addresses ==> s.addresses[a.name].channel != i
    ensures i < |Next(s, a).exchanges| ==> Reflects(Next(s, a).exchanges[i], None, i)
  {
    if a.SendReply? && a.name in s.addresses {
      assert AddressInv(s, a.name);
    }
  }

  // ----- the results -----

  /**
   Whatever an ask returns is its own. An answer, of the right type or the wrong one, is the
   first reply that anybody in the run sent through a live address that came with this very
   request: what was sent first, not what was sent last. `NoReply` and the delivery failures are
   returned only when nobody ever did, and no copy of the address is left to do so.
   */
  lemma EachAskGetsItsOwnFirstReply(s0: State, acts: seq<Action>, i: nat)
    requires Initial(s0)
    requires i < |Run(s0, acts).exchanges| && Run(s0, acts).exchanges[i].stage.Done?
    ensures i < |Expected(acts)|
    ensures match Run(s0, acts).exchanges[i].stage.result {
        case Ok(body) => exists k ::
          AnswersFirst(s0, acts, k, i) && acts[k].ty == Expected(acts)[i] && acts[k].body == body
        case Err(UnexpectedReply(ty)) => exists k ::
          AnswersFirst(s0, acts, k, i) && acts[k].ty == ty && ty != Expected(acts)[i]
        case Err(TimedOut) => true
        case Err(_) => (forall k :: !Answers(s0, acts, k, i)) && !HeldElsewhere(Run(s0, acts), i)
      }
  {
    RunKeepsInv(s0, acts);
    assert ExchangeInv(Run(s0, acts), i);
    AsksExpect(s0, acts);
    RunReflects(s0, acts, i);
    FirstAnswerIsFirst(s0, acts, i);
  }

  /** Once an ask has returned, nothing anybody does changes its answer. */
  lemma {:induction false} OneAnswerOnly(s: State, acts: seq<Action>, i: nat)
    requires i < |s.exchanges| && s.exchanges[i].stage.Done?
    ensures i < |Run(s, acts).exchanges| && Run(s, acts).exchanges[i] == s.exchanges[i]
  {
    hide Next;
    if acts != [] {
      OneAnswerOnly(s, acts[..|acts| - 1], i);
      DoneStays(Run(s, acts[..|acts| - 1]), acts[|acts| - 1], i);
    }
  }

  lemma DoneStays(s: State, a: Action, i: nat)
    requires i < |s.exchanges| && s.exchanges[i].stage.Done?
    ensures i < |Next(s, a).exchanges| && Next(s, a).exchanges[i] == s.exchanges[i]
  {
  }

  /** A step of the reply half: everything but a request being made, delivered, refused, or given up before delivery. */
  ghost predicate AfterDelivery(s: State, a: Action) {
    !a.NewAsk? && !a.Deliver? && !a.Refuse? && !(a.TimeOut? && Is(s, a.ask, Sending))
  }

  /** In the reply half an exchange only moves on, and ends in one of the ways a delivered request may. */
  lemma ReplyHalf(s: State, a: Action, i: nat)
    requires AfterDelivery(s, a) && i < |s.exchanges|
    ensures |Next(s, a).exchanges| == |s.exchanges|
    ensures var was, now := s.exchanges[i], Next(s, a).exchanges[i];
      match was.stage {
        case Sending => now.stage == Sending
        case Done(_) => now == was
        case _ => now.stage.Delivered? || now.stage.Awaiting?
                  || (now.stage.Done? && now.stage.result != Err(Undeliverable) && now.stage.result != Err(CancelledBeforeDelivery))
      }
  {
  }

  /** The asker can take a step of its own, other than giving up on its deadline. */
  ghost predicate CanFinish(s: State, i: nat)
    requires i < |s.exchanges|
  {
    Next(s, Receive(i)) != s || Next(s, SeeClosed(i)) != s
  }

  /**
   Why an ask cannot hang. Having dropped its own copy, an asker that is waiting can finish by
   itself, short of its deadline, exactly unless its channel is empty and somebody else still
   holds a live address to it.
   */
  lemma WaitsOnlyOnALiveAddress(s0: State, acts: seq<Action>, i: nat)
    requires Initial(s0) && s0.dropsOwnCopy
    requires Is(Run(s0, acts), i, Awaiting)
    ensures var s := Run(s0, acts);
      CanFinish(s, i) <==> !Empty(s.exchanges[i]) || !HeldElsewhere(s, i)
  {
    RunKeepsInv(s0, acts);
    var s := Run(s0, acts);
    assert ExchangeInv(s, i);
    if !Empty(s.exchanges[i]) {
      assert Next(s, Receive(i)).exchanges[i].stage.Done?;
    } else if !HeldElsewhere(s, i) {
      assert Next(s, SeeClosed(i)).exchanges[i].stage.Done?;
    }
  }

  /**
   The explicit drop is what earns that. An exchange that kept its envelope across the wait
   would, once the request was let go of unanswered, wait for ever: nothing but its deadline could end it.
   */
  lemma {:induction false} KeepingTheEnvelopeHangs(s: State, acts: seq<Action>, i: nat)
    requires Inv(s) && !s.dropsOwnCopy && Is(s, i, Awaiting) && s.exchanges[i].queued == [] && !HeldElsewhere(s, i)
    requires TimeOut(i) !in acts
    ensures var t := Run(s, acts);
      && Inv(t) && !t.dropsOwnCopy && Is(t, i, Awaiting)
      && t.exchanges[i].queued == [] && !HeldElsewhere(t, i) && !CanFinish(t, i)
  {
    if acts == [] {
      assert ExchangeInv(s, i);
    } else {
      var was, a := Run(s, acts[..|acts| - 1]), acts[|acts| - 1];
      KeepingTheEnvelopeHangs(s, acts[..|acts| - 1], i);
      StepKeepsInv(was, a);
      assert ExchangeInv(was, i);
      HangStep(was, a, i);
      assert ExchangeInv(Next(was, a), i);
    }
  }

  lemma HangStep(s: State, a: Action, i: nat)
    requires Inv(s) && !s.dropsOwnCopy && Is(s, i, Awaiting) && s.exchanges[i].queued == [] && !HeldElsewhere(s, i)
    requires s.exchanges[i].ownCopy && a != TimeOut(i)
    ensures var t := Next(s, a);
      !t.dropsOwnCopy && Is(t, i, Awaiting) && t.exchanges[i].queued == [] && !HeldElsewhere(t, i)
  {
  }

  /** The state that hangs is reached by an ordinary run: deliver, wait, and let go of the request unanswered. */
  lemma TheHangIsReachable(s0: State, expected: nat)
    requires Initial(s0) && !s0.dropsOwnCopy
    ensures var s := Run(s0, [NewAsk(expected), Deliver(0, 0), DropEnvelope(0), DropAddress(0)]);
      Inv(s) && Is(s, 0, Awaiting) && s.exchanges[0].queued == [] && !HeldElsewhere(s, 0)
  {
    hide Inv, Next;
    HangInFourSteps(s0, expected);
    var acts := [NewAsk(expected), Deliver(0, 0), DropEnvelope(0), DropAddress(0)];
    RunKeepsInv(s0, acts);
    RunSnoc(s0, [], NewAsk(expected));
    RunSnoc(s0, [NewAsk(expected)], Deliver(0, 0));
    RunSnoc(s0, [NewAsk(expected), Deliver(0, 0)], DropEnvelope(0));
    RunSnoc(s0, [NewAsk(expected), Deliver(0, 0), DropEnvelope(0)], DropAddress(0));
    assert [] + [NewAsk(expected)] == [NewAsk(expected)];
    assert [NewAsk(expected)] + [Deliver(0, 0)] == [NewAsk(expected), Deliver(0, 0)];
    assert [NewAsk(expected), Deliver(0, 0)] + [DropEnvelope(0)] == [NewAsk(expected), Deliver(0, 0), DropEnvelope(0)];
    assert acts == [NewAsk(expected), Deliver(0, 0), DropEnvelope(0)] + [DropAddress(0)];
  }

  lemma HangInFourSteps(s0: State, expected: nat)
    requires Initial(s0) && !s0.dropsOwnCopy
    ensures var s := Next(Next(Next(Next(s0, NewAsk(expected)), Deliver(0, 0)), DropEnvelope(0)), DropAddress(0));
      Is(s, 0, Awaiting) && s.exchanges[0].queued == [] && !HeldElsewhere(s, 0)
  {
    var sent := Next(Next(s0, NewAsk(expected)), Deliver(0, 0));
    assert sent.exchanges == [Exchange(Delivered, expected, true, [], 0)];
    assert sent.addresses == map[0 := Address(0, 0)];
  }

  lemma RunSnoc(s: State, acts: seq<Action>, a: Action)
    ensures Run(s, acts + [a]) == Next(Run(s, acts), a)
  {
    assert (acts + [a])[..|acts|] == acts;
  }
}
