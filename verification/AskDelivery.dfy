/**
 Asks over real inboxes: the request half of an exchange driven by the send path.

 Every ask is one awaited send of some sender into its recipient's inbox, among that sender's
 other sends and everybody else's. Its reply address goes live when its message lands, it is
 refused when its send fails, and its deadline may drop it while it waits for room. The reply half
 is the ask protocol, of which every run here is a run.
 */
module AskDelivery {
  import opened Wrappers
  import SendPath
  import Ask

  /** Which send an ask is: the `index`-th of `sender`, into the inbox `recipient`. */
  datatype Request = Request(recipient: nat, sender: nat, index: nat)

  datatype State = State(asks: Ask.State, inboxes: map<nat, SendPath.State>, requests: seq<Request>)

  datatype Action =
    | InboxStep(recipient: nat, step: SendPath.Action)
    | BeginAsk(expected: nat, recipient: nat, sender: nat)
    | PushRequest(ask: nat, name: nat)
    | SeeFailure(ask: nat)
    | GiveUpSending(ask: nat)
    | ReplyStep(reply: Ask.Action)

  /** Ask `i` is still sending. */
  ghost predicate Sending(s: State, i: nat) {
    && i < |s.requests| && Ask.Is(s.asks, i, Ask.Sending)
    && s.requests[i].recipient in s.inboxes
    && s.requests[i].sender in s.inboxes[s.requests[i].recipient].senders
  }

  ghost function SenderOf(s: State, i: nat): SendPath.Sender
    requires Sending(s, i)
  {
    s.inboxes[s.requests[i].recipient].senders[s.requests[i].sender]
  }

  /** The send under way at `who` is ask `i`. */
  ghost predicate Owns(s: State, i: nat, recipient: nat, who: nat) {
    && Sending(s, i) && s.requests[i].recipient == recipient && s.requests[i].sender == who
    && s.requests[i].index == |SenderOf(s, i).outcomes|
  }

  /** An ask fills its slot, and gives up, by steps of its own. */
  ghost predicate Reserved(s: State, recipient: nat, a: SendPath.Action) {
    (a.PushIntoSlot? || a.GiveUp?) && exists i: nat :: Owns(s, i, recipient, a.who)
  }

  ghost function StepInbox(s: State, r: nat, a: SendPath.Action): State
    requires r in s.inboxes
  {
    s.(inboxes := s.inboxes[r := SendPath.Next(s.inboxes[r], a)])
  }

  ghost function StepAsks(s: State, a: Ask.Action): State {
    s.(asks := Ask.Next(s.asks, a))
  }

  ghost function Next(s: State, a: Action): State {
    match a
    case InboxStep(r, step) =>
      if r in s.inboxes && !Reserved(s, r, step) then StepInbox(s, r, step) else s
    case BeginAsk(expected, r, who) =>
      if r in s.inboxes && SendPath.Is(s.inboxes[r], who, SendPath.Ready) then
        var index := |s.inboxes[r].senders[who].outcomes|;
        StepAsks(StepInbox(s, r, SendPath.Begin(who)), Ask.NewAsk(expected)).(
          requests := s.requests + [Request(r, who, index)])
      else s
    case PushRequest(i, name) =>
      if Sending(s, i) && Owns(s, i, s.requests[i].recipient, s.requests[i].sender)
         && SenderOf(s, i).stage == SendPath.Holding && name !in s.asks.addresses then
        StepAsks(StepInbox(s, s.requests[i].recipient, SendPath.PushIntoSlot(s.requests[i].sender)), Ask.Deliver(i, name))
      else s
    case SeeFailure(i) =>
      if Sending(s, i) && s.requests[i].index < |SenderOf(s, i).outcomes|
         && SenderOf(s, i).outcomes[s.requests[i].index].Failed? then
        StepAsks(s, Ask.Refuse(i, SenderOf(s, i).outcomes[s.requests[i].index].error))
      else s
    case GiveUpSending(i) =>
      if Sending(s, i) && Owns(s, i, s.requests[i].recipient, s.requests[i].sender)
         && SenderOf(s, i).stage == SendPath.Waiting then
        StepAsks(StepInbox(s, s.requests[i].recipient, SendPath.GiveUp(s.requests[i].sender)), Ask.TimeOut(i))
      else s
    case ReplyStep(step) =>
      if Ask.AfterDelivery(s.asks, step) then StepAsks(s, step) else s
  }

  ghost predicate Initial(s: State) {
    Ask.Initial(s.asks) && s.requests == [] && forall r | r in s.inboxes :: SendPath.Initial(s.inboxes[r])
  }

  ghost function Run(s: State, acts: seq<Action>): State {
    if acts == [] then s else Next(Run(s, acts[..|acts| - 1]), acts[|acts| - 1])
  }

  // ----- every run is a run of the ask protocol -----

  ghost function AskSteps(s: State, a: Action): seq<Ask.Action> {
    if Next(s, a).asks == s.asks then []
    else match a
      case BeginAsk(expected, _, _) => [Ask.NewAsk(expected)]
      case PushRequest(i, name) => [Ask.Deliver(i, name)]
      case SeeFailure(i) =>
        if Sending(s, i) && s.requests[i].index < |SenderOf(s, i).outcomes|
           && SenderOf(s, i).outcomes[s.requests[i].index].Failed?
        then [Ask.Refuse(i, SenderOf(s, i).outcomes[s.requests[i].index].error)] else []
      case GiveUpSending(i) => [Ask.TimeOut(i)]
      case ReplyStep(step) => [step]
      case InboxStep(_, _) => []
  }

  ghost function AskRun(s: State, acts: seq<Action>): seq<Ask.Action> {
    if acts == [] then []
    else AskRun(s, acts[..|acts| - 1]) + AskSteps(Run(s, acts[..|acts| - 1]), acts[|acts| - 1])
  }

  /** So everything proved of the ask protocol holds of asks over inboxes. */
  lemma {:induction false} RefinesTheAskProtocol(s: State, acts: seq<Action>)
    ensures Run(s, acts).asks == Ask.Run(s.asks, AskRun(s, acts))
  {
    if acts != [] {
      var before, a := acts[..|acts| - 1], acts[|acts| - 1];
      RefinesTheAskProtocol(s, before);
      var steps := AskSteps(Run(s, before), a);
      OneAskStep(Run(s, before), a);
      if steps == [] {
        assert AskRun(s, acts) == AskRun(s, before);
      } else {
        assert AskRun(s, acts) == AskRun(s, before) + [steps[0]];
        Ask.RunSnoc(s.asks, AskRun(s, before), steps[0]);
      }
    }
  }

  lemma OneAskStep(s: State, a: Action)
    ensures var steps := AskSteps(s, a);
      if steps == [] then Next(s, a).asks == s.asks else steps == [steps[0]] && Next(s, a).asks == Ask.Next(s.asks, steps[0])
  {
  }

  // ----- the invariant -----

  /** What each result says of the ask's own send. */
  ghost predicate Accounts(result: Result<int, Ask.AskError>, o: SendPath.Outcome) {
    match result
    case Ok(_) => o == SendPath.Sent
    case Err(NoReply) => o == SendPath.Sent
    case Err(UnexpectedReply(_)) => o == SendPath.Sent
    case Err(TimedOut) => o == SendPath.Sent || o == SendPath.Dropped
    case Err(Undeliverable) => o.Failed? && !o.error.Cancelled?
    case Err(CancelledBeforeDelivery) => o == SendPath.Failed(SendPath.Cancelled)
  }

  ghost predicate RequestFits(stage: Ask.Stage, index: nat, sender: SendPath.Sender) {
    if index < |sender.outcomes| then
      match stage
      case Sending => sender.outcomes[index].Failed?
      case Done(result) => Accounts(result, sender.outcomes[index])
      case _ => sender.outcomes[index] == SendPath.Sent
    else stage.Sending? && index == |sender.outcomes| && sender.stage != SendPath.Ready
  }

  ghost predicate RequestInv(s: State, i: nat)
    requires i < |s.requests| == |s.asks.exchanges|
  {
    var r := s.requests[i];
    && r.recipient in s.inboxes && r.sender in s.inboxes[r.recipient].senders
    && RequestFits(s.asks.exchanges[i].stage, r.index, s.inboxes[r.recipient].senders[r.sender])
  }

  ghost predicate Inv(s: State) {
    && |s.requests| == |s.asks.exchanges|
    && (forall r | r in s.inboxes :: SendPath.Inv(s.inboxes[r]) && SendPath.Causes(s.inboxes[r]))
    && (forall i: nat | i < |s.requests| :: RequestInv(s, i))
    && (forall i, j | 0 <= i < j < |s.requests| :: s.requests[i] != s.requests[j])
  }

  lemma InboxKept(s: State, r: nat, a: SendPath.Action)
    requires Inv(s) && r in s.inboxes
    ensures var t := StepInbox(s, r, a); forall q | q in t.inboxes :: SendPath.Inv(t.inboxes[q]) && SendPath.Causes(t.inboxes[q])
  {
    SendPath.StepKeepsInv(s.inboxes[r], a);
    SendPath.StepKeepsCauses(s.inboxes[r], a);
  }

  /** An inbox step leaves every ask fitting its send, unless it is the ask's own send that ends. */
  lemma RequestKept(s: State, r: nat, a: SendPath.Action, i: nat)
    requires Inv(s) && r in s.inboxes && i < |s.requests|
    requires Owns(s, i, r, s.requests[i].sender) ==>
               a != SendPath.PushIntoSlot(s.requests[i].sender) && a != SendPath.GiveUp(s.requests[i].sender)
    ensures RequestInv(StepInbox(s, r, a), i)
  {
    hide SendPath.Next, SendPath.Inv, SendPath.Causes;
    assert RequestInv(s, i);
    var q := s.requests[i];
    if q.recipient == r {
      SendPath.OutcomesGrow(s.inboxes[r], a, q.sender);
      if s.inboxes[r].senders[q.sender].stage != SendPath.Ready {
        SendPath.MidSendStep(s.inboxes[r], a, q.sender);
      }
    }
  }

  lemma StepInboxKeeps(s: State, r: nat, a: SendPath.Action)
    requires Inv(s) && r in s.inboxes && !Reserved(s, r, a)
    ensures Inv(StepInbox(s, r, a))
  {
    hide SendPath.Next;
    InboxKept(s, r, a);
    var t := StepInbox(s, r, a);
    forall i: nat | i < |t.requests| ensures RequestInv(t, i) {
      RequestKept(s, r, a, i);
    }
  }

  lemma BeginAskKeeps(s: State, expected: nat, r: nat, who: nat)
    requires Inv(s) && r in s.inboxes && SendPath.Is(s.inboxes[r], who, SendPath.Ready)
    ensures Inv(Next(s, BeginAsk(expected, r, who)))
  {
    var t := Next(s, BeginAsk(expected, r, who));
    var u := StepInbox(s, r, SendPath.Begin(who));
    StepInboxKeeps(s, r, SendPath.Begin(who));
    var n := |s.requests|;
    forall i: nat | i < |t.requests| ensures RequestInv(t, i) {
      if i < n { assert RequestInv(u, i); }
    }
    forall i, j | 0 <= i < j < |t.requests| ensures t.requests[i] != t.requests[j] {
      if j == n { assert RequestInv(s, i); }
    }
  }

  /** Ask `i` ends its own send, and moves on as that end says. */
  lemma OwnSendKeeps(s: State, i: nat, a: SendPath.Action, step: Ask.Action)
    requires Inv(s) && Sending(s, i) && Owns(s, i, s.requests[i].recipient, s.requests[i].sender)
    requires (a == SendPath.PushIntoSlot(s.requests[i].sender) && SenderOf(s, i).stage == SendPath.Holding
              && step.Deliver? && step.ask == i && step.name !in s.asks.addresses)
             || (a == SendPath.GiveUp(s.requests[i].sender) && SenderOf(s, i).stage == SendPath.Waiting
                 && step == Ask.TimeOut(i))
    ensures Inv(StepAsks(StepInbox(s, s.requests[i].recipient, a), step))
  {
    hide SendPath.Inv, SendPath.Causes;
    var r := s.requests[i].recipient;
    var t := StepAsks(StepInbox(s, r, a), step);
    InboxKept(s, r, a);
    forall j: nat | j < |t.requests| ensures RequestInv(t, j) {
      assert RequestInv(s, j);
      if j != i {
        assert !(s.requests[j] == s.requests[i]);
        RequestKept(s, r, a, j);
        assert t.asks.exchanges[j] == s.asks.exchanges[j];
      }
    }
  }

  lemma RefusalKeeps(s: State, i: nat)
    requires Inv(s)
    ensures Inv(Next(s, SeeFailure(i)))
  {
    var t := Next(s, SeeFailure(i));
    if t != s {
      forall j: nat | j < |t.requests| ensures RequestInv(t, j) {
        assert RequestInv(s, j);
      }
    }
  }

  lemma ReplyKeeps(s: State, step: Ask.Action)
    requires Inv(s) && Ask.AfterDelivery(s.asks, step)
    ensures Inv(StepAsks(s, step))
  {
    hide Ask.Next;
    var t := StepAsks(s, step);
    if |s.requests| == 0 {
      NoAsksYet(s.asks, step);
    } else {
      Ask.ReplyHalf(s.asks, step, 0);
    }
    forall j: nat | j < |t.requests| ensures RequestInv(t, j) {
      assert RequestInv(s, j);
      Ask.ReplyHalf(s.asks, step, j);
    }
  }

  lemma NoAsksYet(s: Ask.State, step: Ask.Action)
    requires Ask.AfterDelivery(s, step) && s.exchanges == []
    ensures Ask.Next(s, step).exchanges == []
  {
  }

  lemma StepKeepsInv(s: State, a: Action)
    requires Inv(s)
    ensures Inv(Next(s, a))
  {
    hide SendPath.Next, Ask.Next, Inv;
    match a
    case InboxStep(r, step) => if r in s.inboxes && !Reserved(s, r, step) { StepInboxKeeps(s, r, step); }
    case BeginAsk(expected, r, who) =>
      if r in s.inboxes && SendPath.Is(s.inboxes[r], who, SendPath.Ready) { BeginAskKeeps(s, expected, r, who); }
    case PushRequest(i, name) =>
      if Next(s, a) != s { OwnSendKeeps(s, i, SendPath.PushIntoSlot(s.requests[i].sender), Ask.Deliver(i, name)); }
    case SeeFailure(i) => RefusalKeeps(s, i);
    case GiveUpSending(i) =>
      if Next(s, a) != s { OwnSendKeeps(s, i, SendPath.GiveUp(s.requests[i].sender), Ask.TimeOut(i)); }
    case ReplyStep(step) => if Ask.AfterDelivery(s.asks, step) { ReplyKeeps(s, step); }
  }

  lemma {:induction false} RunKeepsInv(s: State, acts: seq<Action>)
    requires Initial(s)
    ensures Inv(Run(s, acts))
  {
    hide Next;
    if acts == [] {
      forall r | r in s.inboxes ensures SendPath.Inv(s.inboxes[r]) && SendPath.Causes(s.inboxes[r]) {
        SendPath.RunKeepsInv(s.inboxes[r], []);
        SendPath.ErrorsHaveCauses(s.inboxes[r], []);
      }
    } else {
      RunKeepsInv(s, acts[..|acts| - 1]);
      StepKeepsInv(Run(s, acts[..|acts| - 1]), acts[|acts| - 1]);
    }
  }

  // ----- the results -----

  /** How often the request of ask `i` has ever been in its recipient's inbox. */
  ghost function Arrivals(s: State, i: nat): nat
    requires i < |s.requests| && s.requests[i].recipient in s.inboxes
  {
    multiset(s.inboxes[s.requests[i].recipient].history)[SendPath.Letter(s.requests[i].sender, s.requests[i].index)]
  }

  /**
   What an ask returns is true of its request, in every run and from then on. An answer of either
   type, or `NoReply`, means the request reached the inbox, once. A delivery failure means it never
   did: cancelled, because that sender's token is, and otherwise because the inbox has closed.
   */
  lemma ResultsTellOfTheRequest(s0: State, acts: seq<Action>, i: nat)
    requires Initial(s0)
    requires i < |Run(s0, acts).asks.exchanges| && Run(s0, acts).asks.exchanges[i].stage.Done?
    ensures var s := Run(s0, acts);
      && i < |s.requests| && s.requests[i].recipient in s.inboxes
      && s.requests[i].sender in s.inboxes[s.requests[i].recipient].senders
      && var inbox := s.inboxes[s.requests[i].recipient];
         match s.asks.exchanges[i].stage.result {
           case Err(Undeliverable) => Arrivals(s, i) == 0 && !inbox.open
           case Err(CancelledBeforeDelivery) => Arrivals(s, i) == 0 && inbox.senders[s.requests[i].sender].cancelled
           case Err(TimedOut) => Arrivals(s, i) <= 1
           case _ => Arrivals(s, i) == 1
         }
  {
    RunKeepsInv(s0, acts);
    var s := Run(s0, acts);
    assert RequestInv(s, i);
    ArrivalsByOutcome(s, i);
  }

  lemma ArrivalsByOutcome(s: State, i: nat)
    requires Inv(s) && i < |s.requests| && RequestInv(s, i)
    ensures var inbox := s.inboxes[s.requests[i].recipient];
      var sender, k := inbox.senders[s.requests[i].sender], s.requests[i].index;
      && Arrivals(s, i) == (if k < |sender.outcomes| && sender.outcomes[k].Sent? then 1 else 0)
      && (k < |sender.outcomes| && sender.outcomes[k].Failed? ==>
            if sender.outcomes[k].error.Cancelled? then sender.cancelled else !inbox.open)
  {
    var inbox := s.inboxes[s.requests[i].recipient];
    var l := SendPath.Letter(s.requests[i].sender, s.requests[i].index);
    assert multiset(inbox.history)[l] == if SendPath.Arrived(inbox, l) then 1 else 0;
  }

  lemma RunSnoc(s: State, acts: seq<Action>, a: Action)
    ensures Run(s, acts + [a]) == Next(Run(s, acts), a)
  {
    assert (acts + [a])[..|acts|] == acts;
  }

  ghost predicate CanBeEnded(s: State, i: nat) {
    exists more: seq<Action> ::
      i < |Run(s, more).asks.exchanges| && Run(s, more).asks.exchanges[i].stage.Done?
  }

  lemma {:induction false} RunCons(s: State, a: Action, rest: seq<Action>)
    ensures Run(s, [a] + rest) == Run(Next(s, a), rest)
  {
    hide Next;
    if rest == [] {
      assert [a] + rest == [a] && [a][..0] == [];
    } else {
      var n := |rest| - 1;
      assert ([a] + rest)[..1 + n] == [a] + rest[..n];
      RunCons(s, a, rest[..n]);
    }
  }

  /** If one step leads to where it can be ended, it can be ended from here. */
  lemma OneStepNearer(s: State, a: Action, i: nat)
    requires CanBeEnded(Next(s, a), i)
    ensures CanBeEnded(s, i)
  {
    var rest: seq<Action> :|
      i < |Run(Next(s, a), rest).asks.exchanges| && Run(Next(s, a), rest).asks.exchanges[i].stage.Done?;
    RunCons(s, a, rest);
    assert Run(s, [a] + rest) == Run(Next(s, a), rest);
  }

  lemma EndedIsEnded(s: State, i: nat)
    requires i < |s.asks.exchanges| && s.asks.exchanges[i].stage.Done?
    ensures CanBeEnded(s, i)
  {
    assert Run(s, []) == s;
  }

  /** After delivery the deadline ends it. */
  lemma DeadlineEndsIt(s: State, i: nat)
    requires i < |s.asks.exchanges| && !s.asks.exchanges[i].stage.Sending? && !s.asks.exchanges[i].stage.Done?
    ensures CanBeEnded(s, i)
  {
    var t := Next(s, ReplyStep(Ask.TimeOut(i)));
    EndedIsEnded(t, i);
    OneStepNearer(s, ReplyStep(Ask.TimeOut(i)), i);
  }

  /** A send that has ended, or has to wait, lets the ask return; one that has its slot delivers it. */
  lemma AttemptedEndsIt(s: State, i: nat)
    requires Inv(s) && i < |s.requests| && Sending(s, i)
    requires SenderOf(s, i).stage != SendPath.Trying || s.requests[i].index < |SenderOf(s, i).outcomes|
    ensures CanBeEnded(s, i)
  {
    hide SendPath.Inv, SendPath.Causes;
    assert RequestInv(s, i);
    if s.requests[i].index < |SenderOf(s, i).outcomes| {
      EndedIsEnded(Next(s, SeeFailure(i)), i);
      OneStepNearer(s, SeeFailure(i), i);
    } else if SenderOf(s, i).stage == SendPath.Waiting {
      EndedIsEnded(Next(s, GiveUpSending(i)), i);
      OneStepNearer(s, GiveUpSending(i), i);
    } else {
      var name := FreshName(s.asks.addresses.Keys);
      DeadlineEndsIt(Next(s, PushRequest(i, name)), i);
      OneStepNearer(s, PushRequest(i, name), i);
    }
  }

  lemma {:induction false} FreshName(names: set<nat>) returns (name: nat)
    ensures name !in names && forall n | n in names :: n < name
  {
    if names == {} {
      name := 0;
    } else {
      var n :| n in names;
      var rest := FreshName(names - {n});
      name := if n < rest then rest else n + 1;
      assert forall m | m in names :: m == n || m in names - {n};
    }
  }

  /**
   No ask hangs. From every reachable state, whatever its recipient, its inbox and everybody else have
   done, the exchange and its deadline between them can bring any ask that was made to its end.
   */
  lemma EveryAskCanBeEnded(s0: State, acts: seq<Action>, i: nat)
    requires Initial(s0) && i < |Run(s0, acts).asks.exchanges|
    ensures CanBeEnded(Run(s0, acts), i)
  {
    hide SendPath.Inv, SendPath.Causes;
    var s := Run(s0, acts);
    RunKeepsInv(s0, acts);
    assert RequestInv(s, i);
    if s.asks.exchanges[i].stage.Done? {
      EndedIsEnded(s, i);
    } else if !s.asks.exchanges[i].stage.Sending? {
      DeadlineEndsIt(s, i);
    } else if SenderOf(s, i).stage == SendPath.Trying && s.requests[i].index >= |SenderOf(s, i).outcomes| {
      var a := InboxStep(s.requests[i].recipient, SendPath.TryReserve(s.requests[i].sender));
      StepKeepsInv(s, a);
      SendPath.TriesOnce(s.inboxes[s.requests[i].recipient], s.requests[i].sender);
      AttemptedEndsIt(Next(s, a), i);
      OneStepNearer(s, a, i);
    } else {
      AttemptedEndsIt(s, i);
    }
  }

  /** The token of this sender has been cancelled. */
  ghost predicate TokenCancelled(s: State, r: nat, who: nat) {
    r in s.inboxes && who in s.inboxes[r].senders && s.inboxes[r].senders[who].cancelled
  }

  lemma TokenKept(s: State, a: Action, r: nat, who: nat)
    requires a != InboxStep(r, SendPath.CancelToken(who))
    ensures TokenCancelled(Next(s, a), r, who) ==> TokenCancelled(s, r, who)
  {
    hide Ask.Next;
  }

  lemma {:induction false} TokensAreCancelledByName(s: State, acts: seq<Action>, r: nat, who: nat)
    requires !TokenCancelled(s, r, who) && InboxStep(r, SendPath.CancelToken(who)) !in acts
    ensures !TokenCancelled(Run(s, acts), r, who)
  {
    hide Next;
    if acts != [] {
      TokensAreCancelledByName(s, acts[..|acts| - 1], r, who);
      TokenKept(Run(s, acts[..|acts| - 1]), acts[|acts| - 1], r, who);
    }
  }

  /**
   An ask sends under the handle's own token. While nobody cancels that, no ask is ever reported as
   cancelled, whatever else closes, fills or stops.
   */
  lemma OnlyACancelledTokenCancelsAnAsk(s0: State, acts: seq<Action>, i: nat)
    requires Initial(s0)
    requires i < |Run(s0, acts).asks.exchanges|
    requires Run(s0, acts).asks.exchanges[i].stage == Ask.Done(Err(Ask.CancelledBeforeDelivery))
    ensures var s := Run(s0, acts);
      && i < |s.requests|
      && var q := s.requests[i];
         TokenCancelled(s0, q.recipient, q.sender) || InboxStep(q.recipient, SendPath.CancelToken(q.sender)) in acts
  {
    ResultsTellOfTheRequest(s0, acts, i);
    var q := Run(s0, acts).requests[i];
    if !TokenCancelled(s0, q.recipient, q.sender) && InboxStep(q.recipient, SendPath.CancelToken(q.sender)) !in acts {
      TokensAreCancelledByName(s0, acts, q.recipient, q.sender);
    }
  }
}
