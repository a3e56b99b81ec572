/**
 Getting a message into an inbox: the fast path, the slow path, and everything that can
 happen between them.

 Any number of senders each work through their own messages, one awaited send at a time. The
 inbox fills, drains and closes, and tokens are cancelled, between any two steps. A sender
 that fails to get a slot at once waits for one; taking a slot and pushing into it are two
 steps, so the inbox may close in between, which does not revoke the slot.
 */
module SendPath {
  import opened Wrappers

  datatype SendError = Cancelled | ChannelClosed | SendFailed

  /** How a send ended. A caller that stops waiting drops the send, which then returns nothing to anybody. */
  datatype Outcome = Sent | Failed(error: SendError) | Dropped

  /** One message, named by its sender and its place among that sender's sends. */
  datatype Letter = Letter(sender: nat, index: nat)

  datatype Stage = Ready | Trying | Waiting | Holding

  /** `outcomes[k]` is how the sender's `k`-th send ended; `watches` is whether a wait looks at the token. */
  datatype Sender = Sender(stage: Stage, outcomes: seq<Outcome>, cancelled: bool, watches: bool)

  datatype State = State(
    history: seq<Letter>,     // everything ever pushed into the inbox
    taken: nat,               // how much of it the recipient has received
    open: bool,
    capacity: nat,
    holders: set<nat>,        // senders holding a reserved slot
    senders: map<nat, Sender>
  )

  datatype Action =
    | Begin(who: nat)
    | TryReserve(who: nat)
    | Reserve(who: nat)
    | SeeCancelled(who: nat)
    | GiveUp(who: nat)
    | PushIntoSlot(who: nat)
    | Receive
    | Close
    | CancelToken(who: nat)

  ghost predicate HasRoom(s: State) {
    |s.history| - s.taken + |s.holders| < s.capacity
  }

  ghost function At(s: State, i: nat, stage: Stage): State
    requires i in s.senders
  {
    s.(senders := s.senders[i := s.senders[i].(stage := stage)])
  }

  /** The send in progress ends. */
  ghost function Returns(s: State, i: nat, outcome: Outcome): State
    requires i in s.senders
  {
    s.(senders := s.senders[i := s.senders[i].(stage := Ready, outcomes := s.senders[i].outcomes + [outcome])])
  }

  ghost predicate Is(s: State, i: nat, stage: Stage) {
    i in s.senders && s.senders[i].stage == stage
  }

  ghost function Next(s: State, a: Action): State {
    match a
    case Begin(i) =>
      if !Is(s, i, Ready) then s
      else if s.senders[i].cancelled then Returns(s, i, Failed(Cancelled))
      else At(s, i, Trying)
    case TryReserve(i) =>
      if !Is(s, i, Trying) then s
      else if !s.open then Returns(s, i, Failed(ChannelClosed))
      else if HasRoom(s) then At(s, i, Holding).(holders := s.holders + {i})
      else At(s, i, Waiting)
    case Reserve(i) =>
      if !Is(s, i, Waiting) then s
      else if !s.open then Returns(s, i, Failed(SendFailed))
      else if HasRoom(s) then At(s, i, Holding).(holders := s.holders + {i})
      else s
    case SeeCancelled(i) =>
      if Is(s, i, Waiting) && s.senders[i].watches && s.senders[i].cancelled then Returns(s, i, Failed(Cancelled)) else s
    case GiveUp(i) => if Is(s, i, Waiting) then Returns(s, i, Dropped) else s
    case PushIntoSlot(i) =>
      if !Is(s, i, Holding) then s
      else
        Returns(s, i, Sent).(history := s.history + [Letter(i, |s.senders[i].outcomes|)], holders := s.holders - {i})
    case Receive => if s.taken < |s.history| then s.(taken := s.taken + 1) else s
    case Close => s.(open := false)
    case CancelToken(i) => if i in s.senders then s.(senders := s.senders[i := s.senders[i].(cancelled := true)]) else s
  }

  ghost predicate Initial(s: State) {
    && s.history == [] && s.taken == 0 && s.holders == {}
    && forall i | i in s.senders :: s.senders[i].stage == Ready && s.senders[i].outcomes == []
  }

  ghost function Run(s: State, acts: seq<Action>): State {
    if acts == [] then s else Next(Run(s, acts[..|acts| - 1]), acts[|acts| - 1])
  }

  // ----- the invariant -----

  ghost predicate Arrived(s: State, l: Letter) {
    l.sender in s.senders && l.index < |s.senders[l.sender].outcomes|
    && s.senders[l.sender].outcomes[l.index].Sent?
  }

  ghost predicate InOrder(history: seq<Letter>) {
    forall a, b | 0 <= a < b < |history| && history[a].sender == history[b].sender ::
      history[a].index < history[b].index
  }

  ghost predicate Inv(s: State) {
    && s.taken <= |s.history|
    && |s.history| - s.taken + |s.holders| <= s.capacity
    && (forall i: nat :: i in s.holders <==> Is(s, i, Holding))
    && (forall l: Letter :: multiset(s.history)[l] == if Arrived(s, l) then 1 else 0)
    && InOrder(s.history)
  }

  lemma SenderMoves(s: State, i: nat, stage: Stage)
    requires Inv(s) && i in s.senders && stage != Holding && s.senders[i].stage != Holding
    ensures Inv(At(s, i, stage))
  {
    var t := At(s, i, stage);
    forall l: Letter ensures Arrived(t, l) == Arrived(s, l) {
    }
    forall j: nat ensures Is(t, j, Holding) == Is(s, j, Holding) {
    }
  }

  lemma SenderFails(s: State, i: nat, o: Outcome)
    requires Inv(s) && i in s.senders && s.senders[i].stage != Holding && o != Sent
    ensures Inv(Returns(s, i, o))
  {
    var t := Returns(s, i, o);
    forall l: Letter ensures Arrived(t, l) == Arrived(s, l) {
    }
    forall j: nat ensures Is(t, j, Holding) == Is(s, j, Holding) {
    }
  }

  lemma SenderReserves(s: State, i: nat)
    requires Inv(s) && i in s.senders && s.senders[i].stage != Holding && HasRoom(s)
    ensures Inv(At(s, i, Holding).(holders := s.holders + {i}))
  {
    var t := At(s, i, Holding).(holders := s.holders + {i});
    assert i !in s.holders;
    forall l: Letter ensures Arrived(t, l) == Arrived(s, l) {
    }
    forall j: nat ensures j in t.holders <==> Is(t, j, Holding) {
      assert j != i ==> (j in s.holders <==> Is(s, j, Holding));
    }
  }

  lemma SenderPushes(s: State, i: nat)
    requires Inv(s) && Is(s, i, Holding)
    ensures Inv(Next(s, PushIntoSlot(i)))
  {
    var t := Next(s, PushIntoSlot(i));
    var pushed := Letter(i, |s.senders[i].outcomes|);
    assert i in s.holders && |t.holders| == |s.holders| - 1;
    assert multiset(t.history) == multiset(s.history) + multiset{pushed};
    forall l: Letter ensures multiset(t.history)[l] == if Arrived(t, l) then 1 else 0 {
      assert multiset(s.history)[l] == if Arrived(s, l) then 1 else 0;
    }
    forall a, b | 0 <= a < b < |t.history| && t.history[a].sender == t.history[b].sender
      ensures t.history[a].index < t.history[b].index
    {
      if b == |s.history| {
        assert s.history[a] in multiset(s.history);
        assert Arrived(s, s.history[a]);
      }
    }
    forall j: nat ensures j in t.holders <==> Is(t, j, Holding) {
      assert j in s.holders <==> Is(s, j, Holding);
    }
  }

  lemma StepKeepsInv(s: State, a: Action)
    requires Inv(s)
    ensures Inv(Next(s, a))
  {
    hide InOrder;
    match a
    case Begin(i) =>
      if Is(s, i, Ready) { SenderFails(s, i, Failed(Cancelled)); SenderMoves(s, i, Trying); }
    case TryReserve(i) =>
      if Is(s, i, Trying) {
        SenderFails(s, i, Failed(ChannelClosed));
        SenderMoves(s, i, Waiting);
        if HasRoom(s) { SenderReserves(s, i); }
      }
    case Reserve(i) =>
      if Is(s, i, Waiting) {
        SenderFails(s, i, Failed(SendFailed));
        if HasRoom(s) { SenderReserves(s, i); }
      }
    case SeeCancelled(i) => if Is(s, i, Waiting) { SenderFails(s, i, Failed(Cancelled)); }
    case GiveUp(i) => if Is(s, i, Waiting) { SenderFails(s, i, Dropped); }
    case PushIntoSlot(i) => if Is(s, i, Holding) { SenderPushes(s, i); }
    case Receive =>
    case Close => SameSenders(s, Next(s, a));
    case CancelToken(i) => SameSenders(s, Next(s, a));
  }

  lemma SameSenders(s: State, t: State)
    requires Inv(s) && t.history == s.history && t.taken == s.taken && t.holders == s.holders && t.capacity == s.capacity
    requires t.senders.Keys == s.senders.Keys
    requires forall i | i in s.senders ::
               t.senders[i].stage == s.senders[i].stage && t.senders[i].outcomes == s.senders[i].outcomes
    ensures Inv(t)
  {
    forall l: Letter ensures Arrived(t, l) == Arrived(s, l) {
    }
    forall j: nat ensures Is(t, j, Holding) == Is(s, j, Holding) {
    }
  }

  lemma {:induction false} RunKeepsInv(s: State, acts: seq<Action>)
    requires Initial(s)
    ensures Inv(Run(s, acts))
  {
    if acts == [] {
      assert multiset(s.history) == multiset{};
    } else {
      RunKeepsInv(s, acts[..|acts| - 1]);
      StepKeepsInv(Run(s, acts[..|acts| - 1]), acts[|acts| - 1]);
    }
  }

  // ----- the results -----

  /**
   A send's answer is the truth about its message, in every interleaving: it returned success
   exactly when the message is in the inbox's history, once; on any error, if its caller gave it
   up, and while the send is still under way, the message is not there at all.
   */
  lemma SuccessMeansAppendedOnce(s0: State, acts: seq<Action>, i: nat, k: nat)
    requires Initial(s0) && i in s0.senders
    ensures var s := Run(s0, acts);
      && i in s.senders
      && multiset(s.history)[Letter(i, k)]
         == if k < |s.senders[i].outcomes| && s.senders[i].outcomes[k].Sent? then 1 else 0
  {
    RunKeepsInv(s0, acts);
    SendersStay(s0, acts, i);
    var s := Run(s0, acts);
    assert multiset(s.history)[Letter(i, k)] == if Arrived(s, Letter(i, k)) then 1 else 0;
  }

  lemma {:induction false} SendersStay(s: State, acts: seq<Action>, i: nat)
    requires i in s.senders
    ensures i in Run(s, acts).senders && Run(s, acts).senders[i].watches == s.senders[i].watches
  {
    hide Next;
    if acts != [] {
      SendersStay(s, acts[..|acts| - 1], i);
      SenderStays(Run(s, acts[..|acts| - 1]), acts[|acts| - 1], i);
    }
  }

  lemma SenderStays(s: State, a: Action, i: nat)
    requires i in s.senders
    ensures i in Next(s, a).senders && Next(s, a).senders[i].watches == s.senders[i].watches
  {
    hide HasRoom;
  }

  /**
   Nothing new gets into a closed inbox. Whatever happens after it closes, only the slots
   reserved by then can still be filled.
   */
  lemma {:induction false} ClosedInboxFillsOnlyHeldSlots(s: State, acts: seq<Action>)
    requires Inv(s) && !s.open
    ensures var t := Run(s, acts);
      Inv(t) && !t.open && t.holders <= s.holders && |t.history| + |t.holders| == |s.history| + |s.holders|
  {
    hide Inv, Next;
    if acts != [] {
      ClosedInboxFillsOnlyHeldSlots(s, acts[..|acts| - 1]);
      StepKeepsInv(Run(s, acts[..|acts| - 1]), acts[|acts| - 1]);
      ClosedStep(Run(s, acts[..|acts| - 1]), acts[|acts| - 1]);
    }
  }

  lemma ClosedStep(s: State, a: Action)
    requires Inv(s) && !s.open
    ensures var t := Next(s, a);
      !t.open && t.holders <= s.holders && |t.history| + |t.holders| == |s.history| + |s.holders|
  {
    if a.PushIntoSlot? && Is(s, a.who, Holding) {
      assert a.who in s.holders;
    }
  }

  /** Once a sender's token is cancelled, every send it begins is refused, and nothing more of it arrives. */
  lemma {:induction false} CancelledSenderIsSilent(s: State, acts: seq<Action>, i: nat, k: nat)
    requires Is(s, i, Ready) && s.senders[i].cancelled
    ensures var t := Run(s, acts);
      && Is(t, i, Ready) && t.senders[i].cancelled
      && s.senders[i].outcomes <= t.senders[i].outcomes
      && (|s.senders[i].outcomes| <= k < |t.senders[i].outcomes| ==> t.senders[i].outcomes[k] == Failed(Cancelled))
      && multiset(t.history)[Letter(i, k)] == multiset(s.history)[Letter(i, k)]
  {
    hide Next;
    if acts != [] {
      CancelledSenderIsSilent(s, acts[..|acts| - 1], i, k);
      CancelledStep(Run(s, acts[..|acts| - 1]), acts[|acts| - 1], i, k);
    }
  }

  lemma CancelledStep(s: State, a: Action, i: nat, k: nat)
    requires Is(s, i, Ready) && s.senders[i].cancelled
    ensures var t := Next(s, a);
      && Is(t, i, Ready) && t.senders[i].cancelled
      && (t.senders[i].outcomes == s.senders[i].outcomes || t.senders[i].outcomes == s.senders[i].outcomes + [Failed(Cancelled)])
      && multiset(t.history)[Letter(i, k)] == multiset(s.history)[Letter(i, k)]
  {
    hide Next, HasRoom;
    CancelledSenderStays(s, a, i);
    NoPushOf(s, a, i, k);
  }

  lemma CancelledSenderStays(s: State, a: Action, i: nat)
    requires Is(s, i, Ready) && s.senders[i].cancelled
    ensures var t := Next(s, a);
      && Is(t, i, Ready) && t.senders[i].cancelled
      && (t.senders[i].outcomes == s.senders[i].outcomes || t.senders[i].outcomes == s.senders[i].outcomes + [Failed(Cancelled)])
  {
    hide HasRoom;
  }

  lemma NoPushOf(s: State, a: Action, i: nat, k: nat)
    requires Is(s, i, Ready)
    ensures multiset(Next(s, a).history)[Letter(i, k)] == multiset(s.history)[Letter(i, k)]
  {
    hide HasRoom;
  }

  /** Sends awaited in turn by one sender arrive in that order, and the inbox never holds more than its capacity. */
  lemma OneSendersMessagesStayInOrder(s0: State, acts: seq<Action>)
    requires Initial(s0)
    ensures var s := Run(s0, acts); InOrder(s.history) && |s.history| - s.taken <= s0.capacity
  {
    RunKeepsInv(s0, acts);
    CapacityStays(s0, acts);
  }

  lemma {:induction false} CapacityStays(s: State, acts: seq<Action>)
    ensures Run(s, acts).capacity == s.capacity
  {
    if acts != [] {
      CapacityStays(s, acts[..|acts| - 1]);
    }
  }

  // ----- what the errors mean -----

  /** Every error returned so far had its cause, which still stands: the sender's token cancelled, or the inbox closed. */
  ghost predicate Causes(s: State) {
    forall i, k | i in s.senders && 0 <= k < |s.senders[i].outcomes| && s.senders[i].outcomes[k].Failed? ::
      if s.senders[i].outcomes[k].error.Cancelled? then s.senders[i].cancelled else !s.open
  }

  /** When a send may end the way it does. */
  ghost predicate MayEnd(s: State, i: nat, o: Outcome)
    requires i in s.senders
  {
    var x := s.senders[i];
    match o
    case Sent => x.stage == Holding
    case Dropped => x.stage == Waiting
    case Failed(Cancelled) => x.cancelled && (x.stage == Ready || (x.stage == Waiting && x.watches))
    case Failed(ChannelClosed) => !s.open && x.stage == Trying
    case Failed(SendFailed) => !s.open && x.stage == Waiting
  }

  /** One step ends at most one send, for cause, and takes nothing back. */
  lemma OutcomesGrow(s: State, a: Action, i: nat)
    requires i in s.senders
    ensures var t := Next(s, a);
      && i in t.senders && (s.senders[i].cancelled ==> t.senders[i].cancelled) && (t.open ==> s.open)
      && (t.senders[i].outcomes != s.senders[i].outcomes ==>
            exists o :: t.senders[i].outcomes == s.senders[i].outcomes + [o] && MayEnd(s, i, o))
  {
    hide HasRoom;
    var t := Next(s, a);
    if t.senders[i].outcomes != s.senders[i].outcomes {
      var o := t.senders[i].outcomes[|s.senders[i].outcomes|];
      assert t.senders[i].outcomes == s.senders[i].outcomes + [o] && MayEnd(s, i, o);
    }
  }

  lemma StageStep(s: State, a: Action, i: nat)
    requires i in s.senders
    ensures var t := Next(s, a);
      && i in t.senders
      && if t.senders[i].outcomes != s.senders[i].outcomes then t.senders[i].stage == Ready
         else && (t.senders[i].stage == Ready ==> s.senders[i].stage == Ready)
              && (t.senders[i].stage == Trying ==> s.senders[i].stage == Ready || s.senders[i].stage == Trying)
  {
    hide HasRoom;
  }

  /** A send succeeds only by its own push and is dropped only by its own caller. */
  lemma OwnStepsOnly(s: State, a: Action, i: nat, o: Outcome)
    requires i in s.senders && i in Next(s, a).senders && Next(s, a).senders[i].outcomes == s.senders[i].outcomes + [o]
    ensures (o == Sent ==> a == PushIntoSlot(i)) && (o == Dropped ==> a == GiveUp(i))
  {
    hide HasRoom;
    assert Next(s, a).senders[i].outcomes[|s.senders[i].outcomes|] == o;
  }

  lemma TriesOnce(s: State, i: nat)
    requires Is(s, i, Trying)
    ensures var t := Next(s, TryReserve(i)); i in t.senders && t.senders[i].stage != Trying
  {
    hide HasRoom;
  }

  /** A send under way stays so, or ends; it succeeds only by its own push and is dropped only by its own caller. */
  lemma MidSendStep(s: State, a: Action, i: nat)
    requires i in s.senders && s.senders[i].stage != Ready
    ensures var t := Next(s, a);
      && i in t.senders
      && ((t.senders[i].stage != Ready && t.senders[i].outcomes == s.senders[i].outcomes)
          || (exists o :: t.senders[i].outcomes == s.senders[i].outcomes + [o]
                     && (o == Sent ==> a == PushIntoSlot(i)) && (o == Dropped ==> a == GiveUp(i))))
  {
    hide Next;
    StageStep(s, a, i);
    OutcomesGrow(s, a, i);
    var t := Next(s, a);
    if t.senders[i].outcomes != s.senders[i].outcomes {
      var o :| t.senders[i].outcomes == s.senders[i].outcomes + [o] && MayEnd(s, i, o);
      OwnStepsOnly(s, a, i, o);
    }
  }

  lemma StepKeepsCauses(s: State, a: Action)
    requires Causes(s)
    ensures Causes(Next(s, a))
  {
    hide Next;
    var t := Next(s, a);
    forall i, k | i in t.senders && 0 <= k < |t.senders[i].outcomes| && t.senders[i].outcomes[k].Failed?
      ensures if t.senders[i].outcomes[k].error.Cancelled? then t.senders[i].cancelled else !t.open
    {
      NoNewSenders(s, a);
      OutcomesGrow(s, a, i);
      if k < |s.senders[i].outcomes| {
        assert t.senders[i].outcomes[k] == s.senders[i].outcomes[k];
      }
    }
  }

  lemma NoNewSenders(s: State, a: Action)
    ensures Next(s, a).senders.Keys == s.senders.Keys
  {
    hide HasRoom;
  }

  /** What an error means, in every run: its cause holds in the state that is reached, and the inbox never reopens. */
  lemma {:induction false} ErrorsHaveCauses(s: State, acts: seq<Action>)
    requires Initial(s)
    ensures Causes(Run(s, acts))
  {
    hide Next;
    if acts != [] {
      ErrorsHaveCauses(s, acts[..|acts| - 1]);
      StepKeepsCauses(Run(s, acts[..|acts| - 1]), acts[|acts| - 1]);
    }
  }

  /** The send in progress at `s` has not ended, or has ended in one of the ways left to a send that had to wait. */
  ghost predicate EndsAsWait(s: State, t: State, i: nat)
    requires i in s.senders
  {
    var k := |s.senders[i].outcomes|;
    && i in t.senders && t.senders[i].watches == s.senders[i].watches
    && s.senders[i].outcomes <= t.senders[i].outcomes
    && (|t.senders[i].outcomes| == k ==> t.senders[i].stage == Waiting || t.senders[i].stage == Holding)
    && (|t.senders[i].outcomes| > k ==>
          && t.senders[i].outcomes[k] != Failed(ChannelClosed)
          && (t.senders[i].outcomes[k] == Failed(Cancelled) ==> s.senders[i].watches))
  }

  /**
   The two waits differ as their callers can tell. Once a send has had to wait, a closing inbox is
   never reported as `ChannelClosed`, and a wait that does not watch the token is never cut short by it.
   */
  lemma {:induction false} HowAWaitEnds(s: State, acts: seq<Action>, i: nat)
    requires Is(s, i, Waiting)
    ensures EndsAsWait(s, Run(s, acts), i)
  {
    hide Next;
    if acts != [] {
      HowAWaitEnds(s, acts[..|acts| - 1], i);
      WaitStep(s, Run(s, acts[..|acts| - 1]), acts[|acts| - 1], i);
    }
  }

  lemma WaitStep(s: State, t: State, a: Action, i: nat)
    requires i in s.senders && EndsAsWait(s, t, i)
    ensures EndsAsWait(s, Next(t, a), i)
  {
    hide Next;
    OutcomesGrow(t, a, i);
    SenderStays(t, a, i);
    if Next(t, a).senders[i].outcomes == s.senders[i].outcomes {
      StaysMidSend(t, a, i);
    }
  }

  lemma StaysMidSend(s: State, a: Action, i: nat)
    requires Is(s, i, Waiting) || Is(s, i, Holding)
    requires i in Next(s, a).senders && Next(s, a).senders[i].outcomes == s.senders[i].outcomes
    ensures Is(Next(s, a), i, Waiting) || Is(Next(s, a), i, Holding)
  {
    hide HasRoom;
  }

  // ----- which of the two errors a closed inbox gives -----

  /** Sender `i` is waiting for room with its `k`-th send. */
  ghost predicate WaitsAt(s: State, i: nat, k: nat) {
    Is(s, i, Waiting) && |s.senders[i].outcomes| == k
  }

  /** At some point of the run the `k`-th send of `i` had to wait. */
  ghost predicate Waited(s: State, acts: seq<Action>, i: nat, k: nat) {
    exists n: nat :: n <= |acts| && WaitsAt(Run(s, acts[..n]), i, k)
  }

  lemma WaitedSnoc(s: State, acts: seq<Action>, i: nat, k: nat)
    requires acts != []
    ensures Waited(s, acts, i, k) <==> Waited(s, acts[..|acts| - 1], i, k) || WaitsAt(Run(s, acts), i, k)
  {
    hide Run, WaitsAt;
    var before := acts[..|acts| - 1];
    assert acts[..|acts|] == acts;
    assert forall n: nat | n < |acts| :: before[..n] == acts[..n];
    if n: nat :| n <= |acts| && WaitsAt(Run(s, acts[..n]), i, k) {
      if n < |acts| { assert WaitsAt(Run(s, before[..n]), i, k); }
    }
    if n: nat :| n <= |before| && WaitsAt(Run(s, before[..n]), i, k) {
      assert WaitsAt(Run(s, acts[..n]), i, k);
    }
  }

  /** What is known of each send by where its sender stands. */
  ghost predicate WaitsRecorded(s: State, acts: seq<Action>, i: nat) {
    var x := Run(s, acts).senders;
    && i in x
    && (forall k: nat | k < |x[i].outcomes| ::
          && (x[i].outcomes[k] == Failed(SendFailed) ==> Waited(s, acts, i, k))
          && (x[i].outcomes[k] == Failed(ChannelClosed) ==> !Waited(s, acts, i, k)))
    && (x[i].stage == Ready || x[i].stage == Trying ==> !Waited(s, acts, i, |x[i].outcomes|))
    && (forall k: nat | k > |x[i].outcomes| :: !Waited(s, acts, i, k))
  }

  lemma {:induction false} RunRecordsWaits(s: State, acts: seq<Action>, i: nat)
    requires Initial(s) && i in s.senders
    ensures WaitsRecorded(s, acts, i)
  {
    hide Next, Waited;
    if acts == [] {
      forall k: nat ensures !Waited(s, [], i, k) {
        NothingWaited(s, i, k);
      }
    } else {
      var before, a := acts[..|acts| - 1], acts[|acts| - 1];
      RunRecordsWaits(s, before, i);
      var was := Run(s, before);
      OutcomesGrow(was, a, i);
      StageStep(was, a, i);
      forall k: nat
        ensures Waited(s, acts, i, k) <==> Waited(s, before, i, k) || WaitsAt(Run(s, acts), i, k)
      {
        WaitedSnoc(s, acts, i, k);
      }
      assert WaitsAt(was, i, |was.senders[i].outcomes|) ==> Waited(s, before, i, |was.senders[i].outcomes|) by {
        WaitingIsWaited(s, before, i);
      }
    }
  }

  lemma NothingWaited(s: State, i: nat, k: nat)
    requires Initial(s)
    ensures !Waited(s, [], i, k)
  {
  }

  lemma WaitingIsWaited(s: State, acts: seq<Action>, i: nat)
    ensures forall k: nat | WaitsAt(Run(s, acts), i, k) :: Waited(s, acts, i, k)
  {
    assert acts[..|acts|] == acts;
  }

  /**
   How a send refused by a closed inbox tells its caller: over all runs, as `SendFailed` exactly if it
   had to wait for room, and as `ChannelClosed` exactly if it did not.
   */
  lemma AClosedInboxTellsWhetherItWaited(s0: State, acts: seq<Action>, i: nat, k: nat)
    requires Initial(s0) && i in s0.senders && i in Run(s0, acts).senders && k < |Run(s0, acts).senders[i].outcomes|
    requires var o := Run(s0, acts).senders[i].outcomes[k]; o.Failed? && o.error != Cancelled
    ensures var o := Run(s0, acts).senders[i].outcomes[k];
      && (o == Failed(SendFailed) <==> Waited(s0, acts, i, k))
      && (o == Failed(ChannelClosed) <==> !Waited(s0, acts, i, k))
  {
    hide Run, Waited;
    RunRecordsWaits(s0, acts, i);
  }

  lemma RunSnoc(s: State, acts: seq<Action>, a: Action)
    ensures Run(s, acts + [a]) == Next(Run(s, acts), a)
  {
    assert (acts + [a])[..|acts|] == acts;
  }

  // ----- an open inbox takes what fits -----

  /** Sender `i` makes `n` sends, one after the other. */
  ghost function SendsOf(i: nat, n: nat): seq<Action> {
    if n == 0 then [] else SendsOf(i, n - 1) + [Begin(i)] + [TryReserve(i)] + [PushIntoSlot(i)]
  }

  lemma OneSend(s: State, i: nat)
    requires Is(s, i, Ready) && !s.senders[i].cancelled && s.open && s.holders == {} && |s.history| - s.taken < s.capacity
    ensures var t := Next(Next(Next(s, Begin(i)), TryReserve(i)), PushIntoSlot(i));
      && t == s.(senders := t.senders, history := t.history)
      && Is(t, i, Ready) && !t.senders[i].cancelled
      && t.senders[i].outcomes == s.senders[i].outcomes + [Sent]
      && t.history == s.history + [Letter(i, |s.senders[i].outcomes|)]
  {
    assert At(At(s, i, Trying), i, Holding) == At(s, i, Holding);
    assert {} + {i} - {i} == {};
  }

  /** As many sends as there is room for all succeed, with nobody receiving. */
  lemma {:induction false} SendsThatFit(s0: State, i: nat, n: nat)
    requires Initial(s0) && s0.open && i in s0.senders && !s0.senders[i].cancelled && n <= s0.capacity
    ensures var t := Run(s0, SendsOf(i, n));
      && t == s0.(senders := t.senders, history := t.history)
      && Is(t, i, Ready) && !t.senders[i].cancelled
      && t.senders[i].outcomes == seq(n, k => Sent)
      && t.history == seq(n, k requires k >= 0 => Letter(i, k))
  {
    hide Next;
    if n > 0 {
      SendsThatFit(s0, i, n - 1);
      var was := SendsOf(i, n - 1);
      RunSnoc(s0, was, Begin(i));
      RunSnoc(s0, was + [Begin(i)], TryReserve(i));
      RunSnoc(s0, was + [Begin(i)] + [TryReserve(i)], PushIntoSlot(i));
      OneSend(Run(s0, was), i);
    }
  }

  /**
   Room for `capacity` messages means just that: as many sends all succeed, with nobody receiving,
   and the next has to wait. One message received, it gets in.
   */
  lemma AnOpenInboxTakesItsCapacity(s0: State, i: nat, n: nat)
    requires Initial(s0) && s0.open && i in s0.senders && !s0.senders[i].cancelled && n <= s0.capacity
    ensures var t := Run(s0, SendsOf(i, n));
      Is(t, i, Ready) && t.senders[i].outcomes == seq(n, k => Sent) && t.history == seq(n, k requires k >= 0 => Letter(i, k))
    ensures n == s0.capacity > 0 ==>
      && Is(Run(s0, SendsOf(i, n) + [Begin(i)] + [TryReserve(i)]), i, Waiting)
      && Run(s0, SendsOf(i, n) + [Begin(i)] + [TryReserve(i)] + [Receive] + [Reserve(i)] + [PushIntoSlot(i)]).history
         == seq(n, k requires k >= 0 => Letter(i, k)) + [Letter(i, n)]
  {
    hide Next, Run;
    SendsThatFit(s0, i, n);
    if n == s0.capacity > 0 {
      var before := SendsOf(i, n);
      var waits := before + [Begin(i)] + [TryReserve(i)];
      RunSnoc(s0, before, Begin(i));
      RunSnoc(s0, before + [Begin(i)], TryReserve(i));
      RunSnoc(s0, waits, Receive);
      RunSnoc(s0, waits + [Receive], Reserve(i));
      RunSnoc(s0, waits + [Receive] + [Reserve(i)], PushIntoSlot(i));
      OneTooMany(Run(s0, before), i);
    }
  }

  lemma OneTooMany(s: State, i: nat)
    requires Is(s, i, Ready) && !s.senders[i].cancelled && s.open && |s.history| - s.taken >= s.capacity
    ensures var t := Next(Next(s, Begin(i)), TryReserve(i));
      && Is(t, i, Waiting)
      && (s.holders == {} && |s.history| == s.capacity > 0 && s.taken == 0 ==>
            Next(Next(Next(t, Receive), Reserve(i)), PushIntoSlot(i)).history
            == s.history + [Letter(i, |s.senders[i].outcomes|)])
  {
    assert Next(Next(s, Begin(i)), TryReserve(i)) == At(s, i, Waiting);
  }

  // ----- how else a wait may end -----

  ghost predicate MayEndIn(s: State, i: nat, o: Outcome)
    requires i in s.senders
  {
    exists acts: seq<Action> ::
      var t := Run(s, acts).senders;
      i in t && |t[i].outcomes| > |s.senders[i].outcomes| && t[i].outcomes[|s.senders[i].outcomes|] == o
  }

  /** What a wait may come to, other than success: it can always be refused or given up, and cancelled exactly if it watches its token. */
  lemma WhatAWaitMayComeTo(s: State, i: nat)
    requires Is(s, i, Waiting)
    ensures MayEndIn(s, i, Failed(SendFailed)) && MayEndIn(s, i, Dropped) && !MayEndIn(s, i, Failed(ChannelClosed))
    ensures MayEndIn(s, i, Failed(Cancelled)) <==> s.senders[i].watches
  {
    var refuse, giveUp, cancel := [Close] + [Reserve(i)], [GiveUp(i)], [CancelToken(i)] + [SeeCancelled(i)];
    RunSnoc(s, [], Close);
    RunSnoc(s, [], GiveUp(i));
    RunSnoc(s, [], CancelToken(i));
    assert [] + [Close] == [Close] && [] + [GiveUp(i)] == giveUp && [] + [CancelToken(i)] == [CancelToken(i)];
    RunSnoc(s, [Close], Reserve(i));
    RunSnoc(s, [CancelToken(i)], SeeCancelled(i));
    EndsHere(s, i);
    assert MayEndIn(s, i, Failed(SendFailed)) by { assert i in Run(s, refuse).senders; }
    assert MayEndIn(s, i, Dropped) by { assert i in Run(s, giveUp).senders; }
    if s.senders[i].watches {
      assert MayEndIn(s, i, Failed(Cancelled)) by { assert i in Run(s, cancel).senders; }
    }
    forall acts: seq<Action> ensures EndsAsWait(s, Run(s, acts), i) {
      HowAWaitEnds(s, acts, i);
    }
  }

  lemma EndsHere(s: State, i: nat)
    requires Is(s, i, Waiting)
    ensures Next(Next(s, Close), Reserve(i)).senders[i].outcomes == s.senders[i].outcomes + [Failed(SendFailed)]
    ensures Next(s, GiveUp(i)).senders[i].outcomes == s.senders[i].outcomes + [Dropped]
    ensures s.senders[i].watches ==>
              Next(Next(s, CancelToken(i)), SeeCancelled(i)).senders[i].outcomes == s.senders[i].outcomes + [Failed(Cancelled)]
  {
  }

  /** Both happen to the first send of a live sender: into a closed inbox, and into one that another sender filled and that closed since. */
  lemma BothErrorsHappen(s0: State, i: nat, j: nat)
    requires Initial(s0) && s0.open && s0.capacity == 1 && i != j && i in s0.senders && j in s0.senders
    requires !s0.senders[i].cancelled && !s0.senders[j].cancelled
    ensures var t := Run(s0, [Close] + [Begin(i)] + [TryReserve(i)]).senders;
      i in t && t[i].outcomes == [Failed(ChannelClosed)]
    ensures var t := Run(s0, FilledBy(j) + [Begin(i)] + [TryReserve(i)] + [Close] + [Reserve(i)]).senders;
      i in t && t[i].outcomes == [Failed(SendFailed)]
  {
    hide Next;
    RunSnoc(s0, [], Close);
    assert [] + [Close] == [Close];
    RunSnoc(s0, [Close], Begin(i));
    RunSnoc(s0, [Close] + [Begin(i)], TryReserve(i));
    RefusedAtOnce(s0, i);
    FillsTheInbox(s0, j);
    var full := FilledBy(j);
    RunSnoc(s0, full, Begin(i));
    RunSnoc(s0, full + [Begin(i)], TryReserve(i));
    RunSnoc(s0, full + [Begin(i)] + [TryReserve(i)], Close);
    RunSnoc(s0, full + [Begin(i)] + [TryReserve(i)] + [Close], Reserve(i));
    RefusedAfterAWait(Run(s0, full), i);
  }

  lemma RefusedAtOnce(s: State, i: nat)
    requires Is(s, i, Ready) && !s.senders[i].cancelled && s.senders[i].outcomes == []
    ensures var t := Next(Next(Next(s, Close), Begin(i)), TryReserve(i)).senders;
      i in t && t[i].outcomes == [Failed(ChannelClosed)]
  {
  }

  lemma RefusedAfterAWait(s: State, i: nat)
    requires Is(s, i, Ready) && !s.senders[i].cancelled && s.senders[i].outcomes == [] && s.open && !HasRoom(s)
    ensures var t := Next(Next(Next(Next(s, Begin(i)), TryReserve(i)), Close), Reserve(i)).senders;
      i in t && t[i].outcomes == [Failed(SendFailed)]
  {
    assert Next(Next(s, Begin(i)), TryReserve(i)) == At(s, i, Waiting);
  }

  ghost function FilledBy(j: nat): seq<Action> {
    [Begin(j)] + [TryReserve(j)] + [PushIntoSlot(j)]
  }

  lemma FillsTheInbox(s0: State, j: nat)
    requires Initial(s0) && s0.open && s0.capacity == 1 && j in s0.senders && !s0.senders[j].cancelled
    ensures var s := Run(s0, FilledBy(j));
      && s.open && s.capacity == 1 && !HasRoom(s) && s.senders.Keys == s0.senders.Keys
      && forall i | i in s0.senders && i != j :: s.senders[i] == s0.senders[i]
  {
    RunSnoc(s0, [], Begin(j));
    assert [] + [Begin(j)] == [Begin(j)];
    RunSnoc(s0, [Begin(j)], TryReserve(j));
    RunSnoc(s0, [Begin(j)] + [TryReserve(j)], PushIntoSlot(j));
    assert {} + {j} - {j} == {};
  }
}
