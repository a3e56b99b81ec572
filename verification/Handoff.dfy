/**
 Putting a child under a supervisor, taking it away again, the three-way wait for the supervisor's
 answer, and the stop of a child that nobody will look after.

 The request carries a write-once cell for the answer and a sender whose disappearance tells
 the caller that the request no longer exists. A registration's sender is the child's status
 channel, of which the supervisor keeps a clone if it accepts; a release's is a bare sign of
 life. The wait has no preference among the answer, a token and the channel closing, so any
 that is ready may win. The token it watches belongs to the handle, and is not the one by which
 a supervisor is cancelled.
 */
module Handoff {
  import opened Wrappers

  datatype Kind = Registering | Stopping | Releasing

  /** What the supervisor writes: the released handle if any, or its refusal. */
  datatype Answer = Accepted(handle: bool) | Refused

  datatype Verdict = Answered(answer: Answer) | SupervisorStopped | Lost

  datatype Stage =
    | NotSent
    | Waiting
    | Resolved(verdict: Verdict)
    | StoppingChild(verdict: Verdict)   // sending `Terminate` to the child
    | AwaitingEnd(verdict: Verdict)     // waiting for the child's task to end
    | Returned(verdict: Verdict)

  datatype Letter = Unsent | Queued | InHand | Gone

  datatype Item = Work | Terminate(byCaller: bool)

  /** The child: everything ever put in its inbox, and whether its task has ended. */
  datatype Child = Child(history: seq<Item>, taken: nat, capacity: nat, open: bool, ended: bool)

  datatype State = State(
    kind: Kind,
    stage: Stage,
    letter: Letter,             // where the request is
    cell: Option<Answer>,
    supervisorKeeps: bool,      // the supervisor holds its own clone of the request's sender
    supervisorOpen: bool,       // its inbox takes messages
    supervisorRuns: bool,       // its task has not ended
    actorToken: bool,           // the supervisor has been cancelled, by itself or by the runtime
    handleToken: bool,          // the token the wait watches
    child: Child
  )

  datatype Action =
    | Send                      // the request reaches the supervisor's inbox, or is dropped by a closed one
    | TakeUp                    // the supervisor dequeues it
    | Write(answer: Answer)     // and records the outcome
    | LetGo                     // the handled envelope is dropped
    | CloseSupervisor           // an orderly stop: no new messages, the rest is drained
    | CancelSupervisor          // escalation or a forced shutdown
    | EndSupervisor             // its task ends: at once if cancelled, otherwise closed and drained
    | Crash                     // its task is torn down without a chance to end
    | DropClone                 // its record of the child goes away
    | SeeAnswer
    | SeeCancelled
    | SeeClosed
    | FinishUp                  // the caller has its verdict, and stops the child if that is called for
    | SendTerminate
    | SeeChildEnd
    | ChildGets(item: Item)     // from anybody else
    | ChildTakes
    | ChildCloses
    | ChildEnds

  /** The channel the caller watches has no sender left. */
  ghost predicate SenderGone(s: State) {
    s.letter.Gone? && !s.supervisorKeeps
  }

  /** Whether the caller stops the child before it returns. */
  ghost predicate StopsChild(kind: Kind, verdict: Verdict) {
    match kind
    case Registering => verdict != Answered(Accepted(true))
    case Stopping => verdict == Answered(Accepted(true))
    case Releasing => false
  }

  ghost predicate Takes(c: Child) {
    c.open && |c.history| - c.taken < c.capacity
  }

  ghost function WithItem(c: Child, item: Item): Child {
    c.(history := c.history + [item])
  }

  /** Without the supervisor's task whatever it had queued or in hand is gone, and its clone too. */
  ghost function Ended(s: State): State {
    s.(supervisorOpen := false, supervisorRuns := false, supervisorKeeps := false,
       letter := if s.letter.Queued? || s.letter.InHand? then Gone else s.letter)
  }

  ghost function SupervisorStep(s: State, a: Action): State {
    match a
    case TakeUp => if s.letter.Queued? && s.supervisorRuns then s.(letter := InHand) else s
    case Write(answer) =>
      // the first answer stands
      if s.letter.InHand? && s.cell.None? then
        var said := if s.kind.Registering? && answer.Accepted? then Accepted(true) else answer;
        s.(cell := Some(said), supervisorKeeps := s.kind.Registering? && answer.Accepted?)
      else s
    case LetGo => if s.letter.InHand? && s.cell.Some? then s.(letter := Gone) else s
    case CloseSupervisor => s.(supervisorOpen := false)
    case CancelSupervisor => s.(actorToken := true)
    case EndSupervisor =>
      // taking a request up and answering it is one uninterrupted stretch
      if !s.letter.InHand? && (s.actorToken || (!s.supervisorOpen && !s.letter.Queued?)) then Ended(s) else s
    case Crash => Ended(s)
    case DropClone => s.(supervisorKeeps := false)
    case _ => s
  }

  ghost function CallerStep(s: State, a: Action): State {
    match a
    case Send =>
      if s.stage.NotSent? then s.(stage := Waiting, letter := if s.supervisorOpen then Queued else Gone) else s
    case SeeAnswer =>
      if s.stage.Waiting? && s.cell.Some? then s.(stage := Resolved(Answered(s.cell.value))) else s
    case SeeCancelled =>
      if s.stage.Waiting? && s.handleToken then s.(stage := Resolved(SupervisorStopped)) else s
    case SeeClosed =>
      if s.stage.Waiting? && SenderGone(s) then
        s.(stage := Resolved(if s.cell.Some? then Answered(s.cell.value) else Lost))
      else s
    case FinishUp =>
      if s.stage.Resolved? then
        var v := s.stage.verdict;
        s.(stage := if StopsChild(s.kind, v) then StoppingChild(v) else Returned(v))
      else s
    case SendTerminate =>
      if s.stage.StoppingChild? && !s.child.open then s.(stage := AwaitingEnd(s.stage.verdict))
      else if s.stage.StoppingChild? && Takes(s.child) then
        s.(stage := AwaitingEnd(s.stage.verdict), child := WithItem(s.child, Terminate(true)))
      else s
    case SeeChildEnd =>
      if s.stage.AwaitingEnd? && s.child.ended then s.(stage := Returned(s.stage.verdict)) else s
    case _ => s
  }

  ghost function ChildStep(c: Child, a: Action): Child {
    match a
    case ChildGets(item) => if Takes(c) && item != Terminate(true) then WithItem(c, item) else c
    case ChildTakes => if c.taken < |c.history| then c.(taken := c.taken + 1) else c
    case ChildCloses => c.(open := false)
    case ChildEnds => c.(open := false, ended := true)
    case _ => c
  }

  ghost predicate BySupervisor(a: Action) {
    a.TakeUp? || a.Write? || a.LetGo? || a.CloseSupervisor? || a.CancelSupervisor? || a.EndSupervisor? || a.Crash?
    || a.DropClone?
  }

  ghost predicate ByChild(a: Action) {
    a.ChildGets? || a.ChildTakes? || a.ChildCloses? || a.ChildEnds?
  }

  ghost function Next(s: State, a: Action): State {
    if BySupervisor(a) then SupervisorStep(s, a)
    else if ByChild(a) then s.(child := ChildStep(s.child, a))
    else CallerStep(s, a)
  }

  /** Nothing sent, a live handle, and a child that this caller has never told to stop. */
  ghost predicate Initial(s: State) {
    && s.stage == NotSent && s.letter == Unsent && s.cell == None && !s.supervisorKeeps && !s.handleToken
    && (!s.supervisorRuns ==> !s.supervisorOpen) && (s.child.ended ==> !s.child.open)
    && Terminate(true) !in s.child.history
  }

  ghost function Run(s: State, acts: seq<Action>): State {
    if acts == [] then s else Next(Run(s, acts[..|acts| - 1]), acts[|acts| - 1])
  }

  // ----- the invariant -----

  /** The request, its answer, and the supervisor. */
  ghost predicate RequestInv(s: State) {
    && (s.stage.NotSent? <==> s.letter.Unsent?)
    && !s.handleToken
    && (s.supervisorKeeps ==> s.cell.Some?)
    && (s.cell.Some? ==> s.letter.InHand? || s.letter.Gone?)
    && (s.kind.Registering? && s.cell.Some? && s.cell.value.Accepted? ==> s.cell.value.handle)
    && (s.letter.Gone? && s.cell.None? ==> !s.supervisorOpen)
    && (!s.supervisorRuns ==> !s.supervisorOpen)
    && (s.letter.Queued? || s.letter.InHand? ==> s.supervisorRuns)
  }

  /** What the caller may report: the answer if there is one, and otherwise that there will be none. */
  ghost predicate VerdictInv(s: State) {
    match s.stage
    case NotSent => true
    case Waiting => true
    case _ =>
      && s.stage.verdict == (if s.cell.Some? then Answered(s.cell.value) else Lost)
      && (s.cell.None? ==> s.letter.Gone?)
  }

  /** What each stage says of the child, given whether this caller has told it to stop. */
  ghost predicate ChildFits(kind: Kind, stage: Stage, told: bool, open: bool, ended: bool) {
    && (ended ==> !open)
    && match stage {
         case StoppingChild(v) => StopsChild(kind, v) && !told
         case AwaitingEnd(v) => StopsChild(kind, v) && (told || !open)
         case Returned(v) => if StopsChild(kind, v) then ended else !told
         case _ => !told
       }
  }

  ghost predicate ChildInv(s: State) {
    && multiset(s.child.history)[Terminate(true)] <= 1
    && ChildFits(s.kind, s.stage, Terminate(true) in s.child.history, s.child.open, s.child.ended)
  }

  ghost predicate Inv(s: State) {
    RequestInv(s) && VerdictInv(s) && ChildInv(s)
  }

  lemma StepKeepsRequest(s: State, a: Action)
    requires RequestInv(s) && VerdictInv(s)
    ensures RequestInv(Next(s, a)) && VerdictInv(Next(s, a)) && Next(s, a).kind == s.kind
    ensures s.cell.Some? ==> Next(s, a).cell == s.cell
    ensures s.letter.Gone? ==> Next(s, a).letter.Gone? && Next(s, a).cell == s.cell
  {
    hide SupervisorStep, CallerStep, ChildStep, StopsChild;
    if BySupervisor(a) {
      SupervisorKeepsRequest(s, a);
    } else if !ByChild(a) {
      CallerKeepsRequest(s, a);
    }
  }

  lemma SupervisorKeepsRequest(s: State, a: Action)
    requires RequestInv(s) && VerdictInv(s)
    ensures RequestInv(SupervisorStep(s, a)) && VerdictInv(SupervisorStep(s, a)) && SupervisorStep(s, a).kind == s.kind
    ensures s.cell.Some? ==> SupervisorStep(s, a).cell == s.cell
    ensures s.letter.Gone? ==> SupervisorStep(s, a).letter.Gone? && SupervisorStep(s, a).cell == s.cell
  {
  }

  lemma CallerKeepsRequest(s: State, a: Action)
    requires RequestInv(s) && VerdictInv(s)
    ensures RequestInv(CallerStep(s, a)) && VerdictInv(CallerStep(s, a)) && CallerStep(s, a).kind == s.kind
    ensures s.cell.Some? ==> CallerStep(s, a).cell == s.cell
    ensures s.letter.Gone? ==> CallerStep(s, a).letter.Gone? && CallerStep(s, a).cell == s.cell
  {
    hide StopsChild, Takes, WithItem;
  }

  lemma Append(history: seq<Item>, item: Item)
    ensures multiset(history + [item])[Terminate(true)]
         == multiset(history)[Terminate(true)] + (if item == Terminate(true) then 1 else 0)
    ensures Terminate(true) in history + [item] <==> Terminate(true) in history || item == Terminate(true)
  {
  }

  lemma StepTerminates(s: State)
    requires ChildInv(s)
    ensures ChildInv(Next(s, SendTerminate))
  {
    hide StopsChild, ChildInv;
    var t := Next(s, SendTerminate);
    ChildFitsOf(s);
    if t.child.history == s.child.history {
      ChildInvOf(s, t);
    } else {
      ChildInvMore(s, t, Terminate(true));
    }
  }

  lemma StepChildGets(s: State, item: Item)
    requires ChildInv(s)
    ensures ChildInv(Next(s, ChildGets(item)))
  {
    hide StopsChild, ChildInv;
    var t := Next(s, ChildGets(item));
    ChildFitsOf(s);
    if t.child.history == s.child.history {
      ChildInvOf(s, t);
    } else {
      ChildInvMore(s, t, item);
    }
  }

  lemma ChildInvMore(s: State, t: State, item: Item)
    requires ChildInv(s) && t.child.history == s.child.history + [item]
    requires item == Terminate(true) ==> Terminate(true) !in s.child.history
    requires ChildFits(t.kind, t.stage, Terminate(true) in s.child.history || item == Terminate(true), t.child.open, t.child.ended)
    ensures ChildInv(t)
  {
    hide ChildFits;
    Append(s.child.history, item);
  }

  lemma StepKeepsChild(s: State, a: Action)
    requires ChildInv(s)
    ensures ChildInv(Next(s, a))
  {
    match a
    case SendTerminate => StepTerminates(s);
    case ChildGets(item) => StepChildGets(s, item);
    case _ => StepAddsNothing(s, a);
  }

  /** The stage moves on, or the child does, or neither. */
  ghost predicate MovesOn(s: State, t: State) {
    match s.stage
    case Resolved(v) => t.stage == if StopsChild(s.kind, v) then StoppingChild(v) else Returned(v)
    case AwaitingEnd(v) => s.child.ended && t.stage == Returned(v)
    case _ => (s.stage.NotSent? || s.stage.Waiting?) && (t.stage.Waiting? || t.stage.Resolved?)
  }

  lemma StepMoves(s: State, a: Action)
    requires !a.SendTerminate? && !a.ChildGets?
    ensures var t := Next(s, a);
      && t.kind == s.kind && t.child.history == s.child.history
      && if t.stage == s.stage then
           (t.child.open ==> s.child.open) && (s.child.ended ==> t.child.ended)
           && (t.child.ended ==> s.child.ended || !t.child.open)
         else t.child == s.child && MovesOn(s, t)
  {
    hide StopsChild, WithItem, Takes, SupervisorStep, CallerStep;
    if BySupervisor(a) {
      SupervisorLeavesTheRest(s, a);
    } else if !ByChild(a) {
      CallerMoves(s, a);
    }
  }

  lemma SupervisorLeavesTheRest(s: State, a: Action)
    ensures var t := SupervisorStep(s, a);
      t.kind == s.kind && t.stage == s.stage && t.child == s.child && t.handleToken == s.handleToken
  {
  }

  lemma CallerMoves(s: State, a: Action)
    requires !a.SendTerminate?
    ensures var t := CallerStep(s, a); t.kind == s.kind && t.child == s.child && (t.stage == s.stage || MovesOn(s, t))
  {
    hide StopsChild;
  }

  lemma StepAddsNothing(s: State, a: Action)
    requires ChildInv(s) && !a.SendTerminate? && !a.ChildGets?
    ensures ChildInv(Next(s, a))
  {
    hide StopsChild, ChildInv, Next;
    StepMoves(s, a);
    ChildFitsOf(s);
    ChildInvOf(s, Next(s, a));
  }

  lemma ChildFitsOf(s: State)
    requires ChildInv(s)
    ensures ChildFits(s.kind, s.stage, Terminate(true) in s.child.history, s.child.open, s.child.ended)
  {
  }

  lemma ChildInvOf(s: State, t: State)
    requires ChildInv(s) && t.child.history == s.child.history
    requires ChildFits(t.kind, t.stage, Terminate(true) in s.child.history, t.child.open, t.child.ended)
    ensures ChildInv(t)
  {
  }

  lemma {:induction false} RunKeepsInv(s: State, acts: seq<Action>)
    requires Initial(s)
    ensures Inv(Run(s, acts)) && Run(s, acts).kind == s.kind
  {
    hide Next;
    if acts == [] {
      assert multiset(s.child.history)[Terminate(true)] == 0;
    } else {
      RunKeepsInv(s, acts[..|acts| - 1]);
      StepKeepsRequest(Run(s, acts[..|acts| - 1]), acts[|acts| - 1]);
      StepKeepsChild(Run(s, acts[..|acts| - 1]), acts[|acts| - 1]);
    }
  }

  lemma {:induction false} RunFromKeepsRequest(s: State, acts: seq<Action>)
    requires RequestInv(s) && VerdictInv(s)
    ensures RequestInv(Run(s, acts)) && VerdictInv(Run(s, acts))
    ensures s.cell.Some? ==> Run(s, acts).cell == s.cell
    ensures s.letter.Gone? ==> Run(s, acts).letter.Gone? && Run(s, acts).cell == s.cell
  {
    hide Next, RequestInv, VerdictInv;
    if acts != [] {
      RunFromKeepsRequest(s, acts[..|acts| - 1]);
      StepKeepsRequest(Run(s, acts[..|acts| - 1]), acts[|acts| - 1]);
    }
  }

  // ----- the results -----

  /** Action `k` is the supervisor giving an answer with the request in hand. */
  ghost predicate Gives(s0: State, acts: seq<Action>, k: int) {
    0 <= k < |acts| && acts[k].Write? && Run(s0, acts[..k]).letter.InHand?
  }

  /** And it is the first it gives. */
  ghost predicate GivesFirst(s0: State, acts: seq<Action>, k: int) {
    Gives(s0, acts, k) && forall j | 0 <= j < k :: !Gives(s0, acts, j)
  }

  /** What an answer means to the caller: a registration that is accepted has the caller's own handle. */
  ghost function AsTold(kind: Kind, answer: Answer): Answer {
    match (kind, answer)
    case (Registering, Accepted(_)) => Accepted(true)
    case _ => answer
  }

  /** The supervisor's first answer, if it gave one, comes to `a`. */
  ghost predicate Told(s0: State, acts: seq<Action>, a: Answer) {
    exists k :: GivesFirst(s0, acts, k) && AsTold(s0.kind, acts[k].answer) == a
  }

  lemma {:induction false} CellIsTheFirstAnswer(s0: State, acts: seq<Action>)
    requires Initial(s0)
    ensures match Run(s0, acts).cell
            case Some(a) => Told(s0, acts, a)
            case None => forall k :: !Gives(s0, acts, k)
  {
    hide Next;
    if acts != [] {
      var n := |acts| - 1;
      var before := acts[..n];
      CellIsTheFirstAnswer(s0, before);
      RunKeepsInv(s0, before);
      assert forall k | 0 <= k < n :: before[..k] == acts[..k];
      assert forall k | 0 <= k < n :: Gives(s0, before, k) == Gives(s0, acts, k);
      CellStep(Run(s0, before), acts[n]);
      if Run(s0, before).cell.Some? {
        var k :| GivesFirst(s0, before, k) && AsTold(s0.kind, before[k].answer) == Run(s0, before).cell.value;
        assert GivesFirst(s0, acts, k);
      } else if Gives(s0, acts, n) {
        assert GivesFirst(s0, acts, n);
      }
    }
  }

  lemma CellStep(s: State, a: Action)
    ensures Next(s, a).cell ==
              if s.cell.None? && a.Write? && s.letter.InHand? then Some(AsTold(s.kind, a.answer)) else s.cell
  {
    hide CallerStep, ChildStep;
    if !BySupervisor(a) && !ByChild(a) {
      CallerWritesNothing(s, a);
    }
  }

  lemma CallerWritesNothing(s: State, a: Action)
    ensures CallerStep(s, a).cell == s.cell
  {
    hide StopsChild, Takes, WithItem;
  }

  lemma OneFirstAnswer(s0: State, acts: seq<Action>, a: Answer, b: Answer)
    requires Told(s0, acts, a) && Told(s0, acts, b)
    ensures a == b
  {
    var j :| GivesFirst(s0, acts, j) && AsTold(s0.kind, acts[j].answer) == a;
    var k :| GivesFirst(s0, acts, k) && AsTold(s0.kind, acts[k].answer) == b;
    assert j == k;
  }

  /**
   An answered request is never misreported. In every run, whichever branch of the wait wins and
   however the supervisor stops, the caller returns an answer exactly if it is the first that the
   supervisor gave with the request in hand, and reports its request lost exactly if the supervisor
   gave none; and then, whatever happens next, it never will. That the supervisor stopped is never
   what the caller reports.
   */
  lemma TheVerdictIsTheAnswer(s0: State, acts: seq<Action>, more: seq<Action>)
    requires Initial(s0) && Run(s0, acts).stage.Returned?
    ensures var v := Run(s0, acts).stage.verdict;
      && (forall a :: v == Answered(a) <==> Told(s0, acts, a))
      && (v == Lost <==> forall k :: !Gives(s0, acts, k))
      && v != SupervisorStopped
    ensures Run(Run(s0, acts), more).cell == Run(s0, acts).cell
  {
    RunKeepsInv(s0, acts);
    RunFromKeepsRequest(Run(s0, acts), more);
    CellIsTheFirstAnswer(s0, acts);
    forall a ensures Run(s0, acts).stage.verdict == Answered(a) <==> Told(s0, acts, a) {
      if Told(s0, acts, a) && Run(s0, acts).cell.Some? {
        OneFirstAnswer(s0, acts, a, Run(s0, acts).cell.value);
      }
    }
  }

  /**
   A request is lost only to a supervisor whose inbox has closed. While that is open, a cancelled
   token included, every verdict is an answer.
   */
  lemma LostOnlyToAClosedSupervisor(s0: State, acts: seq<Action>)
    requires Initial(s0) && Run(s0, acts).stage.Returned? && Run(s0, acts).supervisorOpen
    ensures var s := Run(s0, acts); s.cell.Some? && s.stage.verdict == Answered(s.cell.value)
  {
    RunKeepsInv(s0, acts);
  }

  /** The supervisor is not cancelled, and its task is not torn down. */
  ghost predicate Undisturbed(acts: seq<Action>) {
    CancelSupervisor !in acts && Crash !in acts
  }

  /** Answered, or still before a supervisor that runs and has not been cancelled. */
  ghost predicate InGoodHands(s: State) {
    && !s.stage.NotSent? && !s.actorToken
    && (s.cell.Some? || ((s.letter.Queued? || s.letter.InHand?) && s.supervisorRuns))
  }

  /**
   A supervisor that stops in order answers every request its inbox has accepted. From any reachable
   state with the request queued, and until it is answered, the supervisor's task runs and has it; it
   cannot end, however it was told to stop, and what the caller returns is its answer.
   */
  lemma AnOrderlyStopLosesNothingAccepted(s0: State, acts: seq<Action>, more: seq<Action>)
    requires Initial(s0) && Run(s0, acts).letter.Queued? && !Run(s0, acts).actorToken && Undisturbed(more)
    ensures var t := Run(Run(s0, acts), more);
      && InGoodHands(t)
      && (t.stage.Returned? ==> t.cell.Some? && t.stage.verdict == Answered(t.cell.value))
  {
    RunKeepsInv(s0, acts);
    RunFromKeepsRequest(Run(s0, acts), more);
    StaysInGoodHands(Run(s0, acts), more);
  }

  lemma {:induction false} StaysInGoodHands(s: State, acts: seq<Action>)
    requires Undisturbed(acts) && InGoodHands(s)
    ensures InGoodHands(Run(s, acts))
  {
    hide Next, InGoodHands;
    if acts != [] {
      StaysInGoodHands(s, acts[..|acts| - 1]);
      StepStaysInGoodHands(Run(s, acts[..|acts| - 1]), acts[|acts| - 1]);
    }
  }

  lemma StepStaysInGoodHands(s: State, a: Action)
    requires InGoodHands(s) && a != CancelSupervisor && a != Crash
    ensures InGoodHands(Next(s, a))
  {
    hide SupervisorStep, CallerStep, ChildStep;
    if BySupervisor(a) {
      SupervisorHoldsOn(s, a);
    } else if !ByChild(a) {
      CallerLeavesTheLetter(s, a);
    }
  }

  lemma SupervisorHoldsOn(s: State, a: Action)
    requires InGoodHands(s) && a != CancelSupervisor && a != Crash
    ensures InGoodHands(SupervisorStep(s, a))
  {
  }

  lemma CallerLeavesTheLetter(s: State, a: Action)
    requires !s.stage.NotSent?
    ensures var t := CallerStep(s, a);
      && !t.stage.NotSent? && t.letter == s.letter && t.cell == s.cell
      && t.actorToken == s.actorToken && t.supervisorRuns == s.supervisorRuns
  {
  }

  /** The supervisor is cancelled with the request unread, and the caller sees its wait to the end. */
  ghost const CUT_SHORT: seq<Action> :=
    [CancelSupervisor] + [EndSupervisor] + [SeeClosed] + [FinishUp] + [ChildEnds] + [SendTerminate] + [SeeChildEnd]

  /**
   Cancelling the supervisor is what loses an accepted request. From every reachable state with the
   request queued some run with a cancellation returns `Lost`, where `SupervisorStopped` is documented;
   and short of a crash, from a supervisor not yet cancelled, no run without one does.
   */
  lemma CancellingIsWhatLosesARequest(s0: State, acts: seq<Action>)
    requires Initial(s0) && Run(s0, acts).letter.Queued?
    ensures Run(Run(s0, acts), CUT_SHORT).stage == Returned(Lost)
    ensures forall more: seq<Action> ::
              !Run(s0, acts).actorToken && Run(Run(s0, acts), more).stage == Returned(Lost) && Crash !in more
              ==> CancelSupervisor in more
  {
    var s := Run(s0, acts);
    RunKeepsInv(s0, acts);
    CutShortLoses(s);
    forall more: seq<Action>
      ensures !s.actorToken && Run(s, more).stage == Returned(Lost) && Crash !in more ==> CancelSupervisor in more
    {
      if !s.actorToken && Undisturbed(more) {
        AnOrderlyStopLosesNothingAccepted(s0, acts, more);
      }
    }
  }

  lemma CutShortLoses(s: State)
    requires Inv(s) && s.letter.Queued?
    ensures Run(s, CUT_SHORT).stage == Returned(Lost)
  {
    assert s.stage.Waiting? && s.cell.None?;
    CancelledEnds(s);
    SeesTheLoss(Next(Next(s, CancelSupervisor), EndSupervisor));
    hide Next;
    RunSnoc(s, [], CancelSupervisor);
    assert [] + [CancelSupervisor] == [CancelSupervisor];
    RunSnoc(s, [CancelSupervisor], EndSupervisor);
    var two := [CancelSupervisor] + [EndSupervisor];
    RunSnoc(s, two, SeeClosed);
    SeesItThrough(s, two + [SeeClosed]);
  }

  lemma CancelledEnds(s: State)
    requires s.letter.Queued?
    ensures Next(Next(s, CancelSupervisor), EndSupervisor) == Ended(s.(actorToken := true))
  {
  }

  lemma SeesTheLoss(s: State)
    requires s.stage.Waiting? && s.cell.None? && SenderGone(s)
    ensures Next(s, SeeClosed).stage == Resolved(Lost)
  {
  }

  /** The supervisor takes the request up and answers, and the caller sees its wait to the end. */
  ghost function AnsweredBy(answer: Answer): seq<Action> {
    [TakeUp] + [Write(answer)] + [SeeAnswer] + [FinishUp] + [ChildEnds] + [SendTerminate] + [SeeChildEnd]
  }

  /** The same by a supervisor that is told to stop, and has ended before the caller looks. */
  ghost function AnsweredAndGone(answer: Answer): seq<Action> {
    [CloseSupervisor] + [TakeUp] + [Write(answer)] + [LetGo] + [EndSupervisor] + [SeeClosed] + [FinishUp] + [ChildEnds] + [SendTerminate] + [SeeChildEnd]
  }

  /**
   Whatever the supervisor chooses to answer gets through: from every reachable state with the request
   queued, by the answer itself or, from a supervisor told to stop, by the channel that closes behind it.
   */
  lemma AnyAnswerGetsThrough(s0: State, acts: seq<Action>, answer: Answer)
    requires Initial(s0) && Run(s0, acts).letter.Queued?
    ensures Run(Run(s0, acts), AnsweredBy(answer)).stage == Returned(Answered(AsTold(s0.kind, answer)))
    ensures Run(Run(s0, acts), AnsweredAndGone(answer)).stage == Returned(Answered(AsTold(s0.kind, answer)))
  {
    RunKeepsInv(s0, acts);
    hide Next;
    AnsweredInTime(Run(s0, acts), answer);
    AnsweredWhileStopping(Run(s0, acts), answer);
  }

  lemma AnsweredInTime(s: State, answer: Answer)
    requires s.stage.Waiting? && s.letter.Queued? && s.cell.None? && s.supervisorRuns
    ensures Run(s, AnsweredBy(answer)).stage == Returned(Answered(AsTold(s.kind, answer)))
  {
    hide Next;
    TakesUpAndAnswers(s, answer);
    SeesTheAnswer(Next(Next(s, TakeUp), Write(answer)));
    RunSnoc(s, [], TakeUp);
    assert [] + [TakeUp] == [TakeUp];
    RunSnoc(s, [TakeUp], Write(answer));
    RunSnoc(s, [TakeUp] + [Write(answer)], SeeAnswer);
    SeesItThrough(s, [TakeUp] + [Write(answer)] + [SeeAnswer]);
  }

  lemma AnsweredWhileStopping(s: State, answer: Answer)
    requires s.stage.Waiting? && s.letter.Queued? && s.cell.None? && s.supervisorRuns
    ensures Run(s, AnsweredAndGone(answer)).stage == Returned(Answered(AsTold(s.kind, answer)))
  {
    hide Next;
    var closed := Next(s, CloseSupervisor);
    Closes(s);
    TakesUpAndAnswers(closed, answer);
    SeesItGone(Next(Next(closed, TakeUp), Write(answer)));
    RunSnoc(s, [], CloseSupervisor);
    assert [] + [CloseSupervisor] == [CloseSupervisor];
    var three := [CloseSupervisor] + [TakeUp] + [Write(answer)];
    RunSnoc(s, [CloseSupervisor], TakeUp);
    RunSnoc(s, [CloseSupervisor] + [TakeUp], Write(answer));
    RunSnoc(s, three, LetGo);
    RunSnoc(s, three + [LetGo], EndSupervisor);
    RunSnoc(s, three + [LetGo] + [EndSupervisor], SeeClosed);
    SeesItThrough(s, three + [LetGo] + [EndSupervisor] + [SeeClosed]);
  }

  lemma Closes(s: State)
    ensures Next(s, CloseSupervisor) == s.(supervisorOpen := false)
  {
  }

  lemma TakesUpAndAnswers(s: State, answer: Answer)
    requires s.letter.Queued? && s.cell.None? && s.supervisorRuns
    ensures var t := Next(Next(s, TakeUp), Write(answer));
      t.cell == Some(AsTold(s.kind, answer)) && t.letter.InHand? && t.stage == s.stage && t.supervisorOpen == s.supervisorOpen
  {
    hide CallerStep, ChildStep;
  }

  lemma SeesTheAnswer(s: State)
    requires s.stage.Waiting? && s.cell.Some?
    ensures Next(s, SeeAnswer).stage == Resolved(Answered(s.cell.value))
  {
  }

  lemma SeesItGone(s: State)
    requires s.stage.Waiting? && s.cell.Some? && s.letter.InHand? && !s.supervisorOpen
    ensures Next(Next(Next(s, LetGo), EndSupervisor), SeeClosed).stage == Resolved(Answered(s.cell.value))
  {
  }

  /** With its verdict in hand a caller can always return, once the child it may have to stop has ended. */
  lemma SeesItThrough(s: State, acts: seq<Action>)
    requires Run(s, acts).stage.Resolved?
    ensures Run(s, acts + [FinishUp] + [ChildEnds] + [SendTerminate] + [SeeChildEnd]).stage == Returned(Run(s, acts).stage.verdict)
  {
    hide Next;
    var t := Run(s, acts);
    RunSnoc(s, acts, FinishUp);
    RunSnoc(s, acts + [FinishUp], ChildEnds);
    RunSnoc(s, acts + [FinishUp] + [ChildEnds], SendTerminate);
    RunSnoc(s, acts + [FinishUp] + [ChildEnds] + [SendTerminate], SeeChildEnd);
    ReturnsInFour(t);
  }

  lemma ReturnsInFour(s: State)
    requires s.stage.Resolved?
    ensures Next(Next(Next(Next(s, FinishUp), ChildEnds), SendTerminate), SeeChildEnd).stage == Returned(s.stage.verdict)
  {
    hide Next, StopsChild;
    var t := Next(s, FinishUp);
    FinishesUp(s);
    EndedChildLetsGo(t);
  }

  lemma FinishesUp(s: State)
    requires s.stage.Resolved?
    ensures var v := s.stage.verdict; Next(s, FinishUp).stage == if StopsChild(s.kind, v) then StoppingChild(v) else Returned(v)
  {
    hide StopsChild, SupervisorStep, ChildStep;
  }

  lemma EndedChildLetsGo(s: State)
    requires s.stage.StoppingChild? || s.stage.Returned?
    ensures Next(Next(Next(s, ChildEnds), SendTerminate), SeeChildEnd).stage == Returned(s.stage.verdict)
  {
    hide StopsChild, SupervisorStep, WithItem, Takes;
    var t := Next(s, ChildEnds);
    assert t.stage == s.stage && t.child.ended && !t.child.open;
  }

  /**
   No child is left running unsupervised, and none is stopped that should serve on, by what the
   supervisor answered: after a registration it did not accept, or after unsupervising a child whose
   handle it gave back, the child's task has ended and its inbox is closed. After anything else the
   caller has sent it no `Terminate`. It never sends two.
   */
  lemma ChildStoppedExactlyWhenCalledFor(s0: State, acts: seq<Action>)
    requires Initial(s0) && Run(s0, acts).stage.Returned?
    ensures var c := Run(s0, acts).child;
      var called := match s0.kind {
          case Registering => !Told(s0, acts, Accepted(true))
          case Stopping => Told(s0, acts, Accepted(true))
          case Releasing => false
        };
      && (if called then c.ended && !c.open else Terminate(true) !in c.history)
      && multiset(c.history)[Terminate(true)] <= 1
  {
    hide Told;
    RunKeepsInv(s0, acts);
    TheVerdictIsTheAnswer(s0, acts, []);
    assert Run(s0, acts).stage.verdict == Answered(Accepted(true)) <==> Told(s0, acts, Accepted(true));
  }

  /** While the caller waits for the child to end, its `Terminate` is in the child's inbox, or that has closed. */
  lemma TerminateIsOnItsWay(s0: State, acts: seq<Action>)
    requires Initial(s0) && Run(s0, acts).stage.AwaitingEnd?
    ensures var c := Run(s0, acts).child; Terminate(true) in c.history || !c.open
  {
    RunKeepsInv(s0, acts);
  }

  ghost predicate CanResolve(s: State) {
    Next(s, SeeAnswer) != s || Next(s, SeeCancelled) != s || Next(s, SeeClosed) != s
  }

  /**
   No caller is stuck. It can resolve exactly when its request is answered or no longer exists
   anywhere; so while it cannot, the request is before a supervisor that still runs.
   */
  lemma WaitsOnlyWhileTheRequestExists(s0: State, acts: seq<Action>)
    requires Initial(s0) && Run(s0, acts).stage.Waiting?
    ensures var s := Run(s0, acts);
      && (CanResolve(s) <==> s.cell.Some? || s.letter.Gone?)
      && (!CanResolve(s) ==> s.supervisorRuns && (s.letter.Queued? || s.letter.InHand?))
  {
    RunKeepsInv(s0, acts);
  }

  lemma RunSnoc(s: State, acts: seq<Action>, a: Action)
    ensures Run(s, acts + [a]) == Next(Run(s, acts), a)
  {
    assert (acts + [a])[..|acts|] == acts;
  }
}
