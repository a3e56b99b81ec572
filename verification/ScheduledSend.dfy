/**
 Scheduled sends: the timer loop, the clock it waits on, and the progress it publishes.

 The loop waits for whichever of three things it sees first (a cancellation, the target's
 inbox closing, the timer coming due) with no preference among those that are ready. The
 clock, the canceller and the target act between any two of its steps. An action that is not
 possible leaves the state unchanged, so a run is any list of actions.
 */
module ScheduledSend {
  import opened Wrappers
  import opened Deadlines

  // ----- plans -----

  datatype Cadence = FixedRate | FixedDelay

  datatype Plan = Once(due: Instant) | Repeat(armedAt: Instant, interval: Interval, cadence: Cadence)

  function SendAfter(now: Instant, delay: Duration): Plan { Once(FireAfter(now, delay)) }

  function SendAt(deadline: Instant): Plan { Once(deadline) }

  function SendEvery(now: Instant, interval: Interval, cadence: Cadence): Plan { Repeat(now, interval, cadence) }

  function FirstDeadline(plan: Plan): Instant {
    match plan
    case Once(due) => due
    case Repeat(armedAt, interval, _) => NextFixedRate(armedAt, interval, armedAt)
  }

  /** When to fire again after delivering at `now`; a one-shot has no such deadline. */
  function DeadlineAfterTick(plan: Plan, now: Instant): Option<Instant> {
    match plan
    case Once(_) => None
    case Repeat(armedAt, interval, FixedRate) => Some(NextFixedRate(armedAt, interval, now))
    case Repeat(_, interval, FixedDelay) => Some(FireAfter(now, interval))
  }

  // ----- published progress -----

  datatype Outcome = Delivered | Cancelled | Abandoned | Undeliverable

  datatype Progress = Progress(deliveries: nat, due: Option<Instant>, settled: Option<Outcome>)

  ghost function Settled(p: Progress, outcome: Outcome): Progress {
    p.(due := None, settled := Some(outcome))
  }

  ghost function Ticked(p: Progress, next: Option<Instant>): Progress {
    Progress(p.deliveries + 1, next, if next.None? then Some(Delivered) else p.settled)
  }

  /** What wakes the loop: one branch of its three-way wait, with how the delivery went and the clock read after it. */
  datatype Wakeup = SawCancel | SawClosed | SawTimer(delivered: bool, now: Instant)

  ghost function PublishedBy(plan: Plan, p: Progress, wakeups: seq<Wakeup>): Progress
    decreases |wakeups|
  {
    if wakeups == [] || p.settled.Some? then p
    else match wakeups[0]
      case SawCancel => Settled(p, Cancelled)
      case SawClosed => Settled(p, Abandoned)
      case SawTimer(false, _) => Settled(p, Undeliverable)
      case SawTimer(true, now) => PublishedBy(plan, Ticked(p, DeadlineAfterTick(plan, now)), wakeups[1..])
  }

  /** The progress record the timer task owns, updated in place. */
  class TimerTask {
    var deliveries: nat
    var due: Option<Instant>
    var settled: Option<Outcome>

    function Current(): Progress
      reads this
    {
      Progress(deliveries, due, settled)
    }

    constructor Arm(plan: Plan)
      ensures Current() == Progress(0, Some(FirstDeadline(plan)), None)
    {
      deliveries, due, settled := 0, Some(FirstDeadline(plan)), None;
    }

    method Settle(outcome: Outcome)
      modifies this
      ensures Current() == Settled(old(Current()), outcome)
    {
      due := None;
      settled := Some(outcome);
    }

    method RecordDelivery(next: Option<Instant>)
      modifies this
      ensures Current() == Ticked(old(Current()), next)
    {
      deliveries := deliveries + 1;
      due := next;
      if next.None? {
        settled := Some(Delivered);
      }
    }

    /** The loop: until the schedule settles, or nothing has woken it yet. */
    method Run(plan: Plan, wakeups: seq<Wakeup>)
      requires settled.None?
      modifies this
      ensures Current() == PublishedBy(plan, old(Current()), wakeups)
    {
      var i := 0;
      while i < |wakeups|
        invariant 0 <= i <= |wakeups|
        invariant settled.None?
        invariant PublishedBy(plan, Current(), wakeups[i..]) == PublishedBy(plan, old(Current()), wakeups)
        decreases |wakeups| - i
      {
        match wakeups[i] {
          case SawCancel =>
            Settle(Cancelled);
            return;
          case SawClosed =>
            Settle(Abandoned);
            return;
          case SawTimer(delivered, now) =>
            if !delivered {
              Settle(Undeliverable);
              return;
            }
            var next := DeadlineAfterTick(plan, now);
            RecordDelivery(next);
            if next.None? {
              return;
            }
        }
        i := i + 1;
      }
    }
  }

  // ----- observers -----

  /** Waits for the schedule to end over the records it observes before the channel closes. */
  method AwaitOutcome(seen: seq<Progress>) returns (outcome: Outcome)
    ensures (exists i :: 0 <= i < |seen| && seen[i].settled == Some(outcome)
                      && forall j | 0 <= j < i :: seen[j].settled.None?)
            || (outcome == Abandoned && forall j | 0 <= j < |seen| :: seen[j].settled.None?)
  {
    var i := 0;
    while i < |seen|
      invariant 0 <= i <= |seen|
      invariant forall j | 0 <= j < i :: seen[j].settled.None?
    {
      if seen[i].settled.Some? {
        return seen[i].settled.value;
      }
      i := i + 1;
    }
    return Abandoned;
  }

  /** Waits for a count; `last` is what the channel still holds once it has closed. */
  method WaitForDeliveries(seen: seq<Progress>, last: Progress, atLeast: nat) returns (count: nat)
    ensures exists i ::
              && 0 <= i <= |seen| && count == (seen + [last])[i].deliveries
              && (i < |seen| ==> seen[i].deliveries >= atLeast || seen[i].settled.Some?)
              && forall j | 0 <= j < i :: seen[j].deliveries < atLeast && seen[j].settled.None?
  {
    var i := 0;
    while i < |seen|
      invariant 0 <= i <= |seen|
      invariant forall j | 0 <= j < i :: seen[j].deliveries < atLeast && seen[j].settled.None?
    {
      if seen[i].deliveries >= atLeast || seen[i].settled.Some? {
        assert (seen + [last])[i] == seen[i];
        return seen[i].deliveries;
      }
      i := i + 1;
    }
    assert (seen + [last])[|seen|] == last;
    return last.deliveries;
  }

  // ----- the protocol -----

  datatype Phase = Waiting | Delivering | Publishing | Stopped

  datatype State = State(
    plan: Plan,
    now: Instant,
    phase: Phase,
    progress: Progress,
    published: seq<Progress>,   // every record ever published, the current one last
    armed: seq<Instant>,        // every deadline ever armed
    sent: nat,                  // messages that have reached the inbox
    cancelled: bool,
    inboxOpen: bool
  )

  datatype Action =
    | Advance(to: Instant)
    | Cancel
    | CloseInbox
    | SeeCancel
    | SeeClosed
    | SeeTimer
    | SendSucceeds
    | SendFails
    | Publish

  ghost function Show(s: State, p: Progress): State {
    s.(progress := p, published := s.published + [p])
  }

  ghost function Stop(s: State, outcome: Outcome): State {
    Show(s, Settled(s.progress, outcome)).(phase := Stopped)
  }

  ghost function Next(s: State, a: Action): State {
    match a
    case Advance(to) => if to > s.now then s.(now := to) else s
    case Cancel => s.(cancelled := true)
    case CloseInbox => s.(inboxOpen := false)
    case SeeCancel => if s.phase.Waiting? && s.cancelled then Stop(s, Cancelled) else s
    case SeeClosed => if s.phase.Waiting? && !s.inboxOpen then Stop(s, Abandoned) else s
    case SeeTimer =>
      // the timer task holds its clock, so the timer resolves only by the deadline arriving
      if s.phase.Waiting? && s.progress.due.Some? && s.now >= s.progress.due.value then s.(phase := Delivering) else s
    case SendSucceeds =>
      // the moment its slot is taken, which a later close does not revoke
      if s.phase.Delivering? && s.inboxOpen then s.(phase := Publishing, sent := s.sent + 1) else s
    case SendFails => if s.phase.Delivering? then Stop(s, Undeliverable) else s
    case Publish =>
      if s.phase.Publishing? then
        var next := DeadlineAfterTick(s.plan, s.now);
        Show(s, Ticked(s.progress, next)).(
          phase := if next.None? then Stopped else Waiting,
          armed := s.armed + if next.Some? then [next.value] else [])
      else s
  }

  ghost function Armed(plan: Plan, now: Instant): State {
    var first := Progress(0, Some(FirstDeadline(plan)), None);
    State(plan, now, Waiting, first, [first], [FirstDeadline(plan)], 0, false, true)
  }

  ghost function Run(s: State, acts: seq<Action>): State {
    if acts == [] then s else Next(Run(s, acts[..|acts| - 1]), acts[|acts| - 1])
  }

  // ----- the progress record -----

  ghost predicate RecordInv(s: State) {
    && (s.progress.due.None? <==> s.progress.settled.Some?)
    && (s.phase.Stopped? <==> s.progress.settled.Some?)
    && s.sent == s.progress.deliveries + (if s.phase.Publishing? then 1 else 0)
    && (s.plan.Repeat? ==> s.progress.settled != Some(Delivered))
    && (s.plan.Once? ==> s.progress.deliveries == (if s.progress.settled == Some(Delivered) then 1 else 0))
    && (forall i | 0 <= i < |s.published| :: NoLater(s.published[i], s.progress))
    && s.progress in s.published
  }

  /** A record and one published no earlier: counts only grow, and a settled record is the last word. */
  ghost predicate NoLater(p: Progress, q: Progress) {
    p.deliveries <= q.deliveries && (p.settled.Some? ==> q == p)
  }

  lemma StepKeepsRecord(s: State, a: Action)
    requires RecordInv(s)
    ensures RecordInv(Next(s, a)) && NoLater(s.progress, Next(s, a).progress)
    ensures Next(s, a).plan == s.plan && s.now <= Next(s, a).now && s.sent <= Next(s, a).sent
  {
    hide DeadlineAfterTick, FirstDeadline;
    RepeatGoesOn(s.plan, s.now);
    var t := Next(s, a);
    if t.published != s.published {
      assert t.published == s.published + [t.progress];
    }
  }

  lemma {:induction false} RunKeepsRecord(plan: Plan, now: Instant, acts: seq<Action>)
    ensures var s := Run(Armed(plan, now), acts); RecordInv(s) && s.plan == plan
  {
    if acts != [] {
      RunKeepsRecord(plan, now, acts[..|acts| - 1]);
      StepKeepsRecord(Run(Armed(plan, now), acts[..|acts| - 1]), acts[|acts| - 1]);
    }
  }

  lemma {:induction false} RunFromKeepsRecord(s: State, acts: seq<Action>)
    requires RecordInv(s)
    ensures var t := Run(s, acts);
      RecordInv(t) && NoLater(s.progress, t.progress) && t.plan == s.plan && s.now <= t.now && s.sent <= t.sent
  {
    if acts != [] {
      RunFromKeepsRecord(s, acts[..|acts| - 1]);
      StepKeepsRecord(Run(s, acts[..|acts| - 1]), acts[|acts| - 1]);
    }
  }

  lemma {:induction false} RunAppend(s: State, a: seq<Action>, b: seq<Action>)
    ensures Run(s, a + b) == Run(Run(s, a), b)
  {
    if b == [] {
      assert a + b == a;
    } else {
      assert (a + b)[..|a + b| - 1] == a + b[..|b| - 1];
      RunAppend(s, a, b[..|b| - 1]);
    }
  }

  /**
   The published record over a whole run. A deadline is armed exactly until the schedule
   settles, and no later step changes a settled record or lowers a count. A one-shot settles
   as delivered exactly when it has delivered, once; a repeating schedule never does.
   */
  lemma SettledOnceAndForAll(plan: Plan, now: Instant, acts: seq<Action>, more: seq<Action>)
    ensures var p, q := Run(Armed(plan, now), acts).progress, Run(Armed(plan, now), acts + more).progress;
      && (p.due.None? <==> p.settled.Some?)
      && p.deliveries <= q.deliveries
      && (p.settled.Some? ==> q == p)
      && (plan.Once? ==> p.deliveries <= 1 && (p.settled == Some(Delivered) <==> p.deliveries == 1))
      && (plan.Repeat? ==> p.settled != Some(Delivered))
  {
    RunKeepsRecord(plan, now, acts);
    RunAppend(Armed(plan, now), acts, more);
    RunFromKeepsRecord(Run(Armed(plan, now), acts), more);
  }

  /** Whatever records an observer happens to see, the count it waits for is one the schedule really reached. */
  lemma ObservedCountIsReal(plan: Plan, now: Instant, acts: seq<Action>, seen: Progress)
    requires seen in Run(Armed(plan, now), acts).published
    ensures var s := Run(Armed(plan, now), acts);
      seen.deliveries <= s.progress.deliveries <= s.sent && (seen.settled.Some? ==> s.progress == seen)
  {
    RunKeepsRecord(plan, now, acts);
  }

  // ----- the protocol runs the loop -----

  /** The wakeups of the loop in a run: one for each time it settles or publishes a delivery. */
  ghost function Wakeups(s: State, acts: seq<Action>): seq<Wakeup> {
    if acts == [] then []
    else
      var was := Run(s, acts[..|acts| - 1]);
      Wakeups(s, acts[..|acts| - 1])
      + if Next(was, acts[|acts| - 1]).published == was.published then []
        else match acts[|acts| - 1]
             case SeeCancel => [SawCancel]
             case SeeClosed => [SawClosed]
             case SendFails => [SawTimer(false, was.now)]
             case _ => [SawTimer(true, was.now)]
  }

  lemma {:induction false} PublishedBySnoc(plan: Plan, p: Progress, wakeups: seq<Wakeup>, w: Wakeup)
    ensures PublishedBy(plan, p, wakeups + [w]) == PublishedBy(plan, PublishedBy(plan, p, wakeups), [w])
    decreases |wakeups|
  {
    if wakeups == [] {
      assert [] + [w] == [w];
    } else {
      assert (wakeups + [w])[1..] == wakeups[1..] + [w];
      if p.settled.None? && wakeups[0].SawTimer? && wakeups[0].delivered {
        PublishedBySnoc(plan, Ticked(p, DeadlineAfterTick(plan, wakeups[0].now)), wakeups[1..], w);
      }
    }
  }

  /** Any run of the protocol publishes just what the loop does when woken as in that run. */
  lemma {:induction false} ProtocolRunsTheLoop(plan: Plan, now: Instant, acts: seq<Action>)
    ensures var s := Armed(plan, now);
      Run(s, acts).progress == PublishedBy(plan, s.progress, Wakeups(s, acts))
  {
    if acts != [] {
      var s, before, a := Armed(plan, now), acts[..|acts| - 1], acts[|acts| - 1];
      ProtocolRunsTheLoop(plan, now, before);
      RunKeepsRecord(plan, now, before);
      var was := Run(s, before);
      var ws := Wakeups(s, before);
      LoopStep(was, a);
      if Next(was, a).published == was.published {
        assert Wakeups(s, acts) == ws;
      } else {
        var w := Wakeups(s, acts)[|ws|];
        assert Wakeups(s, acts) == ws + [w];
        PublishedBySnoc(plan, s.progress, ws, w);
      }
    }
  }

  lemma LoopStep(s: State, a: Action)
    requires RecordInv(s)
    ensures var t := Next(s, a);
      if t.published == s.published then t.progress == s.progress
      else match a
           case SeeCancel => t.progress == PublishedBy(s.plan, s.progress, [SawCancel])
           case SeeClosed => t.progress == PublishedBy(s.plan, s.progress, [SawClosed])
           case SendFails => t.progress == PublishedBy(s.plan, s.progress, [SawTimer(false, s.now)])
           case Publish => t.progress == PublishedBy(s.plan, s.progress, [SawTimer(true, s.now)])
           case _ => false
  {
    hide FirstDeadline, DeadlineAfterTick;
    assert |s.published| != |s.published + [Next(s, a).progress]|;
  }

  /** Which outcome the loop settles on, by what woke it last. */
  ghost predicate SettledBy(plan: Plan, settled: Option<Outcome>, wakeups: seq<Wakeup>) {
    if wakeups == [] then settled == None
    else match wakeups[|wakeups| - 1]
      case SawCancel => settled == Some(Cancelled)
      case SawClosed => settled == Some(Abandoned)
      case SawTimer(delivered, _) =>
        settled == if !delivered then Some(Undeliverable) else if plan.Once? then Some(Delivered) else None
  }

  lemma StepSettles(s: State, a: Action)
    requires RecordInv(s)
    ensures var t := Next(s, a);
      && (t.published == s.published ==> t.progress.settled == s.progress.settled)
      && (t.published != s.published ==>
            match a
            case SeeCancel => s.cancelled && t.progress.settled == Some(Cancelled)
            case SeeClosed => !s.inboxOpen && t.progress.settled == Some(Abandoned)
            case SendFails => t.progress.settled == Some(Undeliverable)
            case Publish => t.progress.settled == if s.plan.Once? then Some(Delivered) else None
            case _ => false)
  {
    hide DeadlineAfterTick, FirstDeadline;
    RepeatGoesOn(s.plan, s.now);
    assert |s.published| != |s.published + [Next(s, a).progress]|;
  }

  lemma {:induction false} RequestsAreActions(plan: Plan, now: Instant, acts: seq<Action>)
    ensures var s := Run(Armed(plan, now), acts);
      (s.cancelled <==> Cancel in acts) && (s.inboxOpen <==> CloseInbox !in acts)
  {
    hide DeadlineAfterTick, FirstDeadline;
    if acts != [] {
      RequestsAreActions(plan, now, acts[..|acts| - 1]);
      assert acts == acts[..|acts| - 1] + [acts[|acts| - 1]];
    }
  }

  /**
   Every outcome has its own cause, in every run. What the loop settled on is what it saw last; it
   saw a cancellation only if one was requested, and a closed inbox only if it was closed.
   */
  lemma {:induction false} OutcomesHaveCauses(plan: Plan, now: Instant, acts: seq<Action>)
    ensures var s := Run(Armed(plan, now), acts);
      && SettledBy(plan, s.progress.settled, Wakeups(Armed(plan, now), acts))
      && (s.progress.settled == Some(Cancelled) ==> Cancel in acts)
      && (s.progress.settled == Some(Abandoned) ==> CloseInbox in acts)
  {
    hide Next;
    if acts != [] {
      var s0, before, a := Armed(plan, now), acts[..|acts| - 1], acts[|acts| - 1];
      OutcomesHaveCauses(plan, now, before);
      RunKeepsRecord(plan, now, before);
      RequestsAreActions(plan, now, before);
      StepSettles(Run(s0, before), a);
      assert acts == before + [a];
      if Next(Run(s0, before), a).published == Run(s0, before).published {
        assert Wakeups(s0, acts) == Wakeups(s0, before);
      }
    }
  }

  /** Some run of the plan settles on `outcome`. */
  ghost predicate MaySettle(plan: Plan, now: Instant, outcome: Outcome) {
    exists acts: seq<Action> :: Run(Armed(plan, now), acts).progress.settled == Some(outcome)
  }

  lemma RunOfThree(s: State, a: Action, b: Action, c: Action)
    ensures Run(s, [a] + [b]) == Next(Next(s, a), b)
    ensures Run(s, [a] + [b] + [c]) == Next(Next(Next(s, a), b), c)
  {
    hide Next;
    RunSnoc(s, [], a);
    assert [] + [a] == [a];
    RunSnoc(s, [a], b);
    RunSnoc(s, [a] + [b], c);
  }

  lemma StopsBeforeDelivering(s: State)
    requires s.phase.Waiting?
    ensures Next(Next(s, Cancel), SeeCancel).progress.settled == Some(Cancelled)
    ensures Next(Next(s, CloseInbox), SeeClosed).progress.settled == Some(Abandoned)
  {
  }

  lemma StopsInDelivering(s: State)
    requires s.phase.Waiting? && s.inboxOpen && s.progress.due.Some?
    ensures var t := Next(Next(s, Advance(s.progress.due.value)), SeeTimer);
      && Next(t, SendFails).progress.settled == Some(Undeliverable)
      && (s.plan.Once? ==> Next(Next(t, SendSucceeds), Publish).progress.settled == Some(Delivered))
  {
    hide DeadlineAfterTick;
    RepeatGoesOn(s.plan, Next(s, Advance(s.progress.due.value)).now);
  }

  /** Each outcome can come of any plan, `Delivered` of one-shots alone. */
  lemma EveryOutcomeHappens(plan: Plan, now: Instant)
    ensures MaySettle(plan, now, Cancelled) && MaySettle(plan, now, Abandoned) && MaySettle(plan, now, Undeliverable)
    ensures MaySettle(plan, now, Delivered) <==> plan.Once?
  {
    hide FirstDeadline, Next;
    var s, due := Armed(plan, now), FirstDeadline(plan);
    StopsBeforeDelivering(s);
    StopsInDelivering(s);
    RunOfThree(s, Cancel, SeeCancel, Cancel);
    assert Run(s, [Cancel] + [SeeCancel]).progress.settled == Some(Cancelled);
    RunOfThree(s, CloseInbox, SeeClosed, Cancel);
    assert Run(s, [CloseInbox] + [SeeClosed]).progress.settled == Some(Abandoned);
    RunOfThree(s, Advance(due), SeeTimer, SendFails);
    assert Run(s, [Advance(due)] + [SeeTimer] + [SendFails]).progress.settled == Some(Undeliverable);
    if plan.Once? {
      RunOfThree(s, Advance(due), SeeTimer, SendSucceeds);
      RunSnoc(s, [Advance(due)] + [SeeTimer] + [SendSucceeds], Publish);
      assert Run(s, [Advance(due)] + [SeeTimer] + [SendSucceeds] + [Publish]).progress.settled == Some(Delivered);
    } else {
      forall acts: seq<Action> ensures Run(s, acts).progress.settled != Some(Delivered) {
        RunKeepsRecord(plan, now, acts);
      }
    }
  }

  // ----- nothing is early -----

  ghost predicate OnTimeInv(s: State) {
    var n := |s.armed|;
    && n > 0 && s.armed[0] == FirstDeadline(s.plan)
    && s.sent <= n <= s.sent + 1
    && (forall k | 0 <= k < s.sent :: s.armed[k] <= s.now)
    && (s.phase.Waiting? || s.phase.Delivering? ==> s.sent == n - 1 && s.progress.due == Some(s.armed[n - 1]))
    && (s.phase.Delivering? ==> s.armed[n - 1] <= s.now)
    && (s.phase.Publishing? ==> s.sent == n)
  }

  lemma StepIsOnTime(s: State, a: Action)
    requires OnTimeInv(s)
    ensures OnTimeInv(Next(s, a))
  {
    hide DeadlineAfterTick, FirstDeadline;
  }

  /**
   Every message has its own deadline, and never reaches the inbox before the clock does, for
   either kind of plan and whether or not the arithmetic saturated. The first deadline is the
   delay asked for whenever that can be represented.
   */
  lemma {:induction false} NothingIsEarly(plan: Plan, now: Instant, acts: seq<Action>)
    ensures OnTimeInv(Run(Armed(plan, now), acts))
  {
    hide DeadlineAfterTick, FirstDeadline;
    if acts != [] {
      hide Next, OnTimeInv;
      NothingIsEarly(plan, now, acts[..|acts| - 1]);
      StepIsOnTime(Run(Armed(plan, now), acts[..|acts| - 1]), acts[|acts| - 1]);
    }
  }

  /** What each way of scheduling promises about its first message, wherever the run has got to. */
  lemma FirstMessageWaitsItsDelay(now: Instant, delay: Duration, deadline: Instant, interval: Interval, cadence: Cadence,
                                  acts: seq<Action>)
    ensures var s := Run(Armed(SendAfter(now, delay), now), acts);
      s.sent > 0 ==> FireAfter(now, delay) <= s.now && (now + delay <= MAX_INSTANT ==> now + delay <= s.now)
    ensures var s := Run(Armed(SendAt(deadline), now), acts);
      s.sent > 0 ==> deadline <= s.now
    ensures var s := Run(Armed(SendEvery(now, interval, cadence), now), acts);
      s.sent > 0 && now + interval <= MAX_INSTANT ==> now + interval <= s.now
  {
    hide Run, Armed, NextFixedRate;
    var after, at, every := SendAfter(now, delay), SendAt(deadline), SendEvery(now, interval, cadence);
    NothingIsEarly(after, now, acts);
    NothingIsEarly(at, now, acts);
    NothingIsEarly(every, now, acts);
    RunKeepsRecord(after, now, acts);
    RunKeepsRecord(at, now, acts);
    RunKeepsRecord(every, now, acts);
    FireAfterSaturatesUpwards(now, delay);
    if now + interval <= MAX_INSTANT {
      FirstIsOneInterval(every, now);
    }
  }

  /** The first deadline is the one asked for, neither sooner nor later, whenever it can be represented. */
  lemma FirstDeadlineIsAsAsked(now: Instant, delay: Duration, deadline: Instant, interval: Interval, cadence: Cadence,
                               acts: seq<Action>)
    ensures now + delay <= MAX_INSTANT ==> FirstArmed(SendAfter(now, delay), now, acts) == Some(now + delay)
    ensures FirstArmed(SendAt(deadline), now, acts) == Some(deadline)
    ensures now + interval <= MAX_INSTANT ==> FirstArmed(SendEvery(now, interval, cadence), now, acts) == Some(now + interval)
  {
    hide Run, Armed, NextFixedRate;
    var after, at, every := SendAfter(now, delay), SendAt(deadline), SendEvery(now, interval, cadence);
    NothingIsEarly(after, now, acts);
    NothingIsEarly(at, now, acts);
    NothingIsEarly(every, now, acts);
    RunKeepsRecord(after, now, acts);
    RunKeepsRecord(at, now, acts);
    RunKeepsRecord(every, now, acts);
    FireAfterSaturatesUpwards(now, delay);
    if now + interval <= MAX_INSTANT {
      FirstIsOneInterval(every, now);
    }
  }

  ghost function FirstArmed(plan: Plan, now: Instant, acts: seq<Action>): Option<Instant> {
    var armed := Run(Armed(plan, now), acts).armed;
    if armed == [] then None else Some(armed[0])
  }

  // ----- how fast a repeating schedule can go -----

  /** The clock has room for one more interval: nothing this schedule computes has saturated. */
  ghost predicate Headroom(s: State) {
    s.plan.Repeat? && s.now + s.plan.interval <= MAX_INSTANT
  }

  ghost predicate OnGrid(armedAt: int, interval: int, at: int) {
    exists k: nat :: at == armedAt + k * interval
  }

  ghost predicate PaceInv(s: State)
    requires s.plan.Repeat?
  {
    var n, i := |s.armed|, s.plan.interval;
    && n > 0 && s.plan.armedAt <= s.now
    && s.armed[0] == s.plan.armedAt + i
    && (forall k | 0 < k < n :: s.armed[k] >= s.armed[k - 1] + i)
    && (s.progress.due.Some? ==> s.progress.due == Some(s.armed[n - 1]))
    && (s.phase.Waiting? || s.phase.Delivering? ==> s.sent == n - 1)
    && (s.phase.Publishing? ==> s.sent == n)
    && (s.phase.Stopped? ==> s.sent == n - 1)
    && (s.phase.Delivering? || s.phase.Publishing? ==> s.now >= s.armed[n - 1])
    && (n > 1 ==> s.now >= s.armed[n - 2])
    && (s.plan.cadence.FixedRate? ==> OnGrid(s.plan.armedAt, i, s.armed[n - 1]))
  }

  lemma NextGridPoint(armedAt: Instant, interval: Interval, last: Instant, now: Instant)
    requires armedAt <= last <= now && OnGrid(armedAt, interval, last) && now + interval <= MAX_INSTANT
    ensures NextFixedRate(armedAt, interval, now) >= last + interval
    ensures OnGrid(armedAt, interval, NextFixedRate(armedAt, interval, now))
  {
    GridOffsetBounds(armedAt, interval, now);
    NextFixedRateIsTheNaiveLoop(armedAt, interval, now);
    var next, t := NextFixedRate(armedAt, interval, now), Ticks(armedAt, interval, now);
    assert next == armedAt + t * interval;
    var k: nat :| last == armedAt + k * interval;
    GridOrder(t, k, interval);
    GridOrder(k + 1, t, interval);
    assert (k + 1) * interval == k * interval + interval;
  }

  lemma GridOrder(a: nat, b: nat, interval: int)
    requires interval > 0
    ensures a <= b ==> a * interval <= b * interval
  {
  }

  lemma FirstIsOneInterval(plan: Plan, now: Instant)
    requires plan.Repeat? && plan.armedAt <= now && now + plan.interval <= MAX_INSTANT
    ensures FirstDeadline(plan) == plan.armedAt + plan.interval
    ensures OnGrid(plan.armedAt, plan.interval, FirstDeadline(plan))
  {
    OffsetIsExact(plan.armedAt, plan.interval, plan.armedAt);
    FirstIntervalOffset(plan.armedAt, plan.interval, plan.armedAt);
    assert plan.armedAt + plan.interval == plan.armedAt + 1 * plan.interval;
  }

  /** The next deadline is at least one interval after the one just served. */
  lemma NextDeadlineIsApart(plan: Plan, last: Instant, now: Instant)
    requires plan.Repeat? && plan.armedAt <= last <= now && now + plan.interval <= MAX_INSTANT
    requires plan.cadence.FixedRate? ==> OnGrid(plan.armedAt, plan.interval, last)
    ensures var next := DeadlineAfterTick(plan, now);
      && next.Some? && next.value >= last + plan.interval
      && (plan.cadence.FixedRate? ==> OnGrid(plan.armedAt, plan.interval, next.value))
  {
    if plan.cadence.FixedRate? {
      NextGridPoint(plan.armedAt, plan.interval, last, now);
    }
  }

  lemma PublishKeepsPace(s: State)
    requires RecordInv(s) && Headroom(s) && PaceInv(s) && s.phase.Publishing?
    ensures PaceInv(Next(s, Publish))
  {
    hide NextFixedRate, FireAfter, OnGrid, DeadlineAfterTick;
    var n := |s.armed|;
    ArmedAreApart(s, n - 1);
    GridOrder(0, n, s.plan.interval);
    NextDeadlineIsApart(s.plan, s.armed[n - 1], s.now);
    var next := DeadlineAfterTick(s.plan, s.now).value;
    assert Next(s, Publish).armed == s.armed + [next];
  }

  lemma {:induction false} ArmedAreApart(s: State, k: nat)
    requires s.plan.Repeat? && PaceInv(s) && k < |s.armed|
    ensures s.armed[k] >= s.plan.armedAt + (k + 1) * s.plan.interval
  {
    if k > 0 {
      ArmedAreApart(s, k - 1);
      assert (k + 1) * s.plan.interval == k * s.plan.interval + s.plan.interval;
    }
  }

  lemma StepKeepsPace(s: State, a: Action)
    requires RecordInv(s) && s.plan.Repeat? && PaceInv(s) && Headroom(Next(s, a))
    ensures PaceInv(Next(s, a))
  {
    hide OnGrid, DeadlineAfterTick;
    if a.Publish? {
      if s.phase.Publishing? { PublishKeepsPace(s); }
    }
  }

  lemma {:induction false} RunKeepsPace(plan: Plan, now: Instant, acts: seq<Action>)
    requires plan.Repeat? && plan.armedAt <= now && Headroom(Run(Armed(plan, now), acts))
    ensures RecordInv(Run(Armed(plan, now), acts)) && PaceInv(Run(Armed(plan, now), acts))
  {
    RunKeepsRecord(plan, now, acts);
    if acts == [] {
      FirstIsOneInterval(plan, now);
    } else {
      var s := Run(Armed(plan, now), acts[..|acts| - 1]);
      RunKeepsRecord(plan, now, acts[..|acts| - 1]);
      StepKeepsRecord(s, acts[|acts| - 1]);
      RunKeepsPace(plan, now, acts[..|acts| - 1]);
      StepKeepsPace(s, acts[|acts| - 1]);
    }
  }

  /**
   The rate bound, for both cadences and every run. Armed deadlines are at least one interval
   apart, starting one interval after arming, and the messages that have reached the inbox,
   each worth an interval, never outrun the time since arming, however the clock jumps and
   however slow the sends are.
   */
  lemma NeverFasterThanTheInterval(plan: Plan, now: Instant, acts: seq<Action>)
    requires plan.Repeat? && plan.armedAt <= now && Headroom(Run(Armed(plan, now), acts))
    ensures Run(Armed(plan, now), acts).plan == plan && Paced(Run(Armed(plan, now), acts))
  {
    hide Run, PaceInv, RecordInv, Armed;
    RunKeepsPace(plan, now, acts);
    RunKeepsRecord(plan, now, acts);
    PaceBounds(Run(Armed(plan, now), acts));
  }

  ghost predicate Paced(s: State)
    requires s.plan.Repeat?
  {
    && s.sent * s.plan.interval <= s.now - s.plan.armedAt
    && s.progress.deliveries <= s.sent <= |s.armed|
    && s.armed != [] && s.armed[0] == s.plan.armedAt + s.plan.interval
    && (forall k | 0 < k < |s.armed| :: s.armed[k] >= s.armed[k - 1] + s.plan.interval)
    && (s.sent > 0 ==> s.now >= s.armed[s.sent - 1])
  }

  lemma PaceBounds(s: State)
    requires RecordInv(s) && s.plan.Repeat? && PaceInv(s)
    ensures Paced(s)
  {
    hide OnGrid;
    if s.sent > 0 {
      ArmedAreApart(s, s.sent - 1);
    }
  }

  // ----- exactly which deadlines are armed -----

  /** The clock once these actions have been taken: it only ever moves forward. */
  ghost function ClockAfter(start: Instant, acts: seq<Action>): Instant {
    if acts == [] then start
    else
      var was := ClockAfter(start, acts[..|acts| - 1]);
      match acts[|acts| - 1]
      case Advance(to) => if to > was then to else was
      case _ => was
  }

  /** What the clock read at each delivery published in a run. */
  ghost function Readings(plan: Plan, start: Instant, acts: seq<Action>): seq<Instant> {
    if acts == [] then []
    else
      var before := acts[..|acts| - 1];
      Readings(plan, start, before)
      + if acts[|acts| - 1].Publish? && Run(Armed(plan, start), before).phase.Publishing? then [ClockAfter(start, before)] else []
  }

  lemma {:induction false} NowIsTheClock(plan: Plan, start: Instant, acts: seq<Action>)
    ensures Run(Armed(plan, start), acts).now == ClockAfter(start, acts)
  {
    hide DeadlineAfterTick, FirstDeadline;
    if acts != [] {
      NowIsTheClock(plan, start, acts[..|acts| - 1]);
    }
  }

  /** The records published up to the last delivery, each with its count and the deadline armed with it. */
  ghost predicate Shown(s: State) {
    && |s.published| >= |s.armed| > 0
    && (s.phase.Stopped? || |s.published| == |s.armed|)
    && forall k | 0 <= k < |s.armed| :: s.published[k] == Progress(k, Some(s.armed[k]), None)
  }

  lemma StepIsShown(s: State, a: Action)
    requires RecordInv(s) && s.plan.Repeat? && Shown(s)
    requires s.progress == s.published[|s.published| - 1]
    ensures Shown(Next(s, a)) && Next(s, a).progress == Next(s, a).published[|Next(s, a).published| - 1]
    ensures Next(s, a).armed == s.armed
            + if a.Publish? && s.phase.Publishing? then [DeadlineAfterTick(s.plan, s.now).value] else []
  {
    hide DeadlineAfterTick, FirstDeadline;
    RepeatGoesOn(s.plan, s.now);
  }

  /** `due` is the deadline to arm after a delivery at `reading`: an interval later, or the first grid point past it, found by adding intervals. */
  ghost predicate ArmedFor(plan: Plan, due: Instant, reading: Instant)
    requires plan.Repeat?
  {
    if plan.cadence.FixedDelay? then due == reading + plan.interval
    else due == StepUntilPast(plan.armedAt + plan.interval, plan.interval, reading)
  }

  lemma NextIsArmedFor(plan: Plan, reading: Instant)
    requires plan.Repeat? && plan.armedAt <= reading && reading + plan.interval <= MAX_INSTANT
    ensures var due := DeadlineAfterTick(plan, reading); due.Some? && ArmedFor(plan, due.value, reading)
  {
    hide StepUntilPast;
    if plan.cadence.FixedRate? {
      GridOffsetBounds(plan.armedAt, plan.interval, reading);
      NextFixedRateIsTheNaiveLoop(plan.armedAt, plan.interval, reading);
    } else {
      FireAfterSaturatesUpwards(reading, plan.interval);
    }
  }

  /** The first deadline is one interval after arming, each one after it belongs to the delivery before it, and all were published as they were armed. */
  ghost predicate ArmedByTheBook(plan: Plan, readings: seq<Instant>, s: State)
    requires plan.Repeat?
  {
    && |s.armed| == |readings| + 1
    && s.armed[0] == plan.armedAt + plan.interval
    && (forall k | 0 <= k < |readings| :: ArmedFor(plan, s.armed[k + 1], readings[k]))
    && Shown(s)
  }

  /**
   Which deadlines are armed, over every run whose clock leaves room for one more interval. Under a
   fixed delay each is the clock's reading at the delivery before it plus the interval; under a fixed
   rate it is what adding intervals to the arming instant first takes past that reading. And the
   record published with the `k`-th delivery shows the count `k` and the deadline armed with it.
   */
  lemma {:induction false} DeadlinesAreExact(plan: Plan, start: Instant, acts: seq<Action>)
    requires plan.Repeat? && plan.armedAt <= start && Headroom(Run(Armed(plan, start), acts))
    ensures var s := Run(Armed(plan, start), acts);
      ArmedByTheBook(plan, Readings(plan, start, acts), s) && s.progress == s.published[|s.published| - 1]
  {
    hide Next, DeadlineAfterTick, FirstDeadline, StepUntilPast, RecordInv, Shown;
    if acts == [] {
      FirstIsOneInterval(plan, start);
      ShownWhenArmed(plan, start);
    } else {
      var before, a := acts[..|acts| - 1], acts[|acts| - 1];
      var s := Run(Armed(plan, start), before);
      RunKeepsRecord(plan, start, before);
      StepKeepsRecord(s, a);
      DeadlinesAreExact(plan, start, before);
      StepIsShown(s, a);
      NowIsTheClock(plan, start, before);
      ClockStarts(start, before);
      NextIsArmedFor(plan, s.now);
    }
  }

  /** In the caller's own terms: the interval and the cadence it asked for, from the moment it asked. */
  lemma SendEveryKeepsItsCadence(now: Instant, interval: Interval, cadence: Cadence, acts: seq<Action>)
    requires Headroom(Run(Armed(SendEvery(now, interval, cadence), now), acts))
    ensures var plan := SendEvery(now, interval, cadence);
      var armed, readings := Run(Armed(plan, now), acts).armed, Readings(plan, now, acts);
      && |armed| == |readings| + 1
      && armed[0] == now + interval
      && forall k | 0 <= k < |readings| ::
           armed[k + 1] == if cadence.FixedDelay? then readings[k] + interval
                           else StepUntilPast(now + interval, interval, readings[k])
  {
    hide Run, Armed, Readings, StepUntilPast, Shown;
    var plan := SendEvery(now, interval, cadence);
    DeadlinesAreExact(plan, now, acts);
    var armed, readings := Run(Armed(plan, now), acts).armed, Readings(plan, now, acts);
    forall k | 0 <= k < |readings|
      ensures armed[k + 1] == if cadence.FixedDelay? then readings[k] + interval
                              else StepUntilPast(now + interval, interval, readings[k])
    {
      assert ArmedFor(plan, armed[k + 1], readings[k]);
    }
  }

  lemma ShownWhenArmed(plan: Plan, start: Instant)
    ensures Shown(Armed(plan, start))
  {
  }

  lemma {:induction false} ClockStarts(start: Instant, acts: seq<Action>)
    ensures ClockAfter(start, acts) >= start
  {
    if acts != [] {
      ClockStarts(start, acts[..|acts| - 1]);
    }
  }

  // ----- missed ticks are coalesced -----

  /** The deadline a tick delivered at `now` would arm is not already due. */
  ghost predicate ArmsTheFuture(plan: Plan, now: Instant) {
    DeadlineAfterTick(plan, now).Some? ==> now < DeadlineAfterTick(plan, now).value
  }

  ghost predicate ClockHeld(acts: seq<Action>) {
    forall i | 0 <= i < |acts| :: !acts[i].Advance?
  }

  lemma {:induction false} HeldRun(s: State, acts: seq<Action>)
    requires ClockHeld(acts) && s.phase.Waiting? && ArmsTheFuture(s.plan, s.now)
    ensures var t := Run(s, acts);
      && t.now == s.now && t.plan == s.plan
      && s.sent <= t.sent <= s.sent + 1
      && (t.sent == s.sent + 1 ==> t.phase != Delivering
                                   && (t.phase.Waiting? && t.progress.due.Some? ==> t.now < t.progress.due.value))
      && (t.sent == s.sent ==> t.phase != Publishing)
  {
    if acts != [] {
      HeldRun(s, acts[..|acts| - 1]);
    }
  }

  /** The loop serving a deadline that is already due, `n` times over. */
  ghost function Rounds(n: nat): seq<Action> {
    if n == 0 then [] else Rounds(n - 1) + [SeeTimer, SendSucceeds, Publish]
  }

  lemma OneRound(s: State)
    requires s.phase.Waiting? && s.inboxOpen && s.plan.Repeat?
    requires s.progress.due.Some? && s.progress.due.value <= s.now && !ArmsTheFuture(s.plan, s.now)
    ensures var t := Run(s, [SeeTimer, SendSucceeds, Publish]);
      && t.phase.Waiting? && t.inboxOpen && t.plan == s.plan && t.now == s.now && t.sent == s.sent + 1
      && t.progress.due.Some? && t.progress.due.value <= t.now
  {
    var acts := [SeeTimer, SendSucceeds, Publish];
    assert acts[..2][..1][..0] == [] && acts[..2][..1] == [SeeTimer] && acts[..2] == [SeeTimer, SendSucceeds];
    assert Run(s, acts[..2][..1]) == Next(s, SeeTimer);
    assert Run(s, acts[..2]) == Next(Next(s, SeeTimer), SendSucceeds);
  }

  lemma {:induction false} RoundsSpin(s: State, n: nat)
    requires s.phase.Waiting? && s.inboxOpen && s.plan.Repeat?
    requires s.progress.due.Some? && s.progress.due.value <= s.now && !ArmsTheFuture(s.plan, s.now)
    ensures ClockHeld(Rounds(n))
    ensures var t := Run(s, Rounds(n));
      && t.phase.Waiting? && t.inboxOpen && t.plan == s.plan && t.now == s.now && t.sent == s.sent + n
      && t.progress.due.Some? && t.progress.due.value <= t.now
  {
    if n > 0 {
      RoundsSpin(s, n - 1);
      RunAppend(s, Rounds(n - 1), [SeeTimer, SendSucceeds, Publish]);
      OneRound(Run(s, Rounds(n - 1)));
    }
  }

  /** However the loop is run, it delivers at most one message before the clock moves. */
  ghost predicate Coalesces(s: State) {
    forall acts | ClockHeld(acts) :: Run(s, acts).sent <= s.sent + 1
  }

  /** The deadline is due and the inbox takes messages. */
  ghost predicate CanServe(s: State) {
    s.inboxOpen && s.progress.due.Some? && s.progress.due.value <= s.now
  }

  lemma {:induction false} CannotServe(s: State, acts: seq<Action>)
    requires ClockHeld(acts) && s.phase.Waiting? && !CanServe(s)
    ensures var t := Run(s, acts);
      t.now == s.now && t.sent == s.sent && t.phase != Publishing
      && (t.inboxOpen ==> s.inboxOpen && (t.phase.Waiting? ==> t.progress == s.progress) && t.phase != Delivering)
  {
    if acts != [] {
      CannotServe(s, acts[..|acts| - 1]);
    }
  }

  /**
   Missed ticks are coalesced: from a waiting state, one jump of the clock of any size is
   followed by at most one delivery until the clock moves again. That holds exactly unless a
   deadline is due, the inbox is open, and the deadline armed next would be due already; in
   that case any number of messages can be delivered with the clock standing still.
   */
  lemma CoalescesExactlyWhenArmingTheFuture(s: State, to: Instant)
    requires s.phase.Waiting?
    ensures var j := Next(s, Advance(to));
      && (Coalesces(j) <==> ArmsTheFuture(j.plan, j.now) || !CanServe(j))
      && (!Coalesces(j) ==> forall n: nat :: ClockHeld(Rounds(n)) && Run(j, Rounds(n)).sent == s.sent + n)
  {
    var j := Next(s, Advance(to));
    if ArmsTheFuture(j.plan, j.now) || !CanServe(j) {
      forall acts | ClockHeld(acts) ensures Run(j, acts).sent <= j.sent + 1 {
        if CanServe(j) { HeldRun(j, acts); } else { CannotServe(j, acts); }
      }
    } else {
      forall n: nat ensures ClockHeld(Rounds(n)) && Run(j, Rounds(n)).sent == s.sent + n {
        RoundsSpin(j, n);
      }
      assert ClockHeld(Rounds(2)) && Run(j, Rounds(2)).sent == j.sent + 2;
    }
  }

  /**
   Which schedules arm the future, in terms of what the caller chose and what the clock reads: for
   every plan and every reading, saturated or not.
   */
  lemma ArmsTheFutureWhen(plan: Plan, now: Instant)
    ensures plan.Once? ==> ArmsTheFuture(plan, now)
    ensures plan.Repeat? && plan.cadence.FixedDelay? ==> (ArmsTheFuture(plan, now) <==> now < MAX_INSTANT)
    ensures plan.Repeat? && plan.cadence.FixedRate? ==>
              (ArmsTheFuture(plan, now) <==>
                 if now < plan.armedAt then true
                 else if plan.armedAt == MIN_INSTANT then now < MAX_INSTANT
                 else if now - plan.armedAt < plan.interval then
                   now - plan.armedAt < HalvedToFit(plan.interval, MAX_INSTANT - plan.armedAt)
                 else plan.armedAt + GridOffset(plan.armedAt, plan.interval, now) <= MAX_INSTANT)
  {
    if plan.Repeat? && plan.cadence.FixedDelay? {
      FireAfterSaturatesUpwards(now, plan.interval);
    } else if plan.Repeat? && plan.armedAt <= now {
      NextFixedRateStrictlyAfterNow(plan.armedAt, plan.interval, now);
    }
  }

  lemma SpinsUnlessArmingTheFuture(plan: Plan, start: Instant, to: Instant)
    requires plan.Repeat? && start <= to && FirstDeadline(plan) <= to
    ensures (forall n: nat :: Run(Armed(plan, start), [Advance(to)] + Rounds(n)).sent == n) <==> !ArmsTheFuture(plan, to)
  {
    hide DeadlineAfterTick, FirstDeadline;
    var s := Armed(plan, start);
    var j := Next(s, Advance(to));
    RunSnoc(s, [], Advance(to));
    assert [] + [Advance(to)] == [Advance(to)];
    forall n: nat ensures Run(s, [Advance(to)] + Rounds(n)) == Run(j, Rounds(n)) {
      RunAppend(s, [Advance(to)], Rounds(n));
    }
    if ArmsTheFuture(plan, to) {
      RoundsHoldTheClock(2);
      HeldRun(j, Rounds(2));
      assert Run(s, [Advance(to)] + Rounds(2)).sent != 2;
    } else {
      forall n: nat ensures Run(s, [Advance(to)] + Rounds(n)).sent == n {
        RoundsSpin(j, n);
      }
    }
  }

  lemma {:induction false} RoundsHoldTheClock(n: nat)
    ensures ClockHeld(Rounds(n))
  {
    if n > 0 {
      RoundsHoldTheClock(n - 1);
    }
  }

  /**
   A schedule whose inbox is open can send any number of messages while the clock stands still,
   exactly when the clock has stopped at its last reading, or, for a fixed rate, anywhere past which
   no grid point is representable. (A schedule armed at the very first instant never halves its
   offset, so it has to wait for the last one.)
   */
  lemma SpinsWithTheClockStill(plan: Plan, start: Instant, to: Instant)
    requires plan.Repeat? && plan.armedAt <= start <= to && FirstDeadline(plan) <= to
    ensures (forall n: nat :: Run(Armed(plan, start), [Advance(to)] + Rounds(n)).sent == n) <==>
              if plan.cadence.FixedDelay? || plan.armedAt == MIN_INSTANT then to == MAX_INSTANT
              else plan.armedAt + GridOffset(plan.armedAt, plan.interval, to) > MAX_INSTANT
  {
    hide Run, Rounds, Armed, ArmsTheFuture;
    SpinsUnlessArmingTheFuture(plan, start, to);
    ArmsTheFutureWhen(plan, to);
    OffsetIsExact(plan.armedAt, plan.interval, plan.armedAt);
    FirstIntervalOffset(plan.armedAt, plan.interval, plan.armedAt);
    if to - plan.armedAt < plan.interval {
      FirstIntervalOffset(plan.armedAt, plan.interval, to);
      CappedHalving(plan.interval, MAX_INSTANT - plan.armedAt);
    }
  }

  lemma CappedHalving(d: Duration, room: nat)
    ensures HalvedToFit(DurationOf(d), room) == HalvedToFit(d, room)
  {
    assert DurationOf(d) == d;
  }

  // Armed near the end of time, with a first interval that fits in what is left and one that does not.
  ghost const LATE: Instant := MAX_INSTANT - 100
  ghost const FITS: Plan := Repeat(LATE, 60, FixedRate)
  ghost const OVERSHOOTS: Plan := Repeat(LATE, 150, FixedRate)

  /** Both kinds of saturated schedule do spin, before the last instant: one past its first interval, one within it. */
  lemma SaturatedSchedulesSpin()
    ensures forall n: nat :: Run(Armed(FITS, LATE), [Advance(LATE + 70)] + Rounds(n)).sent == n
    ensures forall n: nat :: Run(Armed(OVERSHOOTS, LATE), [Advance(LATE + 80)] + Rounds(n)).sent == n
  {
    hide Run, Rounds, Armed;
    assert GridOffset(LATE, 60, LATE + 70) == 120;
    FirstIsOneInterval(FITS, LATE);
    SpinsWithTheClockStill(FITS, LATE, LATE + 70);
    assert HalvedToFit(150, 100) == HalvedToFit(75, 100) == 75;
    OffsetIsExact(LATE, 150, LATE);
    FirstIntervalOffset(LATE, 150, LATE);
    assert GridOffset(LATE, 150, LATE + 80) == 150;
    SpinsWithTheClockStill(OVERSHOOTS, LATE, LATE + 80);
  }

  // ----- cancelling -----

  lemma RunSnoc(s: State, acts: seq<Action>, a: Action)
    ensures Run(s, acts + [a]) == Next(Run(s, acts), a)
  {
    assert (acts + [a])[..|acts|] == acts;
  }

  ghost predicate ClockStaysBefore(acts: seq<Action>, due: Instant) {
    forall i | 0 <= i < |acts| && acts[i].Advance? :: acts[i].to < due
  }

  /**
   Once cancellation is requested while the loop is waiting, nothing more is delivered for as
   long as the clock stays before the armed deadline, and the schedule can only settle as
   cancelled or abandoned.
   */
  lemma {:induction false} CancelledIsQuiet(s: State, acts: seq<Action>)
    requires s.phase.Waiting? && s.cancelled && s.progress.settled.None?
    requires s.progress.due.Some? && s.now < s.progress.due.value && ClockStaysBefore(acts, s.progress.due.value)
    ensures var t := Run(s, acts);
      && t.sent == s.sent && t.progress.deliveries == s.progress.deliveries && t.armed == s.armed
      && t.now < s.progress.due.value
      && (if t.phase.Waiting? then t.progress == s.progress
          else t.phase.Stopped? && (t.progress.settled == Some(Cancelled) || t.progress.settled == Some(Abandoned)))
  {
    if acts != [] {
      CancelledIsQuiet(s, acts[..|acts| - 1]);
    }
  }

  /** Nothing more is sent into a closed inbox than what already has its slot. */
  lemma {:induction false} ClosedSendsNothing(s: State, acts: seq<Action>)
    requires !s.inboxOpen
    ensures var t := Run(s, acts); !t.inboxOpen && t.sent == s.sent
  {
    hide DeadlineAfterTick, FirstDeadline;
    if acts != [] {
      ClosedSendsNothing(s, acts[..|acts| - 1]);
    }
  }

  ghost predicate ClockWithin(acts: seq<Action>, latest: Instant) {
    forall i | 0 <= i < |acts| && acts[i].Advance? :: acts[i].to <= latest
  }

  /** Some run sends another message with the clock never taken past `latest`. */
  ghost predicate MaySend(s: State, latest: Instant) {
    exists acts: seq<Action> :: ClockWithin(acts, latest) && Run(s, acts).sent > s.sent
  }

  /**
   The converse. A schedule cancelled while waiting may deliver once more exactly when its inbox is
   open and its deadline has been reached or the clock may still reach it: cancelling is a race
   with the timer, and only the clock decides it.
   */
  lemma CancelledMaySendExactly(s: State, latest: Instant)
    requires RecordInv(s) && s.phase.Waiting? && s.cancelled
    ensures var due := s.progress.due.value;
      MaySend(s, latest) <==> s.inboxOpen && (due <= s.now || due <= latest)
  {
    hide Run, Next, NoLater;
    var due := s.progress.due.value;
    if s.inboxOpen && (due <= s.now || due <= latest) {
      var acts := (if due <= s.now then [] else [Advance(due)]) + [SeeTimer] + [SendSucceeds];
      ServesTheDeadline(s);
      assert ClockWithin(acts, latest) && Run(s, acts).sent > s.sent;
    }
    if MaySend(s, latest) {
      var acts: seq<Action> :| ClockWithin(acts, latest) && Run(s, acts).sent > s.sent;
      if !s.inboxOpen {
        ClosedSendsNothing(s, acts);
      } else if s.now < due && latest < due {
        CancelledIsQuiet(s, acts);
      }
    }
  }

  lemma ServesTheDeadline(s: State)
    requires s.phase.Waiting? && s.inboxOpen && s.progress.due.Some?
    ensures var due := s.progress.due.value;
      Run(s, (if due <= s.now then [] else [Advance(due)]) + [SeeTimer] + [SendSucceeds]).sent == s.sent + 1
  {
    hide DeadlineAfterTick, FirstDeadline;
    var due := s.progress.due.value;
    var wait := if due <= s.now then [] else [Advance(due)];
    if due > s.now {
      RunSnoc(s, [], Advance(due));
      assert [] + [Advance(due)] == wait;
    }
    RunSnoc(s, wait, SeeTimer);
    RunSnoc(s, wait + [SeeTimer], SendSucceeds);
  }

  /** A tick that has come due and begun delivering: its send is under way, or done and not yet published. */
  ghost predicate MidDelivery(s: State) {
    s.phase.Delivering? || s.phase.Publishing?
  }

  /** The messages sent once the delivery under way, if it still is, has succeeded. */
  ghost function SentAfterIt(s: State): nat {
    s.sent + if s.phase.Delivering? then 1 else 0
  }

  /** A one-shot in the middle of its delivery, or any schedule whose send is under way into an inbox that has closed, arms nothing more. */
  lemma {:induction false} LastDelivery(s: State, acts: seq<Action>)
    requires MidDelivery(s) && (s.plan.Once? || (s.phase.Delivering? && !s.inboxOpen))
    ensures var t := Run(s, acts);
      && t.armed == s.armed && t.plan == s.plan && t.sent <= SentAfterIt(s) && (!s.inboxOpen ==> !t.inboxOpen)
      && (t.phase.Delivering? ==> s.phase.Delivering? && t.sent == s.sent && t.progress == s.progress)
      && (t.phase.Publishing? ==> s.plan.Once? && t.sent == SentAfterIt(s) && t.progress == s.progress)
      && !t.phase.Waiting?
      && (t.phase.Stopped? ==> t.progress.settled == Some(if t.sent == SentAfterIt(s) then Delivered else Undeliverable))
  {
    hide FirstDeadline;
    if acts != [] {
      LastDelivery(s, acts[..|acts| - 1]);
    }
  }

  lemma RepeatGoesOn(plan: Plan, now: Instant)
    ensures DeadlineAfterTick(plan, now).Some? <==> plan.Repeat?
  {
  }

  /** What is left of a delivery that succeeds. */
  ghost function RestOfIt(s: State): seq<Action> {
    (if s.phase.Delivering? then [SendSucceeds] else []) + [Publish]
  }

  /** Publishing a repeating schedule's delivery arms another deadline, whatever has become of the inbox by then. */
  lemma PublishingArms(s: State)
    requires MidDelivery(s) && s.plan.Repeat? && (s.phase.Delivering? ==> s.inboxOpen)
    ensures var t := Run(s, RestOfIt(s));
      && |t.armed| == |s.armed| + 1 && t.phase.Waiting? && t.progress.due.Some?
      && t.sent == SentAfterIt(s) && t.inboxOpen == s.inboxOpen
  {
    hide FirstDeadline, DeadlineAfterTick;
    RepeatGoesOn(s.plan, s.now);
    if s.phase.Delivering? {
      RunSnoc(s, [], SendSucceeds);
      assert [] + [SendSucceeds] == [SendSucceeds];
      RunSnoc(s, [SendSucceeds], Publish);
    } else {
      RunSnoc(s, [], Publish);
    }
  }

  /** And if the inbox is open, the deadline armed may be served. */
  lemma AnotherRound(s: State)
    requires MidDelivery(s) && s.plan.Repeat? && s.inboxOpen
    ensures exists acts :: Run(s, acts).sent == SentAfterIt(s) + 1
  {
    hide Next, Run, DeadlineAfterTick;
    PublishingArms(s);
    var t := Run(s, RestOfIt(s));
    var due := t.progress.due.value;
    var more := (if due <= t.now then [] else [Advance(due)]) + [SeeTimer] + [SendSucceeds];
    ServesTheDeadline(t);
    RunAppend(s, RestOfIt(s), more);
    assert Run(s, RestOfIt(s) + more).sent == SentAfterIt(s) + 1;
  }

  /**
   A cancellation that arrives while a tick is being delivered is documented to settle the
   schedule without arming another tick. That promise is kept exactly by one-shots, and by
   schedules whose inbox closes before the send has its slot. Any other schedule arms the next
   deadline before it looks at the cancellation again. It may even deliver for it, exactly if its
   inbox is open.
   */
  lemma CancelDuringDeliveryArmsNothingExactly(s: State)
    requires MidDelivery(s) && s.cancelled
    ensures (forall acts :: Run(s, acts).armed == s.armed) <==> s.plan.Once? || (s.phase.Delivering? && !s.inboxOpen)
    ensures (forall acts :: Run(s, acts).sent <= SentAfterIt(s)) <==> s.plan.Once? || !s.inboxOpen
  {
    hide Run, Next;
    if s.plan.Once? || (s.phase.Delivering? && !s.inboxOpen) {
      forall acts ensures Run(s, acts).armed == s.armed && Run(s, acts).sent <= SentAfterIt(s) {
        LastDelivery(s, acts);
      }
    } else {
      PublishingArms(s);
      assert Run(s, RestOfIt(s)).armed != s.armed;
    }
    if !s.inboxOpen {
      forall acts ensures Run(s, acts).sent <= SentAfterIt(s) {
        ClosedSendsNothing(s, acts);
      }
    } else if s.plan.Repeat? {
      AnotherRound(s);
    }
  }

  /**
   A one-shot that has begun delivering is past cancelling: once it stops, it is settled as
   delivered if its message was sent and as undeliverable if not.
   */
  lemma OneShotPastCancelling(plan: Plan, now: Instant, acts: seq<Action>, more: seq<Action>)
    requires plan.Once? && MidDelivery(Run(Armed(plan, now), acts))
    ensures var t := Run(Armed(plan, now), acts + more);
      && t.sent <= 1
      && t.progress.settled == if !t.phase.Stopped? then None else Some(if t.sent == 1 then Delivered else Undeliverable)
  {
    var s := Run(Armed(plan, now), acts);
    RunKeepsRecord(plan, now, acts);
    RunKeepsRecord(plan, now, acts + more);
    RunAppend(Armed(plan, now), acts, more);
    LastDelivery(s, more);
  }

  /** Cancelled in the middle of a delivery, and two messages further on later. */
  ghost predicate CancelledYetDeliversAgain(s: State, t: State) {
    s.cancelled && s.phase.Delivering? && t.sent == s.sent + 2
  }

  /** That can happen to every repeating schedule, and to no one-shot. */
  lemma CancelDuringDeliveryMayDeliverAgain(plan: Plan, now: Instant)
    ensures plan.Repeat? <==>
              exists before: seq<Action>, later: seq<Action> ::
                CancelledYetDeliversAgain(Run(Armed(plan, now), before), Run(Armed(plan, now), before + later))
  {
    var s := Armed(plan, now);
    if plan.Repeat? {
      var due := FirstDeadline(plan);
      var before := [Advance(due)] + [SeeTimer] + [Cancel];
      hide FirstDeadline, DeadlineAfterTick;
      RunSnoc(s, [], Advance(due));
      assert [] + [Advance(due)] == [Advance(due)];
      RunSnoc(s, [Advance(due)], SeeTimer);
      RunSnoc(s, [Advance(due)] + [SeeTimer], Cancel);
      var t := Run(s, before);
      AnotherRound(t);
      var later :| Run(t, later).sent == t.sent + 2;
      RunAppend(s, before, later);
      assert CancelledYetDeliversAgain(Run(s, before), Run(s, before + later));
    } else {
      forall before: seq<Action>, later: seq<Action>
        ensures !CancelledYetDeliversAgain(Run(s, before), Run(s, before + later))
      {
        RunKeepsRecord(plan, now, before + later);
      }
    }
  }

  /** Cancelled with its inbox closed, before its delivery was published, and armed again later. */
  ghost predicate ClosedYetArmsAgain(s: State, t: State) {
    s.cancelled && !s.inboxOpen && MidDelivery(s) && |t.armed| > |s.armed|
  }

  /** A cancellation and a closed inbox together do not stop every repeating schedule from arming again; they do stop a one-shot. */
  lemma ACloseMayComeTooLate(plan: Plan, now: Instant)
    ensures plan.Repeat? <==>
              exists before: seq<Action>, later: seq<Action> ::
                ClosedYetArmsAgain(Run(Armed(plan, now), before), Run(Armed(plan, now), before + later))
  {
    hide FirstDeadline, DeadlineAfterTick;
    var s := Armed(plan, now);
    if plan.Repeat? {
      var due := FirstDeadline(plan);
      var sent := [Advance(due)] + [SeeTimer] + [SendSucceeds];
      RunSnoc(s, [], Advance(due));
      assert [] + [Advance(due)] == [Advance(due)];
      RunSnoc(s, [Advance(due)], SeeTimer);
      RunSnoc(s, [Advance(due)] + [SeeTimer], SendSucceeds);
      RunSnoc(s, sent, Cancel);
      RunSnoc(s, sent + [Cancel], CloseInbox);
      var before := sent + [Cancel] + [CloseInbox];
      var t := Run(s, before);
      PublishingArms(t);
      RunAppend(s, before, RestOfIt(t));
      assert ClosedYetArmsAgain(Run(s, before), Run(s, before + RestOfIt(t)));
    } else {
      forall before: seq<Action>, later: seq<Action>
        ensures !ClosedYetArmsAgain(Run(s, before), Run(s, before + later))
      {
        RunKeepsRecord(plan, now, before);
        RunAppend(s, before, later);
        if MidDelivery(Run(s, before)) { LastDelivery(Run(s, before), later); }
      }
    }
  }
}
