/**
 Matching colour answers to keystrokes.

 Each keystroke opens a request that three colour clients answer, in any order, more than
 once, late, or never. What the correlator holds and emits is read off its inbox.
 */
module RgbCorrelator {
  import opened Wrappers

  newtype Byte = x: int | 0 <= x < 256

  const REQUEST_TIMEOUT: nat := 5_000_000_000

  datatype PendingColor = PendingColor(
    character: char, red: Option<Byte>, green: Option<Byte>, blue: Option<Byte>, createdAt: nat)
  {
    predicate IsComplete() {
      red.Some? && green.Some? && blue.Some?
    }

    /** Elapsed time never goes below zero, so a reading before the start is not expired. */
    predicate IsExpired(now: nat) {
      now - createdAt > REQUEST_TIMEOUT
    }
  }

  datatype ColoredCharacter = ColoredCharacter(character: char, red: Byte, green: Byte, blue: Byte)

  datatype Processor = Processor(pending: map<string, PendingColor>, keystrokes: nat, completed: nat)

  /** The processor's inbox; `at` is the clock when the handler reads it and `id` the identifier it generates. */
  datatype Event =
    | Keystroke(character: char, id: string, at: nat)
    | ColorResponse(id: string, component: string, value: Byte)
    | CleanupExpired(at: nat)

  // ----- what each handler does -----

  ghost function Painted(p: PendingColor, component: string, value: Byte): PendingColor {
    if component == "R" then p.(red := Some(value))
    else if component == "G" then p.(green := Some(value))
    else if component == "B" then p.(blue := Some(value))
    else p
  }

  ghost predicate Known(component: string) {
    component == "R" || component == "G" || component == "B"
  }

  ghost function Unexpired(pending: map<string, PendingColor>, now: nat): map<string, PendingColor> {
    map id | id in pending && !pending[id].IsExpired(now) :: pending[id]
  }

  ghost function Answered(s: Processor, id: string, component: string, value: Byte): (Processor, Option<ColoredCharacter>) {
    if id !in s.pending || !Known(component) then (s, None)
    else
      var p := Painted(s.pending[id], component, value);
      if p.IsComplete() then
        (s.(pending := s.pending - {id}, completed := s.completed + 1),
         Some(ColoredCharacter(p.character, p.red.value, p.green.value, p.blue.value)))
      else (s.(pending := s.pending[id := p]), None)
  }

  ghost function Next(s: Processor, e: Event): Processor {
    match e
    case Keystroke(character, id, at) =>
      Processor(s.pending[id := PendingColor(character, None, None, None, at)], s.keystrokes + 1, s.completed)
    case ColorResponse(id, component, value) => Answered(s, id, component, value).0
    case CleanupExpired(at) => s.(pending := Unexpired(s.pending, at))
  }

  ghost function Emitted(s: Processor, e: Event): Option<ColoredCharacter> {
    if e.ColorResponse? then Answered(s, e.id, e.component, e.value).1 else None
  }

  ghost function After(events: seq<Event>): Processor {
    if events == [] then Processor(map[], 0, 0)
    else Next(After(events[..|events| - 1]), events[|events| - 1])
  }

  // ----- the handlers, in place -----

  class KeystrokeProcessor {
    var pending: map<string, PendingColor>
    var keystrokeCount: nat
    var completedCount: nat

    ghost function State(): Processor
      reads this
    {
      Processor(pending, keystrokeCount, completedCount)
    }

    constructor ()
      ensures State() == After([])
    {
      pending, keystrokeCount, completedCount := map[], 0, 0;
    }

    method HandleKeystroke(character: char, id: string, now: nat)
      modifies this
      ensures State() == Next(old(State()), Keystroke(character, id, now))
    {
      keystrokeCount := keystrokeCount + 1;
      pending := pending[id := PendingColor(character, None, None, None, now)];
    }

    method HandleColorResponse(id: string, component: string, value: Byte) returns (colored: Option<ColoredCharacter>)
      modifies this
      ensures State() == Next(old(State()), ColorResponse(id, component, value))
      ensures colored == Emitted(old(State()), ColorResponse(id, component, value))
    {
      colored := None;
      if id in pending {
        var p := pending[id];
        match component {
          case "R" => p := p.(red := Some(value));
          case "G" => p := p.(green := Some(value));
          case "B" => p := p.(blue := Some(value));
          case _ => return;
        }
        pending := pending[id := p];
        if p.IsComplete() {
          pending := pending - {id};
          completedCount := completedCount + 1;
          colored := Some(ColoredCharacter(p.character, p.red.value, p.green.value, p.blue.value));
        }
      }
    }

    method HandleCleanup(now: nat) returns (cleaned: nat)
      modifies this
      ensures State() == Next(old(State()), CleanupExpired(now))
      ensures cleaned == |Expiring(old(State()), CleanupExpired(now))|
    {
      var before := |pending|;
      var rest := pending.Keys;
      while rest != {}
        invariant rest <= pending.Keys
        invariant keystrokeCount == old(keystrokeCount) && completedCount == old(completedCount)
        invariant forall id :: id in pending <==> id in old(pending) && (id in rest || !old(pending)[id].IsExpired(now))
        invariant forall id | id in pending :: pending[id] == old(pending)[id]
        decreases rest
      {
        var id :| id in rest;
        rest := rest - {id};
        if pending[id].IsExpired(now) {
          pending := pending - {id};
        }
      }
      assert pending == Unexpired(old(pending), now);
      CleanupSplits(old(State()), now);
      cleaned := before - |pending|;
    }
  }

  // ----- conservation -----

  /** The requests a step throws away because they waited too long. */
  ghost function Expiring(s: Processor, e: Event): set<string> {
    if e.CleanupExpired? then set id | id in s.pending && s.pending[id].IsExpired(e.at) else {}
  }

  lemma CleanupSplits(s: Processor, now: nat)
    ensures |Unexpired(s.pending, now)| + |Expiring(s, CleanupExpired(now))| == |s.pending|
  {
    assert Unexpired(s.pending, now).Keys == s.pending.Keys - Expiring(s, CleanupExpired(now));
  }

  ghost function Expired(events: seq<Event>): nat {
    if events == [] then 0
    else
      var n := |events| - 1;
      Expired(events[..n]) + |Expiring(After(events[..n]), events[n])|
  }

  /** Keystrokes that reused the identifier of a request still pending. */
  ghost function Overwritten(events: seq<Event>): nat {
    if events == [] then 0
    else
      var n := |events| - 1;
      Overwritten(events[..n]) + if events[n].Keystroke? && events[n].id in After(events[..n]).pending then 1 else 0
  }

  ghost function Colored(events: seq<Event>): seq<ColoredCharacter> {
    if events == [] then []
    else
      var n := |events| - 1;
      var c := Emitted(After(events[..n]), events[n]);
      Colored(events[..n]) + if c.Some? then [c.value] else []
  }

  ghost predicate FreshIds(events: seq<Event>) {
    forall i, j | 0 <= i < j < |events| && events[i].Keystroke? && events[j].Keystroke? :: events[i].id != events[j].id
  }

  /** Every keystroke is pending, coloured, expired or overwritten, and never two of these. */
  lemma {:induction false} EveryKeystrokeIsAccountedFor(events: seq<Event>)
    ensures var s := After(events);
      s.keystrokes == |s.pending| + s.completed + Expired(events) + Overwritten(events)
    ensures |Colored(events)| == After(events).completed
  {
    if events != [] {
      var n := |events| - 1;
      EveryKeystrokeIsAccountedFor(events[..n]);
      var s, e := After(events[..n]), events[n];
      match e
      case Keystroke(character, id, at) =>
        assert Next(s, e).pending.Keys == s.pending.Keys + {id};
      case ColorResponse(id, component, value) =>
        if id in s.pending {
          assert (s.pending - {id}).Keys == s.pending.Keys - {id};
          assert s.pending[id := Painted(s.pending[id], component, value)].Keys == s.pending.Keys;
        }
      case CleanupExpired(at) =>
        CleanupSplits(s, at);
    }
  }

  /** With fresh identifiers nothing is overwritten. */
  lemma {:induction false} FreshIdsOverwriteNothing(events: seq<Event>)
    requires FreshIds(events)
    ensures Overwritten(events) == 0
    ensures var s := After(events); s.keystrokes == |s.pending| + s.completed + Expired(events)
  {
    EveryKeystrokeIsAccountedFor(events);
    if events != [] {
      var n := |events| - 1;
      FreshIdsOverwriteNothing(events[..n]);
      if events[n].Keystroke? && events[n].id in After(events[..n]).pending {
        var id := events[n].id;
        PendingIsWhatIsOpen(events[..n], id, After(events[..n]).pending[id]);
        assert false;
      }
    }
  }

  // ----- reading the requests off the inbox -----

  /** The last value received for a component of `id` from position `from` on. */
  ghost function Latest(events: seq<Event>, from: nat, id: string, component: string): Option<Byte> {
    if |events| <= from then None
    else
      var e := events[|events| - 1];
      if e.ColorResponse? && e.id == id && e.component == component then Some(e.value)
      else Latest(events[..|events| - 1], from, id, component)
  }

  /** The request of keystroke `k`, with the last value received since for each component. */
  ghost function Reading(events: seq<Event>, k: nat): PendingColor
    requires k < |events| && events[k].Keystroke?
  {
    var id := events[k].id;
    PendingColor(events[k].character,
                 Latest(events, k + 1, id, "R"), Latest(events, k + 1, id, "G"), Latest(events, k + 1, id, "B"),
                 events[k].at)
  }

  ghost predicate ReplacedOrExpired(events: seq<Event>, k: nat, j: nat)
    requires k < |events| && events[k].Keystroke? && j < |events|
  {
    match events[j]
    case Keystroke(_, id, _) => id == events[k].id
    case ColorResponse(_, _, _) => false
    case CleanupExpired(at) => at - events[k].at > REQUEST_TIMEOUT
  }

  /** Keystroke `k` still waits: its identifier was not reused, no cleanup found it too old, and a component is missing. */
  ghost predicate Open(events: seq<Event>, k: int) {
    && 0 <= k < |events| && events[k].Keystroke?
    && (forall j | k < j < |events| :: !ReplacedOrExpired(events, k, j))
    && var id := events[k].id;
       || Latest(events, k + 1, id, "R").None?
       || Latest(events, k + 1, id, "G").None?
       || Latest(events, k + 1, id, "B").None?
  }

  /** One more event, seen from an earlier keystroke. */
  lemma OneMore(events: seq<Event>, k: nat)
    requires k < |events| - 1 && events[k].Keystroke?
    ensures var n := |events| - 1;
      var e := events[n];
      && events[..n][k] == events[k]
      && Reading(events, k) == (if e.ColorResponse? && e.id == events[k].id
                                then Painted(Reading(events[..n], k), e.component, e.value)
                                else Reading(events[..n], k))
      && (Open(events, k) <==> Open(events[..n], k) && !ReplacedOrExpired(events, k, n) && !Reading(events, k).IsComplete())
  {
    var n := |events| - 1;
    var prev := events[..n];
    assert prev[k] == events[k];
    assert Reading(prev, k).IsComplete() ==> Reading(events, k).IsComplete();
    assert forall j | k < j < n :: ReplacedOrExpired(prev, k, j) == ReplacedOrExpired(events, k, j);
  }

  lemma OpenIsUnique(events: seq<Event>, k: nat, m: nat)
    requires Open(events, k) && Open(events, m) && events[k].id == events[m].id
    ensures k == m
  {
    assert k < m ==> ReplacedOrExpired(events, k, m);
    assert m < k ==> ReplacedOrExpired(events, m, k);
  }

  ghost predicate IsReadingOfOpen(events: seq<Event>, k: int, id: string, p: PendingColor) {
    Open(events, k) && events[k].id == id && p == Reading(events, k)
  }

  /** The table holds exactly the open keystrokes, each with the latest value received since for R, G and B. */
  lemma {:induction false} PendingIsWhatIsOpen(events: seq<Event>, id: string, p: PendingColor)
    ensures id in After(events).pending && After(events).pending[id] == p
       <==> exists k :: IsReadingOfOpen(events, k, id, p)
  {
    if events != [] {
      var n := |events| - 1;
      var prev, e := events[..n], events[n];
      var s := After(prev);
      if id in After(events).pending && After(events).pending[id] == p {
        if e.Keystroke? && e.id == id {
          assert Reading(events, n) == p;
          assert IsReadingOfOpen(events, n, id, p);
        } else {
          var was := s.pending[id];
          PendingIsWhatIsOpen(prev, id, was);
          var k :| IsReadingOfOpen(prev, k, id, was);
          OneMore(events, k);
          assert IsReadingOfOpen(events, k, id, p);
        }
      }
      if k :| IsReadingOfOpen(events, k, id, p) {
        if k < n {
          OneMore(events, k);
          PendingIsWhatIsOpen(prev, id, Reading(prev, k));
          assert IsReadingOfOpen(prev, k, id, Reading(prev, k));
        }
      }
    }
  }

  /** The last event supplied the last missing component of keystroke `k`, and `c` is its colour. */
  ghost predicate Completes(events: seq<Event>, k: int, c: ColoredCharacter) {
    && |events| > 0 && Open(events[..|events| - 1], k)
    && c.character == events[k].character
    && Latest(events, k + 1, events[k].id, "R") == Some(c.red)
    && Latest(events, k + 1, events[k].id, "G") == Some(c.green)
    && Latest(events, k + 1, events[k].id, "B") == Some(c.blue)
  }

  /** A coloured character goes out exactly when an open keystroke becomes complete, with that keystroke's character and the latest values. */
  lemma EmitsExactlyOnCompletion(events: seq<Event>, c: ColoredCharacter)
    requires events != []
    ensures var n := |events| - 1;
      Emitted(After(events[..n]), events[n]) == Some(c) <==> exists k :: Completes(events, k, c)
  {
    var n := |events| - 1;
    var prev, e := events[..n], events[n];
    var s := After(prev);
    if Emitted(s, e) == Some(c) {
      var was := s.pending[e.id];
      PendingIsWhatIsOpen(prev, e.id, was);
      var k :| IsReadingOfOpen(prev, k, e.id, was);
      OneMore(events, k);
      assert Completes(events, k, c);
    }
    if k :| Completes(events, k, c) {
      OneMore(events, k);
      PendingIsWhatIsOpen(prev, events[k].id, Reading(prev, k));
      assert IsReadingOfOpen(prev, k, events[k].id, Reading(prev, k));
    }
  }

  /** No keystroke is coloured twice, and no event colours two keystrokes. */
  lemma {:induction false} ColouredAtMostOnce(events: seq<Event>, i: nat, k: nat, c: ColoredCharacter, m: nat, d: ColoredCharacter)
    requires i <= |events| && Completes(events[..i], k, c) && Completes(events, m, d)
    ensures k == m <==> i == |events|
    ensures i == |events| ==> c == d
  {
    var n := |events| - 1;
    if i == |events| {
      assert events[..i] == events;
      OneMore(events, k);
      OneMore(events, m);
      OpenIsUnique(events[..n], k, m);
    } else if k == m {
      assert events[..n][..i] == events[..i];
      StaysClosed(events[..n], i, k);
    }
  }

  lemma {:induction false} StaysClosed(events: seq<Event>, i: nat, k: nat)
    requires k < i <= |events| && events[k].Keystroke? && !Open(events[..i], k)
    ensures !Open(events, k)
  {
    assert events[..|events|] == events;
    if i < |events| {
      assert events[..|events| - 1][..i] == events[..i];
      StaysClosed(events[..|events| - 1], i, k);
      OneMore(events, k);
    }
  }
}
