/**
 The floor between knocks to one endpoint, and the one trailing knock that stands for
 every wrap inside it (relay-live/knock.go).
 */
module KnockFloor {
  import opened Wrappers

  const FLOOR := 60
  const TRAIL := 30

  // timer is the trailing knock's, with when it is due. entries are the times knocks
  // went to the queue, wraps those of the wraps for a live registration
  datatype Bell = Bell(live: bool, last: Option<int>, trailing: bool, timer: Option<int>, clock: int, entries: seq<int>, wraps: seq<int>)

  datatype Step =
    | Wrap(now: int, extra: nat)
    | Decoy(now: int)
    | Trail(now: int)
    | LetGo

  const NEW := Bell(true, None, false, None, 0, [], [])

  function Ring(b: Bell, now: int, decoy: bool, extra: nat): Bell {
    if b.trailing then b.(clock := now)
    else if b.last.Some? && b.last.value + FLOOR > now then
      if decoy then b.(clock := now)
      else b.(clock := now, trailing := true, timer := Some(b.last.value + FLOOR + extra))
    else b.(clock := now, last := Some(now), entries := b.entries + [now])
  }

  function Next(b: Bell, s: Step): Bell {
    match s
    case Wrap(now, extra) => if b.live then Ring(b.(wraps := b.wraps + [now]), now, false, extra) else b.(clock := now)
    case Decoy(now) => if b.live then Ring(b, now, true, 0) else b.(clock := now)
    case Trail(now) =>
      var b1 := b.(clock := now, trailing := false, timer := None);
      if b.live then b1.(last := Some(now), entries := b.entries + [now]) else b1
    case LetGo => b.(live := false)
  }

  // the clock does not go back, and a timer fires once, at its time or later
  predicate CanStep(b: Bell, s: Step) {
    match s
    case Wrap(now, extra) => now >= b.clock && extra < TRAIL
    case Decoy(now) => now >= b.clock
    case Trail(now) => now >= b.clock && b.timer.Some? && now >= b.timer.value
    case LetGo => true
  }

  predicate IsRun(b: Bell, steps: seq<Step>)
    decreases |steps|
  {
    steps != [] ==> CanStep(b, steps[0]) && IsRun(Next(b, steps[0]), steps[1..])
  }

  function Run(b: Bell, steps: seq<Step>): Bell
    decreases |steps|
  {
    if steps == [] then b else Run(Next(b, steps[0]), steps[1..])
  }

  predicate FloorApart(entries: seq<int>) { forall i :: 0 < i < |entries| ==> entries[i] >= entries[i - 1] + FLOOR }

  // a wrap was followed by a knock, or the one timer will bring it, a floor and a
  // little after the wrap at the latest
  predicate Answered(b: Bell, w: int) {
    || (|b.entries| > 0 && b.entries[|b.entries| - 1] >= w)
    || (b.timer.Some? && b.timer.value < w + FLOOR + TRAIL)
  }

  ghost predicate Inv(b: Bell) {
    && FloorApart(b.entries)
    && (b.last.None? <==> b.entries == [])
    && (b.last.Some? ==> b.last.value == b.entries[|b.entries| - 1] <= b.clock)
    && (b.trailing <==> b.timer.Some?)
    && (b.timer.Some? ==> b.last.Some? && b.last.value + FLOOR <= b.timer.value < b.last.value + FLOOR + TRAIL)
    && (b.live ==> forall w :: w in b.wraps ==> w <= b.clock && Answered(b, w))
  }

  lemma NextKeeps(b: Bell, s: Step)
    requires Inv(b) && CanStep(b, s)
    ensures Inv(Next(b, s))
  {
    var b' := Next(b, s);
    forall w | b'.live && w in b'.wraps ensures w <= b'.clock && Answered(b', w) {
      if w in b.wraps { assert Answered(b, w); }
    }
  }

  // over every run, knocks go to the queue a floor apart and no wrap goes unanswered
  lemma {:induction false} RunKeeps(b: Bell, steps: seq<Step>)
    requires Inv(b) && IsRun(b, steps)
    ensures Inv(Run(b, steps))
    decreases |steps|
  {
    if steps != [] {
      NextKeeps(b, steps[0]);
      RunKeeps(Next(b, steps[0]), steps[1..]);
    }
  }

  lemma EveryWrapIsRung(steps: seq<Step>)
    requires IsRun(NEW, steps)
    ensures FloorApart(Run(NEW, steps).entries)
    ensures Run(NEW, steps).live ==> forall w :: w in Run(NEW, steps).wraps ==> Answered(Run(NEW, steps), w)
  {
    RunKeeps(NEW, steps);
  }

  // the endpoint's own fields, changed in place. What goes to the queue is returned
  class Endpoint {
    var live: bool
    var last: Option<int>
    var trailing: bool
    ghost var timer: Option<int>
    ghost var clock: int
    ghost var entries: seq<int>
    ghost var wraps: seq<int>

    ghost function View(): Bell reads this { Bell(live, last, trailing, timer, clock, entries, wraps) }

    constructor ()
      ensures View() == NEW && Inv(View())
    {
      live, last, trailing, timer, clock, entries, wraps := true, None, false, None, 0, [], [];
    }

    // queued tells a knock went in now, wait how long a trailing one has to
    method RingLocked(now: int, decoy: bool, extra: nat) returns (queued: bool, wait: Option<int>)
      modifies this
      ensures View() == Ring(old(View()), now, decoy, extra)
      ensures queued <==> entries == old(entries) + [now]
      ensures wait == if trailing && !old(trailing) then Some(timer.value - now) else None
      ensures wait.Some? ==> wait.value > 0
    {
      queued, wait := false, None;
      clock := now;
      if trailing { return; }
      if last.Some? && last.value + FLOOR - now > 0 {
        if decoy { return; }
        trailing := true;
        wait := Some(last.value + FLOOR - now + extra);
        timer := Some(now + wait.value);
        return;
      }
      last := Some(now);
      entries := entries + [now];
      queued := true;
    }

    method WrapFor(now: int, extra: nat) returns (queued: bool, wait: Option<int>)
      requires live && Inv(View()) && CanStep(View(), Wrap(now, extra))
      modifies this
      ensures View() == Next(old(View()), Wrap(now, extra)) && Inv(View())
      ensures queued || wait.Some? || old(timer).Some?
    {
      NextKeeps(View(), Wrap(now, extra));
      wraps := wraps + [now];
      queued, wait := RingLocked(now, false, extra);
    }

    method TrailDue(now: int) returns (queued: bool)
      requires Inv(View()) && CanStep(View(), Trail(now))
      modifies this
      ensures View() == Next(old(View()), Trail(now)) && Inv(View()) && queued == live
    {
      NextKeeps(View(), Trail(now));
      clock, timer := now, None;
      trailing := false;
      if !live { return false; }
      last := Some(now);
      entries := entries + [now];
      return true;
    }
  }
}
