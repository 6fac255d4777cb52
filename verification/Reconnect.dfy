/**
 The reconnect slot (engine/bridge.go): each new reconnect claims the slot at once, and
 leaves tor alone until its predecessor is done or a timeout passes.
 */
module Reconnect {
  import opened Wrappers

  const STUCK_AFTER := 120

  // a run waits for its predecessor, works on tor, is about to return, is out of the
  // slot, and has closed its channel
  datatype Phase = Waiting(prev: nat) | Working | Leaving | Released | Closed

  // runs are numbered by their owner number, and so are their done channels. holder is
  // the run whose channel is in the slot. closes counts how often each was closed, and
  // steps lists the runs that took a step, with the owner at that moment
  datatype Slot = Slot(owner: nat, holder: Option<nat>, restarting: bool, running: bool, since: int,
                       phases: map<nat, Phase>, closes: map<nat, nat>, steps: seq<(nat, nat)>)

  const FREE := Slot(0, None, false, false, 0, map[], map[], [])

  datatype Event =
    | Claim(force: bool, now: int)
    | Wakes(id: nat)
    | TimesOut(id: nat)
    | Marks(id: nat, now: int)
    | Steps(id: nat)
    | Returns(id: nat)
    | Releases(id: nat)
    | Closes(id: nat)

  predicate Refuses(s: Slot, force: bool, now: int) {
    s.holder.Some? && !force && (s.since == 0 || now - s.since < STUCK_AFTER)
  }

  function Claimed(s: Slot): Slot {
    var me := s.owner + 1;
    s.(owner := me, holder := Some(me), restarting := true,
       phases := s.phases[me := if s.holder.Some? then Waiting(s.holder.value) else Working], closes := s.closes[me := 0])
  }

  function PhaseOf(s: Slot, id: nat): Phase { if id in s.phases then s.phases[id] else Closed }

  function To(s: Slot, id: nat, p: Phase): Slot { s.(phases := s.phases[id := p]) }

  // past its wait a run goes on only if no newer one came
  function PastWait(s: Slot, id: nat): Slot { To(s, id, if s.owner == id then Working else Leaving) }

  function GiveBack(s: Slot, id: nat): Slot {
    var s1 := To(s, id, Released);
    if s.owner == id then s1.(holder := None, restarting := false, running := false, since := 0) else s1
  }

  predicate CanStep(s: Slot, e: Event) {
    match e
    case Claim(_, now) => now > 0
    case Wakes(id) => id in s.phases && s.phases[id].Waiting? && PhaseOf(s, s.phases[id].prev) == Closed
    case TimesOut(id) => id in s.phases && s.phases[id].Waiting?
    case Marks(id, now) => id in s.phases && s.phases[id] == Working && now > 0
    case Steps(id) => id in s.phases && s.phases[id] == Working
    case Returns(id) => id in s.phases && s.phases[id] == Working
    case Releases(id) => id in s.phases && s.phases[id] == Leaving
    case Closes(id) => id in s.phases && id in s.closes && s.phases[id] == Released
  }

  function Next(s: Slot, e: Event): Slot
    requires CanStep(s, e)
  {
    match e
    case Claim(force, now) => if Refuses(s, force, now) then s else Claimed(s)
    case Wakes(id) => PastWait(s, id)
    case TimesOut(id) => PastWait(s, id)
    case Marks(id, now) => if s.owner == id then s.(since := now, running := true) else s
    case Steps(id) => if s.owner == id then s.(steps := s.steps + [(id, s.owner)]) else To(s, id, Leaving)
    case Returns(id) => To(s, id, Leaving)
    case Releases(id) => GiveBack(s, id)
    case Closes(id) => To(s, id, Closed).(closes := s.closes[id := s.closes[id] + 1])
  }

  predicate IsRun(s: Slot, run: seq<Event>)
    decreases |run|
  {
    run != [] ==> CanStep(s, run[0]) && IsRun(Next(s, run[0]), run[1..])
  }

  function Run(s: Slot, run: seq<Event>): Slot
    requires IsRun(s, run)
    decreases |run|
  {
    if run == [] then s else Run(Next(s, run[0]), run[1..])
  }

  predicate InTime(run: seq<Event>) { forall i :: 0 <= i < |run| ==> !run[i].TimesOut? }

  // ---- what holds in every run ----

  predicate Over(p: Phase) { p == Released || p == Closed }

  ghost predicate Inv(s: Slot) {
    && (forall id :: id in s.phases <==> 1 <= id <= s.owner)
    && s.closes.Keys == s.phases.Keys
    && (forall id :: id in s.phases ==> s.closes[id] == if s.phases[id] == Closed then 1 else 0)
    && (s.holder.Some? <==> s.owner in s.phases && !Over(s.phases[s.owner])) && (s.holder.Some? ==> s.holder.value == s.owner)
    && (forall id :: id in s.phases && s.phases[id].Waiting? ==> 1 <= s.phases[id].prev && s.phases[id].prev == id - 1)
    && s.restarting == s.holder.Some? && (s.running ==> s.holder.Some?) && (s.since != 0 ==> s.holder.Some?)
    && (forall i :: 0 <= i < |s.steps| ==> s.steps[i].0 == s.steps[i].1)
  }

  // a run past its wait has every earlier one behind it
  ghost predicate InLine(s: Slot) {
    forall i, j :: i in s.phases && j in s.phases && i < j && !s.phases[j].Waiting? ==> Over(s.phases[i])
  }

  lemma MoveKeeps(s: Slot, id: nat, p: Phase)
    requires Inv(s) && id in s.phases && !Over(s.phases[id]) && (p == Working || p == Leaving)
    ensures Inv(To(s, id, p))
  {}

  lemma ClaimKeeps(s: Slot)
    requires Inv(s)
    ensures Inv(Claimed(s))
  {}

  lemma GiveBackKeeps(s: Slot, id: nat)
    requires Inv(s) && id in s.phases && s.phases[id] == Leaving
    ensures Inv(GiveBack(s, id))
  {}

  lemma CloseKeeps(s: Slot, id: nat)
    requires Inv(s) && id in s.phases && id in s.closes && s.phases[id] == Released
    ensures Inv(To(s, id, Closed).(closes := s.closes[id := s.closes[id] + 1]))
  {}

  lemma NextKeeps(s: Slot, e: Event)
    requires Inv(s) && CanStep(s, e)
    ensures Inv(Next(s, e))
  {
    match e
    case Claim(_, _) => ClaimKeeps(s);
    case Wakes(id) => MoveKeeps(s, id, if s.owner == id then Working else Leaving);
    case TimesOut(id) => MoveKeeps(s, id, if s.owner == id then Working else Leaving);
    case Marks(_, _) =>
    case Steps(id) => MoveKeeps(s, id, Leaving);
    case Returns(id) => MoveKeeps(s, id, Leaving);
    case Releases(id) => GiveBackKeeps(s, id);
    case Closes(id) => CloseKeeps(s, id);
  }

  // a phase that moves on only to where every earlier run is over, or to the end
  lemma MoveInLine(s: Slot, id: nat, p: Phase)
    requires InLine(s) && id in s.phases && !p.Waiting? && (Over(s.phases[id]) ==> Over(p))
    requires s.phases[id].Waiting? ==> forall i :: i in s.phases && i < id ==> Over(s.phases[i])
    ensures InLine(To(s, id, p))
  {
  }

  lemma ClaimInLine(s: Slot)
    requires Inv(s) && InLine(s)
    ensures InLine(Claimed(s))
  {
    var s' := Claimed(s);
    forall i, j | i in s'.phases && j in s'.phases && i < j && !s'.phases[j].Waiting? ensures Over(s'.phases[i]) {
      if j == s.owner + 1 && i < s.owner { assert s.owner in s.phases; }
    }
  }

  // the one waited for has closed, and so every earlier one is over
  lemma WokenIsFirst(s: Slot, id: nat)
    requires Inv(s) && InLine(s) && CanStep(s, Wakes(id))
    ensures forall i :: i in s.phases && i < id ==> Over(s.phases[i])
  {
    assert id - 1 in s.phases && s.phases[id - 1] == Closed;
  }

  lemma NextInLine(s: Slot, e: Event)
    requires Inv(s) && InLine(s) && CanStep(s, e) && !e.TimesOut?
    ensures InLine(Next(s, e))
  {
    match e
    case Claim(_, _) => ClaimInLine(s);
    case Wakes(id) =>
      WokenIsFirst(s, id);
      MoveInLine(s, id, if s.owner == id then Working else Leaving);
    case Marks(_, _) =>
    case Steps(id) => MoveInLine(s, id, Leaving);
    case Returns(id) => MoveInLine(s, id, Leaving);
    case Releases(id) => MoveInLine(s, id, Released);
    case Closes(id) => MoveInLine(s, id, Closed);
    case TimesOut(_) =>
  }

  lemma {:induction false} RunKeeps(s: Slot, run: seq<Event>)
    requires Inv(s) && IsRun(s, run)
    ensures Inv(Run(s, run))
    ensures InLine(s) && InTime(run) ==> InLine(Run(s, run))
    decreases |run|
  {
    if run != [] {
      NextKeeps(s, run[0]);
      if InLine(s) && InTime(run) {
        NextInLine(s, run[0]);
        assert forall i :: 0 <= i < |run[1..]| ==> run[1..][i] == run[i + 1];
      }
      RunKeeps(Next(s, run[0]), run[1..]);
    }
  }

  // however many take over from one another: as long as no wait times out at most one
  // run works on tor
  lemma OneAtATime(run: seq<Event>, a: nat, b: nat)
    requires IsRun(FREE, run) && InTime(run)
    requires PhaseOf(Run(FREE, run), a) == Working && PhaseOf(Run(FREE, run), b) == Working
    ensures a == b
  {
    RunKeeps(FREE, run);
  }

  // whatever times out, each channel was closed once by a run that is over and never by
  // another, the flags are up exactly while the newest run has not given the slot back,
  // and every step was taken by the owner of that moment
  lemma ClosedOnce(run: seq<Event>, id: nat)
    requires IsRun(FREE, run) && id in Run(FREE, run).phases
    ensures
      var s := Run(FREE, run);
      && id in s.closes && s.closes[id] == (if s.phases[id] == Closed then 1 else 0)
      && (s.restarting <==> s.owner in s.phases && !Over(s.phases[s.owner])) && (s.running ==> s.restarting)
      && (forall i :: 0 <= i < |s.steps| ==> s.steps[i].0 == s.steps[i].1)
  {
    RunKeeps(FREE, run);
  }

  // the flags go down only when the newest owner gives the slot back
  lemma FlagsClearAtTheEnd(s: Slot, e: Event)
    requires Inv(s) && CanStep(s, e) && ((s.restarting && !Next(s, e).restarting) || (s.running && !Next(s, e).running))
    ensures e == Releases(s.owner)
  {}

  // when the newest run said it began, 0 before it did or once the slot was given back
  ghost function Began(s: Slot, run: seq<Event>, since: int): int
    requires IsRun(s, run)
    decreases |run|
  {
    if run == [] then since
    else
      var e := run[0];
      Began(Next(s, e), run[1..], if e.Marks? && e.id == s.owner then e.now else if e == Releases(s.owner) then 0 else since)
  }

  lemma {:induction false} SinceIsBegan(s: Slot, run: seq<Event>)
    requires IsRun(s, run)
    ensures Run(s, run).since == Began(s, run, s.since)
    decreases |run|
  {
    if run != [] { SinceIsBegan(Next(s, run[0]), run[1..]); }
  }

  /** A claim gets the slot exactly when it is free, when it is forced, or when the run in
      it said two minutes ago or more that it began; it is then the newest, and waits for
      the run it replaces. A refusal changes nothing. */
  lemma ClaimExactlyWhen(run: seq<Event>, force: bool, now: int)
    requires IsRun(FREE, run) && now > 0
    ensures
      var s := Run(FREE, run);
      var s', isHeld := Next(s, Claim(force, now)), s.owner in s.phases && !Over(s.phases[s.owner]);
      var began := Began(FREE, run, 0);
      if !isHeld || force || (began != 0 && now - began >= 120) then
        && s'.owner == s.owner + 1 && s'.holder == Some(s'.owner) && s'.restarting
        && PhaseOf(s', s'.owner) == (if isHeld then Waiting(s.owner) else Working)
        && forall id :: id in s.phases ==> PhaseOf(s', id) == PhaseOf(s, id)
      else s' == s
  {
    RunKeeps(FREE, run);
    SinceIsBegan(FREE, run);
  }

  /** A run at its next step goes on, and the step is its own, exactly when no newer one
      came; else it is on its way out. */
  lemma StepExactlyWhen(s: Slot, id: nat)
    requires Inv(s) && CanStep(s, Steps(id))
    ensures
      var s' := Next(s, Steps(id));
      if forall j :: j in s.phases ==> j <= id then s'.steps == s.steps + [(id, id)] && PhaseOf(s', id) == Working
      else s'.steps == s.steps && PhaseOf(s', id) == Leaving
  {
    assert s.owner in s.phases;
  }

  // ---- a wait that times out ----

  const TOO_LONG := [Claim(true, 1), Claim(true, 1), TimesOut(2)]

  // then two may be past their wait at once
  lemma TimeoutAllowsTwo()
    ensures IsRun(FREE, TOO_LONG) && PhaseOf(Run(FREE, TOO_LONG), 1) == PhaseOf(Run(FREE, TOO_LONG), 2) == Working
  {
    var s1 := Next(FREE, Claim(true, 1));
    var s2 := Next(s1, Claim(true, 1));
    assert s2.phases == map[1 := Working, 2 := Waiting(1)] && s2.owner == 2;
    var s3 := Next(s2, TimesOut(2));
    assert TOO_LONG[1..] == [Claim(true, 1), TimesOut(2)] && TOO_LONG[1..][1..] == [TimesOut(2)] && [TimesOut(2)][1..] == [];
    assert IsRun(s3, []) && IsRun(s2, [TimesOut(2)]) && IsRun(s1, [Claim(true, 1), TimesOut(2)]);
    assert Run(s2, [TimesOut(2)]) == s3;
    assert Run(s1, [Claim(true, 1), TimesOut(2)]) == s3;
  }

  ghost predicate Alone(s: Slot) { forall a, b :: PhaseOf(s, a) == PhaseOf(s, b) == Working ==> a == b }

  // from a state in line, a timed-out wait puts two on tor exactly when its run is still
  // the newest and some run works
  lemma TimeoutBreaksExactlyWhen(s: Slot, id: nat)
    requires Inv(s) && InLine(s) && CanStep(s, TimesOut(id))
    ensures Alone(Next(s, TimesOut(id))) <==> s.owner != id || forall i :: PhaseOf(s, i) != Working
  {
    var s' := Next(s, TimesOut(id));
    assert forall i :: i != id ==> PhaseOf(s', i) == PhaseOf(s, i);
    if i :| PhaseOf(s, i) == Working {
      assert i != id && PhaseOf(s', i) == Working;
      if s.owner == id { assert PhaseOf(s', id) == Working; }
    }
  }

  // ---- the three calls under the lock ----

  class Guard {
    var owner: nat
    var holder: Option<nat>
    var restarting: bool
    var running: bool
    var since: int
    ghost var phases: map<nat, Phase>
    ghost var closes: map<nat, nat>
    ghost var steps: seq<(nat, nat)>

    ghost function View(): Slot reads this { Slot(owner, holder, restarting, running, since, phases, closes, steps) }

    constructor ()
      ensures View() == FREE && Inv(View())
    {
      owner, holder, restarting, running, since, phases, closes, steps := 0, None, false, false, 0, map[], map[], [];
    }

    // prev is the run to wait for, me nothing when refused
    method TryClaim(force: bool, now: int) returns (me: Option<nat>, prev: Option<nat>)
      requires Inv(View()) && now > 0
      modifies this
      ensures Inv(View()) && View() == Next(old(View()), Claim(force, now))
      ensures me.None? <==> Refuses(old(View()), force, now)
      ensures me.Some? ==> me.value == owner && phases[owner] == (if prev.Some? then Waiting(prev.value) else Working)
    {
      NextKeeps(View(), Claim(force, now));
      me, prev := None, None;
      if holder.Some? {
        if !force && (since == 0 || now - since < STUCK_AFTER) { return; }
        prev := holder;
      }
      owner := owner + 1;
      me, holder := Some(owner), Some(owner);
      restarting := true;
      phases, closes := phases[owner := if prev.Some? then Waiting(prev.value) else Working], closes[owner := 0];
    }

    // whether a run may go on: none came after it. past its wait, and in line, it then
    // has tor to itself
    method Mine(me: nat) returns (mine: bool)
      requires Inv(View()) && me in phases
      ensures mine <==> forall id :: id in phases ==> id <= me
      ensures mine && InLine(View()) && !phases[me].Waiting? ==> forall id :: id in phases && id != me ==> Over(phases[id])
    {
      return owner == me;
    }

    // frees the slot if this run is still the newest, and else changes nothing of it
    method Release(me: nat)
      requires Inv(View()) && CanStep(View(), Releases(me))
      modifies this
      ensures Inv(View()) && View() == Next(old(View()), Releases(me))
    {
      NextKeeps(View(), Releases(me));
      phases := phases[me := Released];
      if owner == me {
        holder, restarting, running, since := None, false, false, 0;
      }
    }
  }
}
