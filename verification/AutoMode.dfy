/**
 The mode, the lines and the mark that direct is welcome (engine/auto.go,
 engine/boot_mode.go), with passes, check-ins, portal steps and mode changes running
 at once.
 */
module AutoMode {
  import opened Wrappers
  import opened Auto
  import AutoPass

  // something that plans steps and puts them in place later: gen is the mode it works
  // for, readAt the mode whose options it planned with
  datatype Worker = Worker(gen: nat, readAt: nat, steps: seq<Way>)

  // past holds each generation's mode and whether it skips direct
  datatype State = State(gen: nat, mode: string, opts: Opts, known: bool, lines: seq<string>, mark: bool,
                         past: map<nat, (string, bool)>, workers: map<nat, Worker>)

  const START := State(0, "", Opts("", false, "", [], []), false, [], false, map[0 := ("", false)], map[])

  datatype Event =
    | SetMode(mode: string, opts: Opts, lines: seq<string>)
    | PassBegins(id: nat, gen: nat, w: World, kind: string, mem: Memory, today: int)
    | PortalBegins(id: nat, gen: nat, w: World, kind: string, mem: Memory, today: int)
    | CheckInBegins(id: nat, w: World, kind: string, mem: Memory, today: int)
    | MoatAnswers(id: nat, at: nat, settings: seq<Setting>)
    | AsksLate(id: nat, i: nat)
    | Uses(id: nat, i: nat)
    | DirectOver

  predicate ConsentOnly(s: State, mode: string, opts: Opts) {
    s.mode == mode == "auto" && s.opts != opts && s.opts.(consent := opts.consent) == opts
  }

  function ApplyMode(s: State, mode: string, opts: Opts, lines: seq<string>): State {
    var s1 := s.(known := true);
    if s.mode == mode && s.opts == opts then s1
    else if ConsentOnly(s, mode, opts) then s1.(opts := opts)
    else
      s1.(gen := s.gen + 1, mode := mode, opts := opts, mark := false, past := s.past[s.gen + 1 := (mode, opts.skipDirect)],
          lines := if mode != "auto" then lines else s.lines)
  }

  // lines and mark of a step change together, and only for the generation it was made for
  function UseStep(s: State, gen: nat, way: Way): State {
    if s.gen != gen then s else s.(lines := way.lines, mark := way.via == "direct")
  }

  function Starts(s: State, id: nat, gen: nat, steps: seq<Way>): State { s.(workers := s.workers[id := Worker(gen, s.gen, steps)]) }

  function Next(s: State, e: Event): State {
    match e
    case SetMode(mode, opts, lines) => ApplyMode(s, mode, opts, lines)
    case PassBegins(id, gen, w, kind, mem, today) => Starts(s, id, gen, PlanPass(w, kind, mem, s.opts, today))
    case PortalBegins(id, gen, w, kind, mem, today) =>
      var way := CheckInStep(w, kind, mem, s.opts, today);
      if way.Some? then Starts(s, id, gen, [way.value]) else s
    case CheckInBegins(id, w, kind, mem, today) =>
      if s.mode == "auto" then Starts(s, id, s.gen, [PutStep(w, kind, mem, s.opts, today)]) else s
    case MoatAnswers(id, at, settings) =>
      if id in s.workers && at < |s.workers[id].steps| then
        s.(workers := s.workers[id := s.workers[id].(steps := SpliceMoat(s.workers[id].steps, at, MoatSteps(settings)))])
      else s
    case AsksLate(id, i) =>
      if id in s.workers && i < |s.workers[id].steps| then
        s.(workers := s.workers[id := s.workers[id].(steps := AutoPass.AskLate(s.workers[id].steps, i))])
      else s
    case Uses(id, i) =>
      if id in s.workers && i < |s.workers[id].steps| then UseStep(s, s.workers[id].gen, s.workers[id].steps[i]) else s
    case DirectOver => s.(mark := false)
  }

  const BRIDGE_MODES := ["snowflake", "webtunnel", "moat", "own"]

  datatype Answer = Taken | BadConsent | LinesBad | UnknownMode

  // what a mode may be asked with: an empty consent is a no, and a mode with bridges
  // needs lines, as none would be direct
  function Asked(mode: string, consent: string, lines: seq<string>): Answer {
    if consent !in ["", "no", "yes", "ask"] then BadConsent
    else if mode in ["auto", "direct"] then Taken
    else if mode in BRIDGE_MODES then if lines == [] then LinesBad else Taken
    else UnknownMode
  }

  // a mode is taken only as it may be asked for, direct without lines. the loop that
  // starts passes and portal steps runs for one automatic mode, which has been there by
  // then; memory holds only methods that worked
  ghost predicate CanStep(s: State, e: Event) {
    match e
    case SetMode(mode, opts, lines) => Asked(mode, opts.consent, lines) == Taken && (mode == "direct" ==> lines == [])
    case PassBegins(_, gen, _, _, mem, _) => gen <= s.gen && gen in s.past && s.past[gen].0 == "auto" && MemoryOK(mem)
    case PortalBegins(_, gen, _, _, mem, _) => gen <= s.gen && gen in s.past && s.past[gen].0 == "auto" && MemoryOK(mem)
    case CheckInBegins(_, _, _, mem, _) => MemoryOK(mem)
    case _ => true
  }

  ghost predicate IsRun(s: State, run: seq<Event>)
    decreases |run|
  {
    run != [] ==> CanStep(s, run[0]) && IsRun(Next(s, run[0]), run[1..])
  }

  function Run(s: State, run: seq<Event>): State
    decreases |run|
  {
    if run == [] then s else Run(Next(s, run[0]), run[1..])
  }

  // ---- what every run keeps ----

  // a worker's mode is no newer than the options it planned with, and it plans direct
  // only where those allow it
  ghost predicate WorkerOK(s: State, k: Worker) {
    && k.gen <= k.readAt <= s.gen && k.gen in s.past && s.past[k.gen].0 == "auto"
    && k.readAt in s.past && (s.past[k.readAt].1 ==> NoDirect(k.steps))
  }

  // lines go with the mode: one with bridges has some, direct none
  predicate LinesOK(s: State) {
    && (s.known <==> s.mode != "")
    && (s.known ==> s.mode in ["auto", "direct"] + BRIDGE_MODES)
    && (s.mode in BRIDGE_MODES ==> s.lines != [])
    && (s.mode == "direct" ==> s.lines == [])
  }

  ghost predicate Inv(s: State) {
    && LinesOK(s)
    && s.gen in s.past && s.past[s.gen] == (s.mode, s.opts.skipDirect)
    && (forall id :: id in s.workers ==> WorkerOK(s, s.workers[id]))
    && (s.mark ==> s.mode == "auto" && !s.opts.skipDirect)
  }

  lemma StartsKeeps(s: State, id: nat, gen: nat, steps: seq<Way>)
    requires Inv(s) && gen <= s.gen && gen in s.past && s.past[gen].0 == "auto" && (s.opts.skipDirect ==> NoDirect(steps))
    ensures Inv(Starts(s, id, gen, steps))
  {
    var s' := Starts(s, id, gen, steps);
    forall k | k in s'.workers ensures WorkerOK(s', s'.workers[k]) { if k != id { assert WorkerOK(s, s.workers[k]); } }
  }

  lemma StepsChange(s: State, id: nat, steps: seq<Way>)
    requires Inv(s) && id in s.workers && (NoDirect(s.workers[id].steps) ==> NoDirect(steps))
    ensures Inv(s.(workers := s.workers[id := s.workers[id].(steps := steps)]))
  {
    var s' := s.(workers := s.workers[id := s.workers[id].(steps := steps)]);
    forall k | k in s'.workers ensures WorkerOK(s', s'.workers[k]) { assert WorkerOK(s, s.workers[k]); }
  }

  lemma ApplyModeKeeps(s: State, mode: string, opts: Opts, lines: seq<string>)
    requires Inv(s) && CanStep(s, SetMode(mode, opts, lines))
    ensures Inv(ApplyMode(s, mode, opts, lines))
  {
    var s' := ApplyMode(s, mode, opts, lines);
    forall k | k in s'.workers ensures WorkerOK(s', s'.workers[k]) { assert WorkerOK(s, s.workers[k]); }
  }

  // the mark goes up only for the mode at hand, whose options allow direct
  lemma UseStepKeeps(s: State, id: nat, i: nat)
    requires Inv(s) && id in s.workers && i < |s.workers[id].steps|
    ensures Inv(UseStep(s, s.workers[id].gen, s.workers[id].steps[i]))
  {
    var s' := UseStep(s, s.workers[id].gen, s.workers[id].steps[i]);
    assert WorkerOK(s, s.workers[id]);
    forall k | k in s'.workers ensures WorkerOK(s', s'.workers[k]) { assert WorkerOK(s, s.workers[k]); }
  }

  lemma AskLateNoDirect(steps: seq<Way>, i: nat)
    requires i < |steps| && NoDirect(steps)
    ensures NoDirect(AutoPass.AskLate(steps, i))
  {}

  lemma NextKeeps(s: State, e: Event)
    requires Inv(s) && CanStep(s, e)
    ensures Inv(Next(s, e))
  {
    match e
    case SetMode(mode, opts, lines) => ApplyModeKeeps(s, mode, opts, lines);
    case PassBegins(id, gen, w, kind, mem, today) =>
      PlanIsDistinct(w, kind, mem, s.opts, today);
      StartsKeeps(s, id, gen, PlanPass(w, kind, mem, s.opts, today));
    case PortalBegins(id, gen, w, kind, mem, today) =>
      var way := CheckInStep(w, kind, mem, s.opts, today);
      if way.Some? {
        if s.opts.skipDirect { CheckInSkipsDirect(w, kind, mem, s.opts, today); }
        StartsKeeps(s, id, gen, [way.value]);
      }
    case CheckInBegins(id, w, kind, mem, today) =>
      if s.mode == "auto" {
        if s.opts.skipDirect { CheckInSkipsDirect(w, kind, mem, s.opts, today); }
        StartsKeeps(s, id, s.gen, [PutStep(w, kind, mem, s.opts, today)]);
      }
    case MoatAnswers(id, at, settings) =>
      if id in s.workers && at < |s.workers[id].steps| {
        MoatStepsMade(settings);
        if NoDirect(s.workers[id].steps) { SpliceNoDirect(s.workers[id].steps, at, MoatSteps(settings)); }
        StepsChange(s, id, SpliceMoat(s.workers[id].steps, at, MoatSteps(settings)));
      }
    case AsksLate(id, i) =>
      if id in s.workers && i < |s.workers[id].steps| {
        if NoDirect(s.workers[id].steps) { AskLateNoDirect(s.workers[id].steps, i); }
        StepsChange(s, id, AutoPass.AskLate(s.workers[id].steps, i));
      }
    case Uses(id, i) => if id in s.workers && i < |s.workers[id].steps| { UseStepKeeps(s, id, i); }
    case DirectOver => DirectOverKeeps(s);
  }

  lemma DirectOverKeeps(s: State)
    requires Inv(s)
    ensures Inv(s.(mark := false))
  {
    var s' := s.(mark := false);
    forall k | k in s'.workers ensures WorkerOK(s', s'.workers[k]) { assert WorkerOK(s, s.workers[k]); }
  }

  lemma {:induction false} RunKeeps(s: State, run: seq<Event>)
    requires Inv(s) && IsRun(s, run)
    ensures Inv(Run(s, run))
    decreases |run|
  {
    if run != [] {
      NextKeeps(s, run[0]);
      RunKeeps(Next(s, run[0]), run[1..]);
    }
  }

  // ---- what keeps tor off the network ----

  datatype Hold = Free | NoModeYet | TransportDown | NotApplied | AutoWait

  function NetworkHold(s: State, ptDown: bool, applied: bool): Hold {
    if !s.known then NoModeYet
    else if s.lines != [] then
      if ptDown then TransportDown else if !applied then NotApplied else Free
    else if s.mode == "auto" && !s.mark then AutoWait
    else Free
  }

  // in automatic with skip_direct on, whatever ran before and whatever runs now, direct
  // is never marked welcome and tor is let out only with bridges that it holds
  lemma SkipDirectHolds(run: seq<Event>, ptDown: bool, applied: bool)
    requires IsRun(START, run) && Run(START, run).mode == "auto" && Run(START, run).opts.skipDirect
    ensures !Run(START, run).mark
    ensures NetworkHold(Run(START, run), ptDown, applied) == Free ==> Run(START, run).lines != [] && applied && !ptDown
  {
    RunKeeps(START, run);
  }

  /** Tor goes on the network without bridges exactly in the direct mode, and in
      automatic while its own direct step is marked; that mark is never up with
      skip_direct on. */
  lemma WithoutBridgesExactlyWhen(run: seq<Event>, ptDown: bool, applied: bool)
    requires IsRun(START, run)
    ensures
      var s := Run(START, run);
      (NetworkHold(s, ptDown, applied) == Free && s.lines == []) <==>
      (s.mode == "direct" || (s.mode == "auto" && s.mark && !s.opts.skipDirect && s.lines == []))
  {
    RunKeeps(START, run);
    assert forall m :: m in BRIDGE_MODES ==> m != "direct" && m != "auto" by {
      assert "snowflake"[0] == 's' && "webtunnel"[0] == 'w' && "moat"[0] == 'm' && "own"[0] == 'o';
    }
  }

  /** Whatever raises the mark was planned for the mode at hand and with its options: no
      step of an older mode, nor one planned before the last change, ever does. */
  lemma MarkRaisedBy(run: seq<Event>, e: Event)
    requires IsRun(START, run) && CanStep(Run(START, run), e)
    requires !Run(START, run).mark && Next(Run(START, run), e).mark
    ensures
      var s := Run(START, run);
      && e.Uses? && e.id in s.workers && e.i < |s.workers[e.id].steps|
      && s.workers[e.id].gen == s.workers[e.id].readAt == s.gen
      && s.workers[e.id].steps[e.i].via == "direct" && s.mode == "auto" && !s.opts.skipDirect
  {
    RunKeeps(START, run);
    var s := Run(START, run);
    if e.Uses? { assert WorkerOK(s, s.workers[e.id]); }
    NextKeeps(s, e);
  }

  /** A step put in place for the mode at hand is in place: its lines are tor's, and tor
      goes on the network by them, direct for the direct step, and not at all for a
      hold. One of an older mode changes nothing. */
  lemma UseTakesEffect(run: seq<Event>, id: nat, i: nat, ptDown: bool, applied: bool)
    requires IsRun(START, run) && id in Run(START, run).workers && i < |Run(START, run).workers[id].steps|
    ensures
      var s := Run(START, run);
      var s', way := Next(s, Uses(id, i)), s.workers[id].steps[i];
      && (s.workers[id].gen != s.gen ==> s' == s)
      && (s.workers[id].gen == s.gen ==>
            && s'.lines == way.lines && s'.gen == s.gen && s'.mode == s.mode == "auto" && s'.opts == s.opts
            && NetworkHold(s', ptDown, applied)
            == if way.lines != [] then (if ptDown then TransportDown else if applied then Free else NotApplied)
               else if way.via == "direct" then Free else AutoWait)
  {
    RunKeeps(START, run);
    assert WorkerOK(Run(START, run), Run(START, run).workers[id]);
  }

  /** Once its direct step is over, automatic holds tor back again until a step with lines or
      another direct one is put in place; any other mode goes on as it was. */
  lemma DirectOverHolds(run: seq<Event>, ptDown: bool, applied: bool)
    requires IsRun(START, run)
    ensures
      var s := Run(START, run);
      var s' := Next(s, DirectOver);
      && s' == s.(mark := s'.mark) && (s.mode == "auto" && s.lines == [] ==> NetworkHold(s', ptDown, applied) == AutoWait)
      && (s.mode != "auto" ==> NetworkHold(s', ptDown, applied) == NetworkHold(s, ptDown, applied))
  {
    RunKeeps(START, run);
  }

  // the mode is another, or its options are in more than the consent
  predicate Differs(s: State, mode: string, opts: Opts) {
    s.mode != mode || (if mode == "auto" then s.opts.(consent := opts.consent) != opts else s.opts != opts)
  }

  lemma NewModeStands(s: State, mode: string, opts: Opts, lines: seq<string>)
    ensures
      var s' := ApplyMode(s, mode, opts, lines);
      && s'.mode == mode && s'.opts == opts && s'.known && s'.workers == s.workers
      && (Differs(s, mode, opts) ==> s'.gen == s.gen + 1 && !s'.mark && (mode != "auto" ==> s'.lines == lines))
      && (!Differs(s, mode, opts) ==> s'.lines == s.lines && s'.mark == s.mark && s'.gen == s.gen)
  {
  }

  /** A mode taken is the mode from then on, with its options. Unless it is the same again
      or differs in the consent alone, nothing planned before it takes effect any more; and
      if it is, nothing else changes. */
  lemma ModeTakesEffect(run: seq<Event>, mode: string, opts: Opts, lines: seq<string>, id: nat, i: nat)
    requires IsRun(START, run) && CanStep(Run(START, run), SetMode(mode, opts, lines))
    ensures
      var s := Run(START, run);
      var s' := Next(s, SetMode(mode, opts, lines));
      && s'.mode == mode && s'.opts == opts && s'.known
      && (Differs(s, mode, opts) ==> !s'.mark && (mode != "auto" ==> s'.lines == lines) && Next(s', Uses(id, i)) == s')
      && (!Differs(s, mode, opts) ==> s'.lines == s.lines && s'.mark == s.mark && s'.gen == s.gen)
  {
    RunKeeps(START, run);
    var s := Run(START, run);
    NewModeStands(s, mode, opts, lines);
    if id in s.workers { assert WorkerOK(s, s.workers[id]); }
  }

  // ---- the two calls under the mode's lock ----

  // a mode with bridges never leaves tor without lines, and direct always does
  lemma NewModeLines(s: State, mode: string, opts: Opts, good: seq<string>)
    requires Asked(mode, opts.consent, good) == Taken && mode != "auto" && !(s.mode == mode && s.opts == opts)
    ensures
      var s' := Next(s, SetMode(mode, opts, if mode == "direct" then [] else good));
      (s'.lines == [] <==> mode == "direct") && !s'.mark
  {}

  class Modes {
    var gen: nat
    var mode: string
    var opts: Opts
    var known: bool
    var lines: seq<string>
    var mark: bool
    ghost var past: map<nat, (string, bool)>
    ghost var workers: map<nat, Worker>

    ghost function View(): State reads this { State(gen, mode, opts, known, lines, mark, past, workers) }

    constructor ()
      ensures View() == START && Inv(View())
    {
      gen, mode, opts, known, lines, mark := 0, "", Opts("", false, "", [], []), false, [], false;
      past, workers := map[0 := ("", false)], map[];
    }

    // the lines a mode brings are put in place under the same lock as the mode, and
    // what it cannot take changes nothing
    method Apply(m: string, asked: Opts, good: seq<string>) returns (a: Answer)
      requires Inv(View())
      modifies this
      ensures Inv(View()) && a == Asked(m, asked.consent, good)
      ensures
        var o := if asked.consent == "" then asked.(consent := "no") else asked;
        View() == if a == Taken then Next(old(View()), SetMode(m, o, if m == "direct" then [] else good)) else old(View())
    {
      a := Asked(m, asked.consent, good);
      if a != Taken { return; }
      var o := if asked.consent == "" then asked.(consent := "no") else asked;
      var wanted := if m == "direct" then [] else good;
      ApplyModeKeeps(View(), m, o, wanted);
      Put(m, o, wanted);
    }

    method Put(m: string, o: Opts, wanted: seq<string>)
      modifies this
      ensures View() == ApplyMode(old(View()), m, o, wanted)
    {
      var same := mode == m && opts == o;
      var consentOnly := !same && mode == m == "auto" && opts.(consent := o.consent) == o;
      if consentOnly {
        opts := o;
      } else if !same {
        gen := gen + 1;
        mode, opts := m, o;
        past := past[gen := (m, o.skipDirect)];
        if m != "auto" { lines := wanted; }
        mark := false;
      }
      known := true;
    }

    method Use(g: nat, way: Way) returns (ok: bool)
      modifies this
      ensures ok == (old(gen) == g) && View() == UseStep(old(View()), g, way)
    {
      if gen != g { return false; }
      lines := way.lines;
      mark := way.via == "direct";
      return true;
    }
  }
}
