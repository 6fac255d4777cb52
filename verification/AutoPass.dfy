/**
 One pass of automatic (engine/auto.go): the plan walked step by step while consent
 comes and goes and moat's answer changes what is left.
 */
module AutoPass {
  import opened Wrappers
  import opened Auto

  datatype Verdict = SeenOK | SeenBlocked | SeenLimited | SeenFailed | Interrupted

  datatype Result = Through | Stopped | Exhausted

  // what the pass meets, by how often it has looked: the consent now, how an attempt
  // went, and moat's answer, none for a call that was stopped
  datatype Outside = Outside(consent: nat -> string, verdict: nat -> Verdict, answer: Option<seq<Setting>>)

  // ways still to try, and asks of moat still to come
  function WaysLeft(steps: seq<Way>): nat { if steps == [] then 0 else (if steps[0].via == "moat" then 0 else 1) + WaysLeft(steps[1..]) }

  function AsksLeft(steps: seq<Way>): nat { if steps == [] then 0 else (if steps[0].via == "moat" then 1 else 0) + AsksLeft(steps[1..]) }

  // two ways alike
  ghost predicate Apart(tried: seq<Way>) { forall i, j :: 0 <= i < j < |tried| ==> !SameWay(tried[i], tried[j]) }

  // the ways among the first i steps
  ghost function WaysOf(steps: seq<Way>): seq<Way> {
    if steps == [] then []
    else if steps[|steps| - 1].via == "moat" then WaysOf(steps[..|steps| - 1])
    else WaysOf(steps[..|steps| - 1]) + [steps[|steps| - 1]]
  }

  lemma {:induction false} WaysOfIn(steps: seq<Way>, s: Way)
    ensures s in WaysOf(steps) <==> s in steps && s.via != "moat"
    decreases |steps|
  {
    if steps != [] {
      var front, last := steps[..|steps| - 1], steps[|steps| - 1];
      WaysOfIn(front, s);
      assert steps == front + [last];
    }
  }

  lemma {:induction false} WaysApart(steps: seq<Way>)
    requires Distinct(steps)
    ensures Apart(WaysOf(steps))
    decreases |steps|
  {
    if steps != [] {
      var front, last := steps[..|steps| - 1], steps[|steps| - 1];
      WaysApart(front);
      forall s | s in WaysOf(front) ensures !SameWay(s, last) {
        WaysOfIn(front, s);
        var k :| 0 <= k < |front| && front[k] == s;
        assert steps[k] == s;
      }
    }
  }

  lemma WaysStep(steps: seq<Way>, i: nat)
    requires i < |steps|
    ensures WaysOf(steps[..i + 1]) == WaysOf(steps[..i]) + (if steps[i].via == "moat" then [] else [steps[i]])
    ensures WaysLeft(steps[i..]) == (if steps[i].via == "moat" then 0 else 1) + WaysLeft(steps[i + 1..])
    ensures AsksLeft(steps[i..]) == (if steps[i].via == "moat" then 1 else 0) + AsksLeft(steps[i + 1..])
  {
    assert steps[..i + 1][..i] == steps[..i] && steps[..i + 1][i] == steps[i];
    assert steps[i..][1..] == steps[i + 1..];
  }

  // consent that came late puts the ask right after the attempt
  function AskLate(steps: seq<Way>, i: nat): seq<Way>
    requires i < |steps|
  {
    steps[..i + 1] + [MOAT] + steps[i + 1..]
  }

  lemma AskLateKeeps(steps: seq<Way>, i: nat, moatAt: nat)
    requires moatAt < i < |steps| && Distinct(steps) && NoMoatSourceFrom(steps, moatAt)
    ensures
      var late := AskLate(steps, i);
      && Distinct(late) && NoMoatSourceFrom(late, moatAt) && late[..i + 1] == steps[..i + 1]
      && WaysLeft(late[i + 1..]) == WaysLeft(steps[i + 1..]) && AsksLeft(late[i + 1..]) == AsksLeft(steps[i + 1..]) + 1
  {
    var late := AskLate(steps, i);
    assert late[i + 1..] == [MOAT] + steps[i + 1..] && late[i + 1..][1..] == steps[i + 1..];
    forall a, b | 0 <= a < b < |late| && late[a].via != "moat" ensures !SameWay(late[a], late[b]) {
      var a' := if a <= i then a else a - 1;
      assert late[a] == steps[a'];
      if b != i + 1 {
        var b' := if b <= i then b else b - 1;
        assert late[b] == steps[b'];
      }
    }
  }

  ghost predicate OnlyMoat(plan: seq<Way>, at: int) { forall i :: 0 <= i < |plan| && plan[i].via == "moat" ==> i == at }

  ghost predicate OnlyFrom(steps: seq<Way>, at: int) { forall i :: 0 <= i < |steps| && steps[i].via == "moat" ==> i >= at }

  // the way itself, or one of its transport in its place
  ghost predicate Covered(s: Way, steps: seq<Way>) { exists o :: o in steps && o.via == s.via && o.via != "moat" }

  ghost predicate AllCovered(plan: seq<Way>, steps: seq<Way>) { forall s :: s in plan && s.via != "moat" ==> Covered(s, steps) }

  lemma TriedAre(steps: seq<Way>, i: nat)
    requires i <= |steps|
    ensures forall s :: s in WaysOf(steps[..i]) ==> s.via != "moat"
    ensures NoDirect(steps) ==> NoDirect(WaysOf(steps[..i]))
  {
    var tried := WaysOf(steps[..i]);
    forall s | s in tried ensures s.via != "moat" && s in steps[..i] { WaysOfIn(steps[..i], s); }
    if NoDirect(steps) {
      forall k | 0 <= k < |tried| ensures tried[k].via != "direct" {
        var j :| 0 <= j < i && steps[..i][j] == tried[k];
        assert steps[j] == tried[k];
      }
    }
  }

  lemma {:induction false} UncoveredOr(steps: seq<Way>, extra: seq<Way>, s: Way)
    requires s in steps
    ensures s in Uncovered(steps, extra) || Tried(extra, s.via)
  {
    if s != steps[0] { UncoveredOr(steps[1..], extra, s); }
  }

  lemma SpliceCovers(steps: seq<Way>, at: nat, extra: seq<Way>, s: Way)
    requires at < |steps| && Distinct(steps) && MoatMade(extra) && Covered(s, steps)
    ensures Covered(s, SpliceMoat(steps, at, extra))
  {
    var head, tail, all := steps[..at + 1], steps[at + 1..], SpliceMoat(steps, at, extra);
    AddExtraKeeps(head, extra);
    var o :| o in steps && o.via == s.via && o.via != "moat";
    assert steps == head + tail;
    if o in head {
      assert o in AddExtra(head, extra) && o in all;
    } else {
      UncoveredOr(tail, extra, o);
      if o in Uncovered(tail, extra) {
        assert o in all;
      } else {
        var e :| e in extra && e.via == o.via;
        var o' :| o' in AddExtra(head, extra) && SameWay(o', e);
        assert o' in all;
      }
    }
  }

  lemma LateCovers(steps: seq<Way>, i: nat, plan: seq<Way>)
    requires i < |steps| && AllCovered(plan, steps)
    ensures AllCovered(plan, AskLate(steps, i)) && (NoDirect(steps) ==> NoDirect(AskLate(steps, i)))
  {
    var late := AskLate(steps, i);
    forall s | s in plan && s.via != "moat" ensures Covered(s, late) {
      assert Covered(s, steps);
      var o :| o in steps && o.via == s.via && o.via != "moat";
      assert steps == steps[..i + 1] + steps[i + 1..];
      assert o in late;
    }
  }

  lemma AllTried(plan: seq<Way>, steps: seq<Way>)
    requires AllCovered(plan, steps)
    ensures AllCovered(plan, WaysOf(steps))
  {
    forall s | s in plan && s.via != "moat" ensures Covered(s, WaysOf(steps)) {
      assert Covered(s, steps);
      var o :| o in steps && o.via == s.via && o.via != "moat";
      WaysOfIn(steps, o);
    }
  }

  // ---- the walk ----

  // what holds between two steps: i is the next, first where the plan asks moat
  ghost predicate Going(plan: seq<Way>, steps: seq<Way>, i: int, first: int, moatDone: bool, moatAt: int) {
    && 0 <= i <= |steps| && Distinct(steps) && AllCovered(plan, steps) && (NoDirect(plan) ==> NoDirect(steps))
    && -1 <= moatAt < i
    && (!moatDone ==> 0 <= first < |steps| && NoMoatSourceFrom(steps, first) && OnlyFrom(steps, first) && (moatAt >= 0 ==> first <= moatAt))
  }

  lemma AskGoesOn(plan: seq<Way>, steps: seq<Way>, i: nat, first: int, moatAt: int, extra: seq<Way>)
    requires Going(plan, steps, i, first, false, moatAt) && i < |steps| && steps[i].via == "moat" && MoatMade(extra)
    ensures Going(plan, SpliceMoat(steps, i, extra), i + 1, first, true, i) && SpliceMoat(steps, i, extra)[..i + 1] == steps[..i + 1]
  {
    SpliceIsDistinct(steps, i, extra);
    if NoDirect(plan) { SpliceNoDirect(steps, i, extra); }
    forall s | s in plan && s.via != "moat" ensures Covered(s, SpliceMoat(steps, i, extra)) {
      assert Covered(s, steps);
      SpliceCovers(steps, i, extra, s);
    }
  }

  lemma LateGoesOn(plan: seq<Way>, steps: seq<Way>, i: nat, first: int, moatAt: int)
    requires Going(plan, steps, i, first, false, moatAt) && i < |steps| && 0 <= moatAt
    ensures
      var late := AskLate(steps, i);
      && Going(plan, late, i + 1, first, false, moatAt) && late[..i + 1] == steps[..i + 1]
      && WaysLeft(late[i + 1..]) == WaysLeft(steps[i + 1..]) && AsksLeft(late[i + 1..]) == AsksLeft(steps[i + 1..]) + 1
  {
    AskLateKeeps(steps, i, first);
    LateCovers(steps, i, plan);
  }

  lemma PlanGoes(plan: seq<Way>, first: nat)
    requires Distinct(plan) && first < |plan| && NoMoatSourceFrom(plan, first) && OnlyMoat(plan, first)
    ensures Going(plan, plan, 0, first, false, -1)
  {
    forall s | s in plan && s.via != "moat" ensures Covered(s, plan) {}
  }

  // up to the ask and with it the steps are the plan's
  ghost predicate Begins(plan: seq<Way>, steps: seq<Way>, first: int) {
    0 <= first < |plan| && first < |steps| && steps[..first + 1] == plan[..first + 1] && plan[first].via == "moat"
  }

  // each of moat's settings with lines for a transport there is has its step
  ghost predicate Answered(o: Outside, steps: seq<Way>) {
    && o.answer.Some?
    && forall s :: s in o.answer.value && s.lines != [] && Known(s.kind) ==> exists x :: x in steps && SameWay(x, StepOf(s))
  }

  // of the first n attempts none got through or was interrupted
  ghost predicate GoneOn(o: Outside, n: int) { forall k: nat :: k < n ==> o.verdict(k) != SeenOK && o.verdict(k) != Interrupted }

  ghost predicate Willing(o: Outside) { forall n :: o.consent(n) == "yes" }

  lemma SpliceAnswers(steps: seq<Way>, at: nat, o: Outside)
    requires at < |steps| && Distinct(steps) && o.answer.Some?
    ensures Answered(o, SpliceMoat(steps, at, MoatSteps(o.answer.value)))
  {
    var extra := MoatSteps(o.answer.value);
    MoatStepsMade(o.answer.value);
    AddExtraKeeps(steps[..at + 1], extra);
    forall s | s in o.answer.value && s.lines != [] && Known(s.kind)
      ensures exists x :: x in SpliceMoat(steps, at, extra) && SameWay(x, StepOf(s))
    {
      MoatStepsHas(o.answer.value, StepOf(s));
      var x :| x in AddExtra(steps[..at + 1], extra) && SameWay(x, StepOf(s));
      assert x in SpliceMoat(steps, at, extra);
    }
  }

  lemma AllAnswered(o: Outside, steps: seq<Way>)
    requires Answered(o, steps)
    ensures Answered(o, WaysOf(steps))
  {
    forall s | s in o.answer.value && s.lines != [] && Known(s.kind) ensures exists x :: x in WaysOf(steps) && SameWay(x, StepOf(s)) {
      var x :| x in steps && SameWay(x, StepOf(s));
      WaysOfIn(steps, x);
    }
  }

  lemma {:induction false} WaysBefore(plan: seq<Way>, steps: seq<Way>, i: nat, first: int)
    requires Begins(plan, steps, first) && OnlyMoat(plan, first) && i <= first
    ensures WaysOf(steps[..i]) == steps[..i]
  {
    if i > 0 {
      WaysBefore(plan, steps, i - 1, first);
      WaysStep(steps, i - 1);
      assert steps[i - 1] == steps[..first + 1][i - 1] == plan[i - 1];
    }
  }

  lemma {:induction false} WaysPrefix(steps: seq<Way>, i: nat, j: nat)
    requires i <= j <= |steps|
    ensures WaysOf(steps[..i]) <= WaysOf(steps[..j])
  {
    if i < j {
      WaysPrefix(steps, i, j - 1);
      WaysStep(steps, j - 1);
    }
  }

  // the ways before the ask are tried as planned
  lemma WaysAsPlanned(plan: seq<Way>, steps: seq<Way>, i: nat, first: int)
    requires Begins(plan, steps, first) && OnlyMoat(plan, first) && i <= |steps|
    ensures forall k :: 0 <= k < |WaysOf(steps[..i])| && k < first ==> WaysOf(steps[..i])[k] == plan[k]
  {
    var n := if i <= first then i else first;
    WaysBefore(plan, steps, n, first);
    WaysPrefix(steps, n, i);
    forall k | 0 <= k < n ensures WaysOf(steps[..i])[k] == plan[k] { assert WaysOf(steps[..n])[k] == steps[..first + 1][k]; }
  }

  // what the steps gone through amount to
  lemma Outcome(plan: seq<Way>, steps: seq<Way>, i: nat)
    requires i <= |steps| && Distinct(steps) && AllCovered(plan, steps) && (NoDirect(plan) ==> NoDirect(steps))
    ensures
      var tried := WaysOf(steps[..i]);
      && Apart(tried) && (forall s :: s in tried ==> s.via != "moat") && (NoDirect(plan) ==> NoDirect(tried))
      && (i == |steps| ==> AllCovered(plan, tried))
  {
    WaysApart(steps[..i]);
    TriedAre(steps, i);
    if i == |steps| {
      assert steps[..i] == steps;
      AllTried(plan, steps);
    }
  }

  // a pass under way: all of the above, of the steps before the i-th
  ghost predicate Along(plan: seq<Way>, first: int, o: Outside, steps: seq<Way>, i: int, moatDone: bool, moatAt: int, tried: seq<Way>) {
    && Going(plan, steps, i, first, moatDone, moatAt) && Begins(plan, steps, first)
    && tried == WaysOf(steps[..i]) && GoneOn(o, |tried|)
    && (moatDone ==> Answered(o, steps)) && (Willing(o) && !moatDone ==> i <= first)
  }

  lemma BeginsOn(plan: seq<Way>, steps: seq<Way>, steps': seq<Way>, i: nat, first: int)
    requires Begins(plan, steps, first) && first <= i < |steps| && i < |steps'| && steps'[..i + 1] == steps[..i + 1]
    ensures Begins(plan, steps', first)
  {
    assert steps'[..first + 1] == steps'[..i + 1][..first + 1];
    assert steps[..first + 1] == steps[..i + 1][..first + 1];
  }

  lemma AlongAsk(plan: seq<Way>, first: int, o: Outside, steps: seq<Way>, i: nat, moatAt: int, tried: seq<Way>)
    requires Along(plan, first, o, steps, i, false, moatAt, tried) && i < |steps| && steps[i].via == "moat" && o.answer.Some?
    ensures Along(plan, first, o, SpliceMoat(steps, i, MoatSteps(o.answer.value)), i + 1, true, i, tried)
  {
    var extra := MoatSteps(o.answer.value);
    WaysStep(steps, i);
    MoatStepsMade(o.answer.value);
    AskGoesOn(plan, steps, i, first, moatAt, extra);
    SpliceAnswers(steps, i, o);
    BeginsOn(plan, steps, SpliceMoat(steps, i, extra), i, first);
  }

  lemma AlongPast(plan: seq<Way>, first: int, o: Outside, steps: seq<Way>, i: nat, moatDone: bool, moatAt: int, tried: seq<Way>)
    requires Along(plan, first, o, steps, i, moatDone, moatAt, tried) && i < |steps| && steps[i].via == "moat" && (moatDone || !Willing(o))
    ensures Along(plan, first, o, steps, i + 1, moatDone, i, tried)
  {
    WaysStep(steps, i);
  }

  lemma AlongTry(plan: seq<Way>, first: int, o: Outside, steps: seq<Way>, i: nat, moatDone: bool, moatAt: int, tried: seq<Way>)
    requires Along(plan, first, o, steps, i, moatDone, moatAt, tried) && i < |steps| && steps[i].via != "moat"
    requires o.verdict(|tried|) != SeenOK && o.verdict(|tried|) != Interrupted
    ensures Along(plan, first, o, steps, i + 1, moatDone, moatAt, tried + [steps[i]])
  {
    WaysStep(steps, i);
    GoingOn(plan, steps, i, first, moatDone, moatAt);
    NotTheAsk(plan, steps, i, first);
  }

  lemma GoingOn(plan: seq<Way>, steps: seq<Way>, i: nat, first: int, moatDone: bool, moatAt: int)
    requires Going(plan, steps, i, first, moatDone, moatAt) && i < |steps|
    ensures Going(plan, steps, i + 1, first, moatDone, moatAt)
  {
  }

  lemma NotTheAsk(plan: seq<Way>, steps: seq<Way>, i: nat, first: int)
    requires Begins(plan, steps, first) && i < |steps| && steps[i].via != "moat"
    ensures i != first
  {
    assert steps[..first + 1][first] == plan[..first + 1][first];
  }

  lemma AlongLate(plan: seq<Way>, first: int, o: Outside, steps: seq<Way>, i: nat, moatAt: int, tried: seq<Way>)
    requires Going(plan, steps, i, first, false, moatAt) && i < |steps| && 0 <= moatAt
    requires Along(plan, first, o, steps, i + 1, false, moatAt, tried)
    ensures Along(plan, first, o, AskLate(steps, i), i + 1, false, moatAt, tried)
  {
    LateGoesOn(plan, steps, i, first, moatAt);
    BeginsOn(plan, steps, AskLate(steps, i), i, first);
  }

  // what is left from there on, a way counting for itself and for a late ask after it
  ghost function Rest(steps: seq<Way>, i: int): nat { if 0 <= i <= |steps| then 2 * WaysLeft(steps[i..]) + AsksLeft(steps[i..]) else 0 }

  lemma RestShrinks(plan: seq<Way>, steps: seq<Way>, i: nat, first: int, moatDone: bool, moatAt: int)
    requires Going(plan, steps, i, first, moatDone, moatAt) && i < |steps|
    ensures Rest(steps, i + 1) < Rest(steps, i)
    ensures !moatDone && 0 <= moatAt && steps[i].via != "moat" ==> Rest(AskLate(steps, i), i + 1) < Rest(steps, i)
  {
    WaysStep(steps, i);
    if !moatDone && 0 <= moatAt { LateGoesOn(plan, steps, i, first, moatAt); }
  }

  // what a pass comes to when it stops before the i-th step
  lemma AlongOutcome(plan: seq<Way>, first: int, steps: seq<Way>, i: nat, moatDone: bool, moatAt: int)
    requires Going(plan, steps, i, first, moatDone, moatAt) && Begins(plan, steps, first) && OnlyMoat(plan, first)
    requires i <= |steps|
    ensures Outcomes(plan, first, WaysOf(steps[..i])) && (i == |steps| ==> AllCovered(plan, WaysOf(steps[..i])))
  {
    Outcome(plan, steps, i);
    WaysAsPlanned(plan, steps, i, first);
  }

  lemma EndsWith(plan: seq<Way>, first: int, o: Outside, steps: seq<Way>, i: nat, moatDone: bool, moatAt: int, tried: seq<Way>)
    requires Along(plan, first, o, steps, i, moatDone, moatAt, tried) && OnlyMoat(plan, first) && i < |steps| && steps[i].via != "moat"
    ensures Outcomes(plan, first, tried + [steps[i]])
  {
    WaysStep(steps, i);
    Outcome(plan, steps, i + 1);
    WaysAsPlanned(plan, steps, i + 1, first);
  }

  lemma RanAll(plan: seq<Way>, first: int, steps: seq<Way>, i: int, moatDone: bool, moatAt: int)
    requires Going(plan, steps, i, first, moatDone, moatAt) && Begins(plan, steps, first) && OnlyMoat(plan, first) && i >= |steps|
    ensures steps[..i] == steps && Outcomes(plan, first, WaysOf(steps)) && AllCovered(plan, WaysOf(steps))
  {
    assert steps[..i] == steps;
    AlongOutcome(plan, first, steps, i, moatDone, moatAt);
  }

  // no way twice, the ask not among them, none direct unless planned so, and as planned
  // up to the ask
  ghost predicate Outcomes(plan: seq<Way>, first: int, tried: seq<Way>) {
    && Apart(tried) && (forall s :: s in tried ==> s.via != "moat") && (NoDirect(plan) ==> NoDirect(tried))
    && first <= |plan| && (forall k :: 0 <= k < |tried| && k < first ==> tried[k] == plan[k])
  }

  // what a pass keeps between two steps; clock counts the looks at the consent
  datatype Pass = Pass(steps: seq<Way>, i: nat, moatDone: bool, moatAt: int, clock: nat, tried: seq<Way>)

  ghost predicate AlongIn(plan: seq<Way>, first: int, o: Outside, p: Pass) {
    Along(plan, first, o, p.steps, p.i, p.moatDone, p.moatAt, p.tried)
  }

  lemma Starts(plan: seq<Way>, first: nat, o: Outside)
    requires Distinct(plan) && AsksAt(plan, first)
    ensures AlongIn(plan, first, o, Pass(plan, 0, false, -1, 0, []))
  {
    PlanGoes(plan, first);
  }

  // a pass that ran out of steps: every transport planned tried in vain, and moat's too
  // where it was asked, as it was with consent throughout
  ghost predicate RanOut(plan: seq<Way>, first: int, o: Outside, tried: seq<Way>, asked: bool) {
    && Outcomes(plan, first, tried) && AllCovered(plan, tried) && GoneOn(o, |tried|)
    && (asked ==> Answered(o, tried)) && (Willing(o) ==> asked)
  }

  lemma RunsOut(plan: seq<Way>, first: int, o: Outside, p: Pass)
    requires AlongIn(plan, first, o, p) && p.i >= |p.steps| && AsksAt(plan, first)
    ensures RanOut(plan, first, o, p.tried, p.moatDone)
  {
    RanAll(plan, first, p.steps, p.i, p.moatDone, p.moatAt);
    if p.moatDone { AllAnswered(o, p.steps); }
  }

  // how a pass can end before its steps run out
  ghost predicate Ends(plan: seq<Way>, first: int, o: Outside, tried: seq<Way>, r: Result) {
    && Outcomes(plan, first, tried) && r != Exhausted
    && (r == Through ==> tried != [] && GoneOn(o, |tried| - 1) && o.verdict(|tried| - 1) == SeenOK)
  }

  // at the ask: moat is asked once, with consent, and its steps come in; the call may be
  // stopped
  method AskMoat(ghost plan: seq<Way>, ghost first: nat, o: Outside, p: Pass) returns (p': Pass, asked: bool, stopped: bool)
    requires AlongIn(plan, first, o, p) && p.i < |p.steps| && p.steps[p.i].via == "moat"
    ensures asked <==> !p.moatDone && o.consent(p.clock) == "yes"
    ensures stopped <==> asked && o.answer.None?
    ensures if stopped then p' == p else AlongIn(plan, first, o, p') && p'.moatDone == (p.moatDone || asked)
    ensures !asked ==> Rest(p'.steps, p'.i) < Rest(p.steps, p.i)
  {
    RestShrinks(plan, p.steps, p.i, first, p.moatDone, p.moatAt);
    if p.moatDone || o.consent(p.clock) != "yes" {
      AlongPast(plan, first, o, p.steps, p.i, p.moatDone, p.moatAt, p.tried);
      return p.(i := p.i + 1, moatAt := p.i, clock := p.clock + 1), false, false;
    }
    if o.answer.None? { return p, true, true; }
    AlongAsk(plan, first, o, p.steps, p.i, p.moatAt, p.tried);
    return Pass(SpliceMoat(p.steps, p.i, MoatSteps(o.answer.value)), p.i + 1, true, p.i, p.clock + 1, p.tried), true, false;
  }

  // after a way tried in vain: consent that came after the ask was passed puts it in again
  method AfterTry(ghost plan: seq<Way>, ghost first: nat, o: Outside, p: Pass) returns (p': Pass)
    requires AlongIn(plan, first, o, p) && p.i < |p.steps| && p.steps[p.i].via != "moat"
    requires o.verdict(|p.tried|) != SeenOK && o.verdict(|p.tried|) != Interrupted
    ensures AlongIn(plan, first, o, p') && p'.moatDone == p.moatDone && Rest(p'.steps, p'.i) < Rest(p.steps, p.i)
  {
    RestShrinks(plan, p.steps, p.i, first, p.moatDone, p.moatAt);
    AlongTry(plan, first, o, p.steps, p.i, p.moatDone, p.moatAt, p.tried);
    p' := p.(i := p.i + 1, clock := p.clock + 1, tried := p.tried + [p.steps[p.i]]);
    if !p.moatDone && 0 <= p.moatAt < p.i && o.consent(p.clock) == "yes" {
      AlongLate(plan, first, o, p.steps, p.i, p.moatAt, p'.tried);
      p' := p'.(steps := AskLate(p.steps, p.i));
    }
  }

  // the next step, and how the pass ended if it did
  method Advance(ghost plan: seq<Way>, ghost first: nat, o: Outside, p: Pass) returns (p': Pass, asked: bool, r: Option<Result>)
    requires AlongIn(plan, first, o, p) && OnlyMoat(plan, first) && p.i < |p.steps|
    ensures r.None? ==> AlongIn(plan, first, o, p') && p'.moatDone == (p.moatDone || asked) && (!asked ==> Rest(p'.steps, p'.i) < Rest(p.steps, p.i))
    ensures r.Some? ==> Ends(plan, first, o, p'.tried, r.value)
    ensures asked ==> !p.moatDone
  {
    if p.steps[p.i].via == "moat" {
      var stopped;
      p', asked, stopped := AskMoat(plan, first, o, p);
      if stopped { AlongOutcome(plan, first, p.steps, p.i, p.moatDone, p.moatAt); }
      return p', asked, if stopped then Some(Stopped) else None;
    }
    var v := o.verdict(|p.tried|);
    if v == SeenOK || v == Interrupted {
      EndsWith(plan, first, o, p.steps, p.i, p.moatDone, p.moatAt, p.tried);
      return p.(tried := p.tried + [p.steps[p.i]]), false, Some(if v == SeenOK then Through else Stopped);
    }
    p' := AfterTry(plan, first, o, p);
    return p', false, None;
  }

  /**
   The pass. Whatever the verdicts, the consent and moat's answer, it ends, tries no
   way twice and the ways before the ask as planned, and asks moat at most once. It gives
   up only when every transport planned was tried in vain, and every one of moat's where
   it was asked, which it was if consent was there throughout; it is through with the
   first way that worked.
   */
  method RunSteps(plan: seq<Way>, ghost first: nat, o: Outside) returns (tried: seq<Way>, asks: nat, r: Result)
    requires Distinct(plan) && AsksAt(plan, first)
    ensures asks <= 1 && if r == Exhausted then RanOut(plan, first, o, tried, asks == 1) else Ends(plan, first, o, tried, r)
  {
    var p := Pass(plan, 0, false, -1, 0, []);
    Starts(plan, first, o);
    while p.i < |p.steps|
      invariant AlongIn(plan, first, o, p)
      decreases !p.moatDone, Rest(p.steps, p.i)
    {
      var p', asked, done := Advance(plan, first, o, p);
      if done.Some? { return p'.tried, if p.moatDone || asked then 1 else 0, done.value; }
      p := p';
    }
    RunsOut(plan, first, o, p);
    return p.tried, if p.moatDone then 1 else 0, Exhausted;
  }

  ghost predicate TriedBy(tried: seq<Way>, via: string) { exists s :: s in tried && s.via == via }

  // every transport there was a way by: the remembered one, direct where it is allowed,
  // and each of those with lines at hand
  ghost predicate AllTransports(w: World, kind: string, mem: Memory, opts: Opts, today: int, tried: seq<Way>) {
    && (DirectOpen(mem, kind, opts, today) ==> TriedBy(tried, "direct"))
    && (Builtin(w, "obfs4") != [] ==> TriedBy(tried, "obfs4")) && (Builtin(w, "snowflake") != [] ==> TriedBy(tried, "snowflake"))
    && (opts.webtunnel != [] ==> TriedBy(tried, "webtunnel"))
    && (forall s :: Recalls(w, kind, mem, opts, today, s) ==> TriedBy(tried, s.via))
  }

  lemma PlannedTried(w: World, kind: string, mem: Memory, opts: Opts, today: int, tried: seq<Way>, s: Way)
    requires MemoryOK(mem) && AllCovered(PlanPass(w, kind, mem, opts, today), tried)
    requires Planned(w, kind, mem, opts, today, s) && s.via != "moat"
    ensures TriedBy(tried, s.via)
  {
    PlanHas(w, kind, mem, opts, today, s);
    assert Covered(s, tried);
  }

  lemma EveryTransport(w: World, kind: string, mem: Memory, opts: Opts, today: int, tried: seq<Way>)
    requires MemoryOK(mem) && AllCovered(PlanPass(w, kind, mem, opts, today), tried)
    ensures AllTransports(w, kind, mem, opts, today, tried)
  {
    if DirectOpen(mem, kind, opts, today) { PlannedTried(w, kind, mem, opts, today, tried, DIRECT); }
    if Builtin(w, "obfs4") != [] { PlannedTried(w, kind, mem, opts, today, tried, Way("obfs4", "builtin", Builtin(w, "obfs4"))); }
    if Builtin(w, "snowflake") != [] { PlannedTried(w, kind, mem, opts, today, tried, Way("snowflake", "builtin", Builtin(w, "snowflake"))); }
    if opts.webtunnel != [] { PlannedTried(w, kind, mem, opts, today, tried, Way("webtunnel", "cached", opts.webtunnel)); }
    forall s | Recalls(w, kind, mem, opts, today, s) ensures TriedBy(tried, s.via) { PlannedTried(w, kind, mem, opts, today, tried, s); }
  }

  lemma RememberedFirst(w: World, kind: string, mem: Memory, opts: Opts, today: int, tried: seq<Way>, at: nat)
    requires MemoryOK(mem) && AsksAt(PlanPass(w, kind, mem, opts, today), at) && Outcomes(PlanPass(w, kind, mem, opts, today), at, tried)
    ensures tried != [] ==> forall s :: Recalls(w, kind, mem, opts, today, s) ==> tried[0] == s
  {
    forall s | tried != [] && Recalls(w, kind, mem, opts, today, s) ensures tried[0] == s { PlanHas(w, kind, mem, opts, today, s); }
  }

  /** A pass as it begins, from what is remembered. The way that worked last is tried
      first, and the pass gives up only when every transport with a way was tried in vain,
      each of moat's included where moat was asked. */
  method RunPass(w: World, kind: string, mem: Memory, opts: Opts, today: int, o: Outside) returns (tried: seq<Way>, asks: nat, r: Result)
    requires MemoryOK(mem)
    ensures Apart(tried) && asks <= 1 && (forall s :: s in tried ==> s.via != "moat")
    ensures !DirectOpen(mem, kind, opts, today) ==> NoDirect(tried)
    ensures tried != [] ==> forall s :: Recalls(w, kind, mem, opts, today, s) ==> tried[0] == s
    ensures r == Exhausted ==> AllTransports(w, kind, mem, opts, today, tried) && AllCovered(PlanPass(w, kind, mem, opts, today), tried)
    ensures r == Exhausted ==> GoneOn(o, |tried|) && (asks == 1 ==> Answered(o, tried)) && (Willing(o) ==> asks == 1)
    ensures r == Through ==> tried != [] && GoneOn(o, |tried| - 1) && o.verdict(|tried| - 1) == SeenOK
  {
    var plan := PlanPass(w, kind, mem, opts, today);
    PlanIsDistinct(w, kind, mem, opts, today);
    ghost var at := PlanHasMoat(w, kind, mem, opts, today);
    tried, asks, r := RunSteps(plan, at, o);
    RememberedFirst(w, kind, mem, opts, today, tried, at);
    if r == Exhausted { EveryTransport(w, kind, mem, opts, today, tried); }
  }
}
