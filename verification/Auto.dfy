/**
 What automatic plans (engine/auto.go): the ways of one pass, the way of a check-in,
 and how moat's answer changes a plan.
 */
module Auto {
  import opened Wrappers

  const MEM_DAYS := 30

  // a way in, or the ask of moat
  datatype Way = Way(via: string, source: string, lines: seq<string>)

  const MOAT := Way("moat", "", [])
  const DIRECT := Way("direct", "", [])
  // neither bridges nor tor alone: tor stays off the network
  const HOLD := Way("", "", [])

  datatype Use = Use(via: string, source: string, day: int)

  datatype Memory = Memory(last: map<string, Use>, worked: map<string, map<string, Use>>, blocked: map<string, int>)

  datatype Opts = Opts(consent: string, skipDirect: bool, country: string, lines: seq<string>, webtunnel: seq<string>)

  datatype Setting = Setting(kind: string, source: string, lines: seq<string>)

  // the lines at hand: the built-in ones per transport, and moat's of the week
  datatype World = World(builtin: map<string, seq<string>>, moat: seq<Setting>)

  predicate Recent(day: int, today: int) { today - MEM_DAYS < day <= today }

  predicate Known(via: string) { via == "obfs4" || via == "webtunnel" || via == "snowflake" }

  predicate SameWay(a: Way, b: Way) { a.via == b.via && a.source == b.source }

  function Builtin(w: World, via: string): seq<string> { if via in w.builtin then w.builtin[via] else [] }

  function MoatLines(settings: seq<Setting>, via: string): seq<string> {
    if settings == [] then []
    else if settings[0].kind == via && settings[0].source == "bridgedb" then settings[0].lines
    else MoatLines(settings[1..], via)
  }

  // the bridges a remembered way would use today, if it still has any
  function LinesFor(w: World, u: Use, opts: Opts): seq<string> {
    if u.via == "direct" then []
    else if u.source == "builtin" then Builtin(w, u.via)
    else if u.source == "moat" then MoatLines(w.moat, u.via)
    else if u.source == "cached" && u.via == "webtunnel" then opts.webtunnel
    else []
  }

  predicate DirectBlocked(mem: Memory, kind: string, today: int) { kind in mem.blocked && Recent(mem.blocked[kind], today) }

  // ---- the plan ----

  function AddWay(steps: seq<Way>, s: Way): seq<Way> { if exists o :: o in steps && SameWay(o, s) then steps else steps + [s] }

  function Remembered(w: World, kind: string, mem: Memory, opts: Opts, today: int): seq<Way> {
    if kind !in mem.last || !Recent(mem.last[kind].day, today) then []
    else
      var u := mem.last[kind];
      if u.via == "direct" then
        if DirectBlocked(mem, kind, today) || opts.skipDirect then [] else [DIRECT]
      else if LinesFor(w, u, opts) != [] then [Way(u.via, u.source, LinesFor(w, u, opts))]
      else []
  }

  function AddBuiltin(w: World, steps: seq<Way>, via: string): seq<Way> {
    if Builtin(w, via) != [] then AddWay(steps, Way(via, "builtin", Builtin(w, via))) else steps
  }

  function BeforeMoat(w: World, kind: string, mem: Memory, opts: Opts, today: int): seq<Way> {
    var r := Remembered(w, kind, mem, opts, today);
    if DirectBlocked(mem, kind, today) || opts.skipDirect then r else AddWay(r, DIRECT)
  }

  function PlanPass(w: World, kind: string, mem: Memory, opts: Opts, today: int): seq<Way> {
    var p := AddWay(BeforeMoat(w, kind, mem, opts, today), MOAT);
    var p1 := AddBuiltin(w, AddBuiltin(w, p, "obfs4"), "snowflake");
    if opts.webtunnel != [] then AddWay(p1, Way("webtunnel", "cached", opts.webtunnel)) else p1
  }

  // ---- moat's answer ----

  function MoatSteps(settings: seq<Setting>): seq<Way> {
    if settings == [] then []
    else
      var s, rest := settings[0], MoatSteps(settings[1..]);
      if s.lines == [] || !Known(s.kind) then rest
      else [Way(s.kind, if s.source == "builtin" then "builtin" else "moat", s.lines)] + rest
  }

  // the steps moat gives that are not there yet
  function AddExtra(out: seq<Way>, extra: seq<Way>): seq<Way>
    decreases |extra|
  {
    if extra == [] then out
    else AddExtra(if exists o :: o in out && SameWay(o, extra[0]) && o.via != "moat" then out else out + [extra[0]], extra[1..])
  }

  predicate Tried(extra: seq<Way>, via: string) { exists e :: e in extra && e.via == via }

  // the steps further on, without the built-in ones moat's steps cover
  function Uncovered(steps: seq<Way>, extra: seq<Way>): seq<Way> {
    if steps == [] then []
    else if steps[0].source == "builtin" && Tried(extra, steps[0].via) then Uncovered(steps[1..], extra)
    else [steps[0]] + Uncovered(steps[1..], extra)
  }

  function SpliceMoat(steps: seq<Way>, at: nat, extra: seq<Way>): seq<Way>
    requires at < |steps|
  {
    AddExtra(steps[..at + 1], extra) + Uncovered(steps[at + 1..], extra)
  }

  // ---- check-ins ----

  // the best of what worked here that spares the broker
  function Sparing(w: World, kind: string, mem: Memory, opts: Opts, today: int, vias: seq<string>): Option<Way>
    decreases |vias|
  {
    if vias == [] then None
    else if kind in mem.worked && vias[0] in mem.worked[kind] && Recent(mem.worked[kind][vias[0]].day, today) &&
            LinesFor(w, mem.worked[kind][vias[0]], opts) != [] then
      var u := mem.worked[kind][vias[0]];
      Some(Way(u.via, u.source, LinesFor(w, u, opts)))
    else Sparing(w, kind, mem, opts, today, vias[1..])
  }

  function CheckInStep(w: World, kind: string, mem: Memory, opts: Opts, today: int): Option<Way> {
    if kind !in mem.last || !Recent(mem.last[kind].day, today) then None
    else
      var u := mem.last[kind];
      if u.via == "direct" then
        if opts.skipDirect || DirectBlocked(mem, kind, today) then None else Some(Way(u.via, u.source, []))
      else
        var sparing := if u.via == "snowflake" then Sparing(w, kind, mem, opts, today, ["webtunnel", "obfs4"]) else None;
        if sparing.Some? then sparing
        else if LinesFor(w, u, opts) == [] then None
        else Some(Way(u.via, u.source, LinesFor(w, u, opts)))
  }

  // what a check-in puts in place with nothing remembered: direct if the options and the
  // network allow it, then obfs4 as shipped, and failing both a hold
  function PutStep(w: World, kind: string, mem: Memory, opts: Opts, today: int): Way {
    var s := CheckInStep(w, kind, mem, opts, today);
    if s.Some? then s.value
    else if !opts.skipDirect && !DirectBlocked(mem, kind, today) then DIRECT
    else if Builtin(w, "obfs4") != [] then Way("obfs4", "builtin", Builtin(w, "obfs4"))
    else HOLD
  }

  // ---- what plans keep ----

  // each way has a worked entry under its own method
  ghost predicate MemoryOK(mem: Memory) {
    && (forall k :: k in mem.last ==> mem.last[k].via == "direct" || Known(mem.last[k].via))
    && (forall k, m :: k in mem.worked && m in mem.worked[k] ==> mem.worked[k][m].via == m)
  }

  // no two ways alike, the ask of moat aside
  ghost predicate Distinct(steps: seq<Way>) {
    forall i, j :: 0 <= i < j < |steps| && steps[i].via != "moat" ==> !SameWay(steps[i], steps[j])
  }

  ghost predicate NoDirect(steps: seq<Way>) { forall i :: 0 <= i < |steps| ==> steps[i].via != "direct" }

  lemma AddWayKeeps(steps: seq<Way>, s: Way)
    requires Distinct(steps)
    ensures Distinct(AddWay(steps, s)) && steps <= AddWay(steps, s)
    ensures NoDirect(steps) && s.via != "direct" ==> NoDirect(AddWay(steps, s))
  {}

  lemma PlanIsDistinct(w: World, kind: string, mem: Memory, opts: Opts, today: int)
    ensures Distinct(PlanPass(w, kind, mem, opts, today))
    ensures opts.skipDirect || DirectBlocked(mem, kind, today) ==> NoDirect(PlanPass(w, kind, mem, opts, today))
  {
    var b := BeforeMoat(w, kind, mem, opts, today);
    AddWayKeeps(Remembered(w, kind, mem, opts, today), DIRECT);
    AddWayKeeps(b, MOAT);
    var p := AddWay(b, MOAT);
    AddWayKeeps(p, Way("obfs4", "builtin", Builtin(w, "obfs4")));
    var p1 := AddBuiltin(w, p, "obfs4");
    AddWayKeeps(p1, Way("snowflake", "builtin", Builtin(w, "snowflake")));
    AddWayKeeps(AddBuiltin(w, p1, "snowflake"), Way("webtunnel", "cached", opts.webtunnel));
  }

  // the i-th setting is moat's first of that kind from its distributor
  ghost predicate FirstOf(settings: seq<Setting>, via: string, i: int) {
    && 0 <= i < |settings| && settings[i].kind == via && settings[i].source == "bridgedb"
    && forall j :: 0 <= j < i ==> !(settings[j].kind == via && settings[j].source == "bridgedb")
  }

  // lines are the ones u had: the transport's own, moat's first of that kind, or the
  // cached webtunnels
  ghost predicate LinesAre(w: World, u: Use, opts: Opts, lines: seq<string>) {
    if u.via != "direct" && u.source == "builtin" && u.via in w.builtin then lines == w.builtin[u.via]
    else if u.via != "direct" && u.source == "moat" then
      || (lines == [] && forall i :: !FirstOf(w.moat, u.via, i))
      || exists i :: FirstOf(w.moat, u.via, i) && lines == w.moat[i].lines
    else if u.via == "webtunnel" && u.source == "cached" then lines == opts.webtunnel
    else lines == []
  }

  lemma {:induction false} MoatLinesFirst(settings: seq<Setting>, via: string)
    ensures || (MoatLines(settings, via) == [] && forall i :: !FirstOf(settings, via, i))
            || exists i :: FirstOf(settings, via, i) && MoatLines(settings, via) == settings[i].lines
  {
    if settings == [] {
    } else if settings[0].kind == via && settings[0].source == "bridgedb" {
      assert FirstOf(settings, via, 0);
    } else {
      var rest := settings[1..];
      MoatLinesFirst(rest, via);
      forall i ensures FirstOf(settings, via, i) <==> FirstOf(rest, via, i - 1) { FirstOfRest(settings, via, i); }
      if i :| FirstOf(rest, via, i) && MoatLines(rest, via) == rest[i].lines { assert FirstOf(settings, via, i + 1); }
    }
  }

  lemma FirstOfRest(settings: seq<Setting>, via: string, i: int)
    requires settings != [] && !(settings[0].kind == via && settings[0].source == "bridgedb")
    ensures FirstOf(settings, via, i) <==> FirstOf(settings[1..], via, i - 1)
  {
    var rest := settings[1..];
    if FirstOf(settings, via, i) {
      assert rest[i - 1] == settings[i];
      forall j | 0 <= j < i - 1 ensures !(rest[j].kind == via && rest[j].source == "bridgedb") { assert rest[j] == settings[j + 1]; }
    }
    if FirstOf(rest, via, i - 1) {
      forall j | 0 <= j < i ensures !(settings[j].kind == via && settings[j].source == "bridgedb") {
        if j > 0 { assert rest[j - 1] == settings[j]; }
      }
    }
  }

  lemma LinesForAre(w: World, u: Use, opts: Opts, lines: seq<string>)
    ensures LinesAre(w, u, opts, lines) <==> lines == LinesFor(w, u, opts)
  {
    MoatLinesFirst(w.moat, u.via);
    forall i, j | FirstOf(w.moat, u.via, i) && FirstOf(w.moat, u.via, j) ensures i == j {}
  }

  // on that day or within the thirty up to today
  predicate Lately(day: int, today: int) { 0 <= today - day < 30 }

  // direct may be tried: neither the options nor a block found lately stand against it
  predicate DirectOpen(mem: Memory, kind: string, opts: Opts, today: int) {
    !opts.skipDirect && !(kind in mem.blocked && Lately(mem.blocked[kind], today))
  }

  // what worked last on this network, lately, by bridges there still are
  ghost predicate Recalls(w: World, kind: string, mem: Memory, opts: Opts, today: int, s: Way) {
    && kind in mem.last && Lately(mem.last[kind].day, today) && mem.last[kind].via != "direct"
    && s.via == mem.last[kind].via && s.source == mem.last[kind].source && s.lines != [] && LinesAre(w, mem.last[kind], opts, s.lines)
  }

  // one way by built-in or cached lines, unless it is the remembered one already
  function Unless(there: seq<Way>, s: Way): seq<Way> {
    if s.lines == [] || (there != [] && SameWay(there[0], s)) then [] else [s]
  }

  // from there on only these transports
  ghost predicate Vias(p: seq<Way>, at: int, vias: set<string>) { forall i :: at <= i < |p| && 0 <= i ==> p[i].via in vias }

  lemma BehindMoat(first: seq<Way>, p: seq<Way>, s: Way, vias: set<string>)
    requires |first| <= 1 && first <= p && Vias(p, |first|, vias) && s.via !in vias
    ensures (if s.lines != [] then AddWay(p, s) else p) == p + Unless(first, s)
    ensures Vias(p + Unless(first, s), |first|, vias + {s.via})
  {
    if first != [] && SameWay(first[0], s) {
      assert p[0] in p && SameWay(p[0], s);
    } else if o :| o in p && SameWay(o, s) {
      var i :| 0 <= i < |p| && p[i] == o;
      assert false;
    }
  }

  function IfDirect(mem: Memory, kind: string, opts: Opts, today: int): seq<Way> {
    if DirectOpen(mem, kind, opts, today) then [DIRECT] else []
  }

  lemma PlanBegins(w: World, kind: string, mem: Memory, opts: Opts, today: int) returns (first: seq<Way>)
    requires MemoryOK(mem)
    ensures |first| <= 1 && (first != [] ==> first[0].via != "moat" && Recalls(w, kind, mem, opts, today, first[0]))
    ensures first == [] ==> forall s :: !Recalls(w, kind, mem, opts, today, s)
    ensures BeforeMoat(w, kind, mem, opts, today) == first + IfDirect(mem, kind, opts, today)
  {
    var r := Remembered(w, kind, mem, opts, today);
    first := if r != [] && r[0].via != "direct" then r else [];
    if kind in mem.last {
      forall lines ensures LinesAre(w, mem.last[kind], opts, lines) <==> lines == LinesFor(w, mem.last[kind], opts) {
        LinesForAre(w, mem.last[kind], opts, lines);
      }
    }
    if r != [] && first == [] {
      assert r == [DIRECT] && DIRECT in r && SameWay(DIRECT, DIRECT);
    } else if o :| o in r && SameWay(o, DIRECT) {
      assert false;
    }
  }

  // what follows the ask
  function FromHere(w: World, opts: Opts, first: seq<Way>): seq<Way> {
    Unless(first, Way("obfs4", "builtin", Builtin(w, "obfs4"))) + Unless(first, Way("snowflake", "builtin", Builtin(w, "snowflake")))
    + Unless(first, Way("webtunnel", "cached", opts.webtunnel))
  }

  lemma PlanGoesOn(w: World, opts: Opts, first: seq<Way>, p: seq<Way>)
    requires |first| <= 1 && first <= p && Vias(p, |first|, {"direct", "moat"})
    ensures
      var p2 := AddBuiltin(w, AddBuiltin(w, p, "obfs4"), "snowflake");
      (if opts.webtunnel != [] then AddWay(p2, Way("webtunnel", "cached", opts.webtunnel)) else p2) == p + FromHere(w, opts, first)
  {
    var o, s, t := Way("obfs4", "builtin", Builtin(w, "obfs4")), Way("snowflake", "builtin", Builtin(w, "snowflake")), Way("webtunnel", "cached", opts.webtunnel);
    var vias := {"direct", "moat"};
    BehindMoat(first, p, o, vias);
    var p1 := p + Unless(first, o);
    assert AddBuiltin(w, p, "obfs4") == p1;
    BehindMoat(first, p1, s, vias + {"obfs4"});
    var p2 := p1 + Unless(first, s);
    assert AddBuiltin(w, p1, "snowflake") == p2;
    BehindMoat(first, p2, t, vias + {"obfs4"} + {"snowflake"});
    assert p2 + Unless(first, t) == p + FromHere(w, opts, first);
  }

  /** A plan, in full: what is remembered, direct where it is allowed, the ask of moat,
      and then obfs4, snowflake and the cached webtunnels as far as there are lines for
      them and they do not stand first already. */
  lemma PlanIs(w: World, kind: string, mem: Memory, opts: Opts, today: int) returns (first: seq<Way>)
    requires MemoryOK(mem)
    ensures |first| <= 1 && (first != [] ==> Recalls(w, kind, mem, opts, today, first[0]))
    ensures first == [] ==> forall s :: !Recalls(w, kind, mem, opts, today, s)
    ensures PlanPass(w, kind, mem, opts, today) == first + IfDirect(mem, kind, opts, today) + [MOAT] + FromHere(w, opts, first)
  {
    first := PlanBegins(w, kind, mem, opts, today);
    var b := BeforeMoat(w, kind, mem, opts, today);
    var p := AddWay(b, MOAT);
    assert p == b + [MOAT];
    PlanGoesOn(w, opts, first, p);
  }

  // a step of a plan for what there is lines for, and no other
  ghost predicate Planned(w: World, kind: string, mem: Memory, opts: Opts, today: int, s: Way) {
    || s == MOAT || Recalls(w, kind, mem, opts, today, s)
    || (s == DIRECT && DirectOpen(mem, kind, opts, today))
    || (s == Way("obfs4", "builtin", Builtin(w, "obfs4")) && s.lines != [])
    || (s == Way("snowflake", "builtin", Builtin(w, "snowflake")) && s.lines != [])
    || (s == Way("webtunnel", "cached", opts.webtunnel) && s.lines != [])
  }

  lemma UnlessIn(first: seq<Way>, x: Way, s: Way)
    requires |first| <= 1 && (first != [] && SameWay(first[0], x) ==> first[0].lines == x.lines)
    ensures s in first || s in Unless(first, x) <==> s in first || (s == x && x.lines != [])
  {
    if first != [] && SameWay(first[0], x) { assert first[0] == x && x in first; }
  }

  /** Which steps a plan has: those there are lines for, direct where it is allowed, and
      no others. The remembered way is first. */
  lemma PlanHas(w: World, kind: string, mem: Memory, opts: Opts, today: int, s: Way)
    requires MemoryOK(mem)
    ensures
      var p := PlanPass(w, kind, mem, opts, today);
      (s in p <==> Planned(w, kind, mem, opts, today, s)) && (Recalls(w, kind, mem, opts, today, s) ==> |p| > 0 && p[0] == s)
  {
    var first := PlanIs(w, kind, mem, opts, today);
    var o, n, t := Way("obfs4", "builtin", Builtin(w, "obfs4")), Way("snowflake", "builtin", Builtin(w, "snowflake")), Way("webtunnel", "cached", opts.webtunnel);
    FirstIs(w, kind, mem, opts, today, first, s);
    if first != [] { FirstLines(w, mem.last[kind], opts, first[0].lines); }
    UnlessIn(first, o, s);
    UnlessIn(first, n, s);
    UnlessIn(first, t, s);
    InSix(first, IfDirect(mem, kind, opts, today), Unless(first, o), Unless(first, n), Unless(first, t), s);
  }

  lemma InSix(a: seq<Way>, b: seq<Way>, c: seq<Way>, d: seq<Way>, e: seq<Way>, s: Way)
    ensures s in a + b + [MOAT] + (c + d + e) <==> s in a || s in b || s == MOAT || s in c || s in d || s in e
  {
  }

  lemma FirstIs(w: World, kind: string, mem: Memory, opts: Opts, today: int, first: seq<Way>, s: Way)
    requires |first| <= 1 && (first != [] ==> Recalls(w, kind, mem, opts, today, first[0]))
    requires first == [] ==> forall x :: !Recalls(w, kind, mem, opts, today, x)
    ensures s in first <==> Recalls(w, kind, mem, opts, today, s)
  {
    if first != [] {
      LinesForAre(w, mem.last[kind], opts, s.lines);
      LinesForAre(w, mem.last[kind], opts, first[0].lines);
    }
  }

  lemma FirstLines(w: World, u: Use, opts: Opts, lines: seq<string>)
    requires LinesAre(w, u, opts, lines)
    ensures u.via != "direct" && u.source == "builtin" ==> lines == Builtin(w, u.via)
    ensures u.via == "webtunnel" && u.source == "cached" ==> lines == opts.webtunnel
  {
  }

  // moat's own steps come before the ask or with its answer, never after it in a plan
  ghost predicate NoMoatSourceFrom(steps: seq<Way>, at: int) { forall i :: at <= i < |steps| && 0 <= i ==> steps[i].source != "moat" }

  lemma PlanHasMoat(w: World, kind: string, mem: Memory, opts: Opts, today: int) returns (at: nat)
    requires MemoryOK(mem)
    ensures AsksAt(PlanPass(w, kind, mem, opts, today), at)
  {
    var b := BeforeMoat(w, kind, mem, opts, today);
    assert forall o :: o in b ==> o.via != "moat";
    at := |b|;
    var p := AddWay(b, MOAT);
    assert p == b + [MOAT] && AsksAt(p, at);
    AsksStays(p, at, Way("obfs4", "builtin", Builtin(w, "obfs4")));
    var p1 := AddBuiltin(w, p, "obfs4");
    AsksStays(p1, at, Way("snowflake", "builtin", Builtin(w, "snowflake")));
    AsksStays(AddBuiltin(w, p1, "snowflake"), at, Way("webtunnel", "cached", opts.webtunnel));
  }

  // moat is asked at that place and no other, and nothing of moat's comes after
  ghost predicate AsksAt(p: seq<Way>, at: nat) {
    at < |p| && p[at] == MOAT && (forall i :: 0 <= i < |p| && p[i].via == "moat" ==> i == at) && NoMoatSourceFrom(p, at)
  }

  lemma AsksStays(p: seq<Way>, at: nat, s: Way)
    requires AsksAt(p, at) && s.via != "moat" && s.source != "moat"
    ensures AsksAt(AddWay(p, s), at)
  {}

  // skip_direct: no check-in goes out direct
  lemma CheckInSkipsDirect(w: World, kind: string, mem: Memory, opts: Opts, today: int)
    requires MemoryOK(mem) && opts.skipDirect
    ensures PutStep(w, kind, mem, opts, today).via != "direct"
    ensures CheckInStep(w, kind, mem, opts, today).Some? ==> CheckInStep(w, kind, mem, opts, today).value.via != "direct"
  {
    assert Sparing(w, kind, mem, opts, today, ["webtunnel", "obfs4"]).Some? ==>
        Sparing(w, kind, mem, opts, today, ["webtunnel", "obfs4"]).value.via in ["webtunnel", "obfs4"] by {
      SparingIsOne(w, kind, mem, opts, today, ["webtunnel", "obfs4"]);
    }
  }

  // x is what worked here by that transport lately, with the lines there still are
  ghost predicate Worked(w: World, kind: string, mem: Memory, opts: Opts, today: int, via: string, x: Way) {
    && kind in mem.worked && via in mem.worked[kind] && Lately(mem.worked[kind][via].day, today)
    && SameWay(x, Way(mem.worked[kind][via].via, mem.worked[kind][via].source, []))
    && x.lines != [] && LinesAre(w, mem.worked[kind][via], opts, x.lines)
  }

  lemma WorkedIs(w: World, kind: string, mem: Memory, opts: Opts, today: int, via: string, x: Way)
    ensures Worked(w, kind, mem, opts, today, via, x) <==> Sparing(w, kind, mem, opts, today, [via]) == Some(x)
  {
    if kind in mem.worked && via in mem.worked[kind] { LinesForAre(w, mem.worked[kind][via], opts, x.lines); }
  }

  /** Which way a check-in takes: direct when that worked last and is allowed; else the
      way that worked last, but a webtunnel, or failing that obfs4, where that was
      snowflake and one of those worked lately too; and none when nothing is left. */
  lemma CheckInIs(w: World, kind: string, mem: Memory, opts: Opts, today: int, x: Way)
    requires MemoryOK(mem)
    ensures
      var lately := kind in mem.last && Lately(mem.last[kind].day, today);
      CheckInStep(w, kind, mem, opts, today) == Some(x) <==>
        && lately
        && (if mem.last[kind].via == "direct" then SameWay(x, Way("direct", mem.last[kind].source, [])) && x.lines == [] && DirectOpen(mem, kind, opts, today)
            else if mem.last[kind].via == "snowflake" && exists y :: Worked(w, kind, mem, opts, today, "webtunnel", y) then
              Worked(w, kind, mem, opts, today, "webtunnel", x)
            else if mem.last[kind].via == "snowflake" && exists y :: Worked(w, kind, mem, opts, today, "obfs4", y) then
              Worked(w, kind, mem, opts, today, "obfs4", x)
            else Recalls(w, kind, mem, opts, today, x))
  {
    if kind in mem.last { LinesForAre(w, mem.last[kind], opts, x.lines); }
    forall y ensures Worked(w, kind, mem, opts, today, "webtunnel", y) <==> Sparing(w, kind, mem, opts, today, ["webtunnel"]) == Some(y) {
      WorkedIs(w, kind, mem, opts, today, "webtunnel", y);
    }
    forall y ensures Worked(w, kind, mem, opts, today, "obfs4", y) <==> Sparing(w, kind, mem, opts, today, ["obfs4"]) == Some(y) {
      WorkedIs(w, kind, mem, opts, today, "obfs4", y);
    }
    SparingOfTwo(w, kind, mem, opts, today, "webtunnel", "obfs4");
  }

  /** What a check-in puts in place: its way where it has one, and else direct where that is
      open, obfs4 as shipped where there is any, and only failing these a hold. */
  lemma PutStepIs(w: World, kind: string, mem: Memory, opts: Opts, today: int)
    requires MemoryOK(mem)
    ensures
      var s, p := CheckInStep(w, kind, mem, opts, today), PutStep(w, kind, mem, opts, today);
      && (s.Some? ==> p == s.value)
      && (s.None? && DirectOpen(mem, kind, opts, today) ==> p == DIRECT)
      && (s.None? && !DirectOpen(mem, kind, opts, today) ==> p == if Builtin(w, "obfs4") == [] then HOLD else Way("obfs4", "builtin", Builtin(w, "obfs4")))
      && (p == HOLD ==> s.None? && !DirectOpen(mem, kind, opts, today) && Builtin(w, "obfs4") == [])
  {
    if s :| CheckInStep(w, kind, mem, opts, today) == Some(s) {
      CheckInIs(w, kind, mem, opts, today, s);
      assert s != HOLD;
    }
  }

  lemma SparingOfTwo(w: World, kind: string, mem: Memory, opts: Opts, today: int, a: string, b: string)
    ensures Sparing(w, kind, mem, opts, today, [a, b])
         == if Sparing(w, kind, mem, opts, today, [a]).Some? then Sparing(w, kind, mem, opts, today, [a]) else Sparing(w, kind, mem, opts, today, [b])
  {
    assert [a, b][1..] == [b] && [a][1..] == [];
  }

  lemma {:induction false} SparingIsOne(w: World, kind: string, mem: Memory, opts: Opts, today: int, vias: seq<string>)
    requires MemoryOK(mem)
    ensures Sparing(w, kind, mem, opts, today, vias).Some? ==> Sparing(w, kind, mem, opts, today, vias).value.via in vias
    decreases |vias|
  {
    if vias != [] { SparingIsOne(w, kind, mem, opts, today, vias[1..]); }
  }

  // ---- moat's steps ----

  ghost predicate MoatMade(extra: seq<Way>) {
    forall i :: 0 <= i < |extra| ==> Known(extra[i].via) && (extra[i].source == "moat" || extra[i].source == "builtin")
  }

  lemma {:induction false} MoatStepsMade(settings: seq<Setting>)
    ensures MoatMade(MoatSteps(settings))
  {
    if settings != [] { MoatStepsMade(settings[1..]); }
  }

  // what a setting of moat's amounts to
  function StepOf(s: Setting): Way { Way(s.kind, if s.source == "builtin" then "builtin" else "moat", s.lines) }

  // moat's settings with lines for a transport there is, all of them and in its order
  lemma {:induction false} MoatStepsHas(settings: seq<Setting>, e: Way)
    ensures e in MoatSteps(settings) <==> exists s :: s in settings && s.lines != [] && Known(s.kind) && e == StepOf(s)
  {
    if settings != [] {
      var rest := settings[1..];
      MoatStepsHas(rest, e);
      assert settings == [settings[0]] + rest;
    }
  }

  lemma {:induction false} AddExtraKeeps(out: seq<Way>, extra: seq<Way>)
    requires Distinct(out) && MoatMade(extra)
    ensures Distinct(AddExtra(out, extra)) && out <= AddExtra(out, extra)
    ensures forall i :: |out| <= i < |AddExtra(out, extra)| ==> AddExtra(out, extra)[i] in extra
    ensures forall e :: e in extra ==> exists o :: o in AddExtra(out, extra) && SameWay(o, e)
    decreases |extra|
  {
    if extra != [] {
      var e := extra[0];
      var there := exists o :: o in out && SameWay(o, e) && o.via != "moat";
      var next := if there then out else out + [e];
      assert exists o :: o in next && SameWay(o, e) by {
        if there {
          var o :| o in out && SameWay(o, e);
          assert o in next;
        } else {
          assert next[|out|] == e && e in next && SameWay(e, e);
        }
      }
      AddExtraKeeps(next, extra[1..]);
      var r := AddExtra(out, extra);
      assert next <= r;
      forall x | x in extra ensures exists o :: o in r && SameWay(o, x) {
        if x in extra[1..] {
        } else {
          var o :| o in next && SameWay(o, e);
          assert o in r;
        }
      }
    }
  }

  lemma {:induction false} UncoveredKeeps(steps: seq<Way>, extra: seq<Way>)
    requires Distinct(steps)
    ensures Distinct(Uncovered(steps, extra)) && |Uncovered(steps, extra)| <= |steps|
    ensures forall s :: s in Uncovered(steps, extra) ==> s in steps && !(s.source == "builtin" && Tried(extra, s.via))
  {
    if steps != [] {
      assert Distinct(steps[1..]);
      UncoveredKeeps(steps[1..], extra);
    }
  }

  lemma DistinctParts(a: seq<Way>, b: seq<Way>)
    requires Distinct(a) && Distinct(b) && (forall x, y :: x in a && y in b && x.via != "moat" ==> !SameWay(x, y))
    ensures Distinct(a + b)
  {}

  // moat's answer makes no way come twice, and what was behind stays
  lemma SpliceIsDistinct(steps: seq<Way>, at: nat, extra: seq<Way>)
    requires at < |steps| && Distinct(steps) && NoMoatSourceFrom(steps, at + 1) && MoatMade(extra)
    ensures Distinct(SpliceMoat(steps, at, extra)) && steps[..at + 1] <= SpliceMoat(steps, at, extra)
  {
    var head, tail := steps[..at + 1], steps[at + 1..];
    AddExtraKeeps(head, extra);
    UncoveredKeeps(tail, extra);
    var a, b := AddExtra(head, extra), Uncovered(tail, extra);
    forall x, y | x in a && y in b && x.via != "moat" ensures !SameWay(x, y) {
      var j :| 0 <= j < |tail| && tail[j] == y;
      assert steps[at + 1 + j] == y;
      var i :| 0 <= i < |a| && a[i] == x;
      if i < |head| {
        assert head[i] == x && steps[i] == x;
      } else {
        assert a[i] in extra;
      }
    }
    DistinctParts(a, b);
  }

  lemma {:induction false} AddExtraFrom(out: seq<Way>, extra: seq<Way>, s: Way)
    ensures s in AddExtra(out, extra) ==> s in out || s in extra
    decreases |extra|
  {
    if extra != [] {
      AddExtraFrom(if exists o :: o in out && SameWay(o, extra[0]) && o.via != "moat" then out else out + [extra[0]], extra[1..], s);
    }
  }

  lemma {:induction false} UncoveredFrom(steps: seq<Way>, extra: seq<Way>, s: Way)
    ensures s in Uncovered(steps, extra) ==> s in steps
  {
    if steps != [] { UncoveredFrom(steps[1..], extra, s); }
  }

  // nor does it bring direct in
  lemma SpliceNoDirect(steps: seq<Way>, at: nat, extra: seq<Way>)
    requires at < |steps| && MoatMade(extra) && NoDirect(steps)
    ensures NoDirect(SpliceMoat(steps, at, extra))
  {
    var all := SpliceMoat(steps, at, extra);
    forall i | 0 <= i < |all| ensures all[i].via != "direct" {
      AddExtraFrom(steps[..at + 1], extra, all[i]);
      UncoveredFrom(steps[at + 1..], extra, all[i]);
      assert all[i] in steps || all[i] in extra;
    }
  }
}
