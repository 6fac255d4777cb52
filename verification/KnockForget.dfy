/**
 Newer wins, over whole runs: once something signed at a time is taken for an address,
 nothing older is, unless the endpoint was let go in between; and exactly when it is then.
 */
module KnockForget {
  import opened KnockTable
  import opened KnockTableProof
  import opened KnockRun

  // the times of the registrations taken for key, in order
  ghost function Takings(t: Table, push: set<string>, steps: seq<Step>, key: Addr): seq<int>
    requires Valid(t, push)
    decreases |steps|
  {
    if steps == [] then []
    else
      NextValid(t, push, steps[0]);
      Taking(t, push, steps[0], key) + Takings(Next(t, push, steps[0]), push, steps[1..], key)
  }

  ghost function Taking(t: Table, push: set<string>, s: Step, key: Addr): seq<int> {
    if s.Take? && s.key == key && Takes(t, push, s) then [s.made] else []
  }

  function After(clock: int, s: Step): int {
    match s
    case Take(_, _, _, now, _, _) => now
    case Expire(_, now, _) => if now > clock then now else clock
    case ForgetOver(_, now) => if now > clock then now else clock
    case _ => clock
  }

  // the clock does not go back. A sweep reads it before it takes the lock
  predicate Clocked(clock: int, steps: seq<Step>)
    decreases |steps|
  {
    steps != [] ==> (steps[0].Take? ==> steps[0].now >= clock) && Clocked(After(clock, steps[0]), steps[1..])
  }

  predicate LetGo(key: Addr, steps: seq<Step>) { exists i :: 0 <= i < |steps| && steps[i].Drop? && steps[i].key == key }

  // a registration lives a month from its signing
  ghost predicate Lives(t: Table, key: Addr) { key in t.regs ==> t.regs[key].expires == t.regs[key].made + TTL }

  // nothing from before f can be taken: something as new is kept, or f is out of the window
  ghost predicate Guards(t: Table, key: Addr, f: int, clock: int) {
    Lives(t, key) && (clock >= f + SKEW || (KeptFor(t, key).Made? && KeptFor(t, key).at >= f))
  }

  // what is registered and forgotten after a drop, and after a registration
  lemma DropRegs(t: Table, push: set<string>, k: Addr, idle: bool)
    requires k in t.regs ==> t.regs[k].url in t.eps
    ensures KnockTable.Drop(t, push, k, idle).regs == t.regs - {k} && KnockTable.Drop(t, push, k, idle).forgets == t.forgets
  {
    if k in t.regs {
      var t1 := Unregister(t, push, k);
      assert t1.regs == t.regs - {k} && t1.forgets == t.forgets;
    }
  }

  lemma DropOthers(t: Table, push: set<string>, k: Addr, idle: bool, key: Addr)
    requires (k in t.regs ==> t.regs[k].url in t.eps) && key != k
    ensures
      var t' := KnockTable.Drop(t, push, k, idle);
      (key in t'.regs <==> key in t.regs) && (key in t.regs ==> t'.regs[key] == t.regs[key]) && t'.forgets == t.forgets
  {
    DropRegs(t, push, k, idle);
  }

  lemma SetRegs(t: Table, push: set<string>, k: Addr, u: URL, made: int, expires: int, now: int, idle: bool)
    requires k in t.regs ==> t.regs[k].url in t.eps
    ensures
      var t' := Set(t, push, k, u, made, expires, now, idle);
      t'.forgets == t.forgets && t'.regs == t.regs[k := Reg(u, made, expires, if k in t.regs then t.regs[k].first else now)]
  {
    if !IsRenewal(t, k, u) {
      DropRegs(t, push, k, idle);
      var r := Reg(u, made, expires, if k in t.regs then t.regs[k].first else now);
      PlaceRegs(KnockTable.Drop(t, push, k, idle), push, k, r);
      assert (t.regs - {k})[k := r] == t.regs[k := r];
    }
  }

  lemma PlaceRegs(t: Table, push: set<string>, k: Addr, r: Reg)
    ensures Place(t, push, k, r).regs == t.regs[k := r] && Place(t, push, k, r).forgets == t.forgets
  {
  }

  lemma TakeRegs(t: Table, push: set<string>, s: Step)
    requires s.Take? && (s.key in t.regs ==> t.regs[s.key].url in t.eps)
    ensures TakeNow(t, push, s).forgets == t.forgets - {s.key}
    ensures TakeNow(t, push, s).regs == t.regs[s.key := Reg(s.url, s.made, s.made + TTL, if s.key in t.regs then t.regs[s.key].first else s.now)]
  {
    var t0 := Unforgotten(t, s.key);
    SetRegs(t0, push, s.key, s.url, s.made, s.made + TTL, s.now, s.idle);
    NotedRegs(TakeSet(t0, push, s), push, s);
  }

  lemma NotedRegs(t: Table, push: set<string>, s: Step)
    requires s.Take?
    ensures Noted(t, push, s).regs == t.regs && Noted(t, push, s).forgets == t.forgets
  {
  }

  // fewer than max of them; an address not yet registered leaves the last twentieth free
  predicate Below(n: nat, max: nat, known: bool) { if known then n < max else n + max / 20 < max }

  // room for key at u, in what is registered: for a new endpoint in its share, on its
  // server, and among the new ones of either; for one that is there, among its addresses
  ghost predicate RoomAt(t: Table, push: set<string>, key: Addr, u: URL) {
    var name, known, outside := ShareName(push, u.domain), key in t.regs, u.domain !in push;
    && (u !in t.eps ==>
          && Below(|LiveOf(t.eps, PerShare(push), name)|, t.caps.Eps(name), known)
          && (outside ==> |LiveOf(t.eps, PerServer, u.domain)| < t.caps.serverEps)
          && (outside ==> |PendOf(ShareOf(t, name).pending, u.domain)| < t.caps.serverEps / 4)
          && (!outside ==> |ShareOf(t, name).pending| < t.caps.Eps(name) / 10))
    && (u in t.eps ==> |t.eps[u].keys| < 256)
    && Below(|RegsOf(t.regs, PerShare(push), name)|, t.caps.Regs(name), known)
    && (outside ==> |RegsOf(t.regs, PerServer, u.domain)| < t.caps.serverRegs)
  }

  lemma HasRoomIs(t: Table, push: set<string>, key: Addr, u: URL)
    requires CountsOK(t, push) && "" !in push && t.caps.Fit()
    ensures HasRoom(t, push, key, u) <==> RoomAt(t, push, key, u)
  {
    assert ServerOK(t, push, u.domain) && ShareOK(t, push, ShareName(push, u.domain));
  }

  // signed within two hours of now and after anything known of the address, and the same
  // endpoint again or one there is room for
  ghost predicate Welcome(t: Table, push: set<string>, s: Step)
    requires s.Take?
  {
    && s.now - 7200 <= s.made <= s.now + 7200
    && (s.key in t.regs ==> s.made > t.regs[s.key].made) && (s.key in t.forgets ==> s.made > t.forgets[s.key])
    && ((s.key in t.regs && t.regs[s.key].url == s.url) || RoomAt(t, push, s.key, s.url))
    && (s.passedUnchecked && s.url.domain !in push ==> |UncheckedOf(t.eps, s.url.domain)| < 8)
  }

  lemma TakesIs(t: Table, push: set<string>, s: Step)
    requires CountsOK(t, push) && "" !in push && t.caps.Fit() && s.Take?
    ensures Takes(t, push, s) <==> Welcome(t, push, s)
  {
    HasRoomIs(t, push, s.key, s.url);
    assert ServerOK(t, push, s.url.domain);
  }

  /** A registration is taken exactly when it is timely, newer than all that is known of
      its address and there is room; a registered address is turned away only at the full
      caps. Taken, it stands as signed for a month and the forget is gone; no other
      address changes. Not taken, nothing does. */
  lemma TakeExactlyWhen(t: Table, push: set<string>, s: Step)
    requires Valid(t, push) && s.Take?
    ensures
      var t' := Next(t, push, s);
      if Welcome(t, push, s) then
        && t'.regs == t.regs[s.key := Reg(s.url, s.made, s.made + 30 * 24 * 3600, if s.key in t.regs then t.regs[s.key].first else s.now)]
        && t'.forgets == t.forgets - {s.key}
      else t' == t
  {
    TakesIs(t, push, s);
    TakeRegs(t, push, s);
  }

  /** An endpoint taken for a new one whose name was not looked up counts among its
      server's unchecked ones. */
  lemma UncheckedCounts(t: Table, push: set<string>, s: Step)
    requires Valid(t, push) && s.Take? && Welcome(t, push, s) && s.passedUnchecked && s.url.domain !in push && s.url !in t.eps
    ensures s.url in UncheckedOf(Next(t, push, s).eps, s.url.domain)
  {
    TakesIs(t, push, s);
    NewIsPending(Unforgotten(t, s.key), push, s);
  }

  lemma NewIsPending(t: Table, push: set<string>, s: Step)
    requires s.Take? && s.url !in t.eps && (s.key in t.regs ==> t.regs[s.key].url in t.eps)
    ensures s.url in TakeSet(t, push, s).eps && !TakeSet(t, push, s).eps[s.url].unchecked
    ensures s.url in ShareOf(TakeSet(t, push, s), ShareName(push, s.url.domain)).pending
  {
  }

  lemma ForgetsExactlyWhen(t: Table, push: set<string>, key: Addr, made: int, idle: bool)
    requires Valid(t, push)
    ensures
      var t' := Next(t, push, Forget(key, made, idle));
      if (key in t.regs && t.regs[key].made > made) || (key in t.forgets && t.forgets[key] > made) then t' == t
      else t'.regs == t.regs - {key} && t'.forgets == t.forgets[key := made]
  {
    DropRegs(t, push, key, idle);
  }

  lemma SettledIsOut(t: Table, push: set<string>, u: URL)
    requires u in t.eps
    ensures Settle(t, push, u).regs == t.regs && Settle(t, push, u).forgets == t.forgets
    ensures u !in ShareOf(Settle(t, push, u), ShareName(push, u.domain)).pending
  {
  }

  /** What each of the other steps does: a forget ends the registration and is remembered,
      unless something newer is known; a drop ends it; a sweep ends exactly what is past
      its month, and a forget exactly past the clock window; an endpoint that proved
      itself is no longer a new one. Nothing else about any address changes. */
  lemma OtherSteps(t: Table, push: set<string>, s: Step)
    requires Valid(t, push) && !s.Take?
    ensures
      var t' := Next(t, push, s);
      match s
      case Forget(key, made, _) =>
        if (key in t.regs && t.regs[key].made > made) || (key in t.forgets && t.forgets[key] > made) then t' == t
        else t'.regs == t.regs - {key} && t'.forgets == t.forgets[key := made]
      case Drop(key, _) => t'.regs == t.regs - {key} && t'.forgets == t.forgets
      case Expire(key, now, _) =>
        t'.forgets == t.forgets && t'.regs == if key in t.regs && t.regs[key].expires <= now then t.regs - {key} else t.regs
      case ForgetOver(key, now) =>
        t'.regs == t.regs && t'.forgets == if key in t.forgets && t.forgets[key] + 7200 <= now then t.forgets - {key} else t.forgets
      case Settled(u) => t'.regs == t.regs && t'.forgets == t.forgets && (u in t.eps ==> u !in ShareOf(t', ShareName(push, u.domain)).pending)
      case _ => true
  {
    match s
    case Forget(key, made, idle) => ForgetsExactlyWhen(t, push, key, made, idle);
    case Drop(key, idle) => DropRegs(t, push, key, idle);
    case Expire(key, _, idle) => DropRegs(t, push, key, idle);
    case Settled(u) => if u in t.eps { SettledIsOut(t, push, u); }
    case _ =>
  }

  lemma TakenIsNotOlder(t: Table, push: set<string>, s: Step, f: int, clock: int)
    requires Valid(t, push) && s.Take? && Takes(t, push, s) && Guards(t, s.key, f, clock) && s.now >= clock
    ensures s.made >= f
  {}

  lemma TakeGuards(t: Table, push: set<string>, s: Step, key: Addr, f: int, clock: int)
    requires Valid(t, push) && Guards(t, key, f, clock) && s.Take? && s.now >= clock && Takes(t, push, s)
    ensures Guards(TakeNow(t, push, s), key, if s.key == key then s.made else f, s.now)
  {
    if key == s.key { TakenIsNotOlder(t, push, s, f, clock); }
    TakeRegs(t, push, s);
    SetGuards(t, key, f, clock, s, if s.key in t.regs then t.regs[s.key].first else s.now, TakeNow(t, push, s));
  }

  lemma SetGuards(t: Table, key: Addr, f: int, clock: int, s: Step, first: int, t': Table)
    requires Guards(t, key, f, clock) && s.Take? && s.now >= clock && (key == s.key ==> s.made >= f)
    requires t'.forgets == t.forgets - {s.key}
    requires t'.regs == t.regs[s.key := Reg(s.url, s.made, s.made + TTL, first)]
    ensures Guards(t', key, if s.key == key then s.made else f, s.now)
  {
  }

  // a drop, with or without a forget in its place
  lemma ForgottenGuards(t: Table, push: set<string>, k: Addr, made: int, idle: bool, key: Addr, f: int, clock: int)
    requires Valid(t, push) && Guards(t, key, f, clock) && !Overtaken(t, k, made)
    ensures var t1 := KnockTable.Drop(t, push, k, idle); Guards(t1.(forgets := t1.forgets[k := made]), key, f, clock)
  {
    if k != key { DropOthers(t, push, k, idle, key); } else { DropKeeps(t, push, k, idle); }
  }

  lemma ExpiredGuards(t: Table, push: set<string>, k: Addr, now: int, idle: bool, key: Addr, f: int, clock: int)
    requires Valid(t, push) && Guards(t, key, f, clock) && k in t.regs && t.regs[k].expires <= now && clock <= now
    ensures Guards(KnockTable.Drop(t, push, k, idle), key, f, now)
  {
    if k != key { DropOthers(t, push, k, idle, key); } else { DropKeeps(t, push, k, idle); }
  }

  lemma LaterGuards(t: Table, key: Addr, f: int, clock: int, later: int)
    requires Guards(t, key, f, clock) && clock <= later
    ensures Guards(t, key, f, later)
  {
  }

  lemma NextGuards(t: Table, push: set<string>, s: Step, key: Addr, f: int, clock: int)
    requires Valid(t, push) && Guards(t, key, f, clock)
    requires s.Take? ==> s.now >= clock
    requires !(s.Drop? && s.key == key)
    ensures Guards(Next(t, push, s), key, if s.Take? && s.key == key && Takes(t, push, s) then s.made else f, After(clock, s))
  {
    LaterGuards(t, key, f, clock, After(clock, s));
    match s
    case Take(_, _, _, _, _, _) => if Takes(t, push, s) { TakeGuards(t, push, s, key, f, clock); }
    case Forget(k, made, idle) => if !Overtaken(t, k, made) { ForgottenGuards(t, push, k, made, idle, key, f, clock); }
    case Settled(url) =>
    case Drop(k, idle) => DropOthers(t, push, k, idle, key);
    case Expire(k, now, idle) =>
      if k in t.regs && t.regs[k].expires <= now { SweptGuards(t, push, k, now, idle, key, f, clock); }
    case ForgetOver(k, now) =>
  }

  // a sweep may have read its clock before
  lemma SweptGuards(t: Table, push: set<string>, k: Addr, now: int, idle: bool, key: Addr, f: int, clock: int)
    requires Valid(t, push) && Guards(t, key, f, clock) && k in t.regs && t.regs[k].expires <= now
    ensures Guards(KnockTable.Drop(t, push, k, idle), key, f, if now > clock then now else clock)
  {
    var late := if now > clock then now else clock;
    LaterGuards(t, key, f, clock, late);
    ExpiredGuards(t, push, k, late, idle, key, f, clock);
  }

  predicate Ascends(s: seq<int>, from: int)
    decreases |s|
  {
    s != [] ==> s[0] >= from && Ascends(s[1..], s[0])
  }

  /**
   After a forget, or a registration, at f is taken, and as long as the endpoint is
   not let go, the times of what is taken never go back behind f nor behind one another.
   */
  lemma {:induction false} TakingsAscend(t: Table, push: set<string>, steps: seq<Step>, key: Addr, f: int, clock: int)
    requires Valid(t, push) && Guards(t, key, f, clock) && Clocked(clock, steps) && !LetGo(key, steps)
    ensures Ascends(Takings(t, push, steps, key), f)
    decreases |steps|
  {
    if steps != [] {
      var s, rest := steps[0], steps[1..];
      NextValid(t, push, s);
      NextGuards(t, push, s, key, f, clock);
      forall i | 0 <= i < |rest| ensures !(rest[i].Drop? && rest[i].key == key) { assert rest[i] == steps[i + 1]; }
      var taken := s.Take? && s.key == key && Takes(t, push, s);
      TakingsAscend(Next(t, push, s), push, rest, key, if taken then s.made else f, After(clock, s));
      var later := Takings(Next(t, push, s), push, rest, key);
      if taken {
        TakenIsNotOlder(t, push, s, f, clock);
        assert ([s.made] + later)[1..] == later;
      } else {
        assert [] + later == later;
      }
    }
  }

  // a forget just taken guards its time
  lemma ForgetGuards(t: Table, push: set<string>, key: Addr, made: int, idle: bool, clock: int)
    requires Valid(t, push) && !Overtaken(t, key, made)
    ensures Guards(Next(t, push, Forget(key, made, idle)), key, made, clock)
  {
    DropKeeps(t, push, key, idle);
  }

  // ---- let go, and the guard is gone ----

  const U := URL("a.example", "/x")
  const FIRST := Take(0, U, 100, 300, false, true)
  const GONE := Forget(0, 200, true)
  const AGAIN := Take(0, U, 300, 300, false, true)
  const OLD := Take(0, U, 150, 300, false, true)

  const LET_GO := Step.Drop(0, true)

  // one address on one endpoint, and none
  function One(made: int, uid: nat): Table {
    Table(map[0 := Reg(U, made, made + TTL, 300)], map[], map[U := EP(uid, {0}, false)],
          map["a.example" := Server(1, 1, 1, 0)], map["" := Share(1, 1, {U})], uid + 1, DEFAULT_CAPS)
  }

  function None(forgets: map<Addr, int>, uid: nat): Table { Table(map[], forgets, map[], map[], map["" := Share(0, 0, {})], uid, DEFAULT_CAPS) }

  lemma TakesFirst()
    ensures Takes(NEW, {}, FIRST) && Next(NEW, {}, FIRST) == One(100, 0)
  {
    assert HasRoom(NEW, {}, 0, U);
    var t := NewEP(NEW, {}, U);
    assert t == Table(map[], map[], map[U := EP(0, {}, false)], map["a.example" := Server(1, 0, 1, 0)], map["" := Share(1, 0, {U})], 1, DEFAULT_CAPS);
    assert NEW.forgets - {0} == NEW.forgets;
    assert Register(t, {}, 0, Reg(U, 100, 100 + TTL, 300)) == One(100, 0);
  }

  lemma DropsOne(made: int, uid: nat)
    ensures KnockTable.Drop(One(made, uid), {}, 0, true) == None(map[], uid + 1)
  {
    var t := One(made, uid);
    var t1 := Unregister(t, {}, 0);
    assert t.regs - {0} == map[] && {0} - {0} == {} && {U} - {U} == {};
    assert t1 == Table(map[], map[], map[U := EP(uid, {}, false)], map["a.example" := Server(1, 0, 1, 0)], map["" := Share(1, 0, {U})], uid + 1, DEFAULT_CAPS);
    var t2 := Settle(t1, {}, U);
    assert t2 == Table(map[], map[], map[U := EP(uid, {}, false)], map["a.example" := Server(1, 0, 0, 0)], map["" := Share(1, 0, {})], uid + 1, DEFAULT_CAPS);
    assert t2.eps - {U} == map[] && t2.servers - {"a.example"} == map[];
    assert DropEP(t1, {}, U, true) == None(map[], uid + 1);
  }

  lemma TakesOne(forgets: map<Addr, int>, made: int, uid: nat)
    requires forgets.Keys <= {0} && (0 in forgets ==> made > forgets[0]) && 0 <= made <= 300
    ensures Takes(None(forgets, uid), {}, Take(0, U, made, 300, false, true))
    ensures Next(None(forgets, uid), {}, Take(0, U, made, 300, false, true)) == One(made, uid)
  {
    var t0 := None(forgets, uid);
    assert HasRoom(t0, {}, 0, U);
    assert t0.forgets - {0} == map[];
    var t := NewEP(None(map[], uid), {}, U);
    assert t == Table(map[], map[], map[U := EP(uid, {}, false)], map["a.example" := Server(1, 0, 1, 0)], map["" := Share(1, 0, {U})], uid + 1, DEFAULT_CAPS);
    assert Register(t, {}, 0, Reg(U, made, made + TTL, 300)) == One(made, uid);
  }

  const NEW := Empty(DEFAULT_CAPS)
  const RUN: seq<Step> := [FIRST] + [GONE, AGAIN, LET_GO, OLD]

  // one step of the run: what it takes, then what the rest takes
  lemma TakingsAfter(t: Table, s: Step, t': Table, rest: seq<Step>, taken: seq<int>)
    requires Valid(t, {}) && Next(t, {}, s) == t' && Valid(t', {}) && Takings(t', {}, rest, 0) == taken
    ensures Takings(t, {}, [s] + rest, 0) == Taking(t, {}, s, 0) + taken
  {
    assert ([s] + rest)[1..] == rest;
  }

  lemma RunEnds()
    ensures Valid(None(map[], 2), {}) ==> Takings(None(map[], 2), {}, [OLD], 0) == [150]
  {
    if Valid(None(map[], 2), {}) {
      TakesOne(map[], 150, 2);
      NextValid(None(map[], 2), {}, OLD);
      TakingsAfter(None(map[], 2), OLD, One(150, 2), [], []);
      assert [OLD] + [] == [OLD];
    }
  }

  lemma RunLetsGo()
    ensures Valid(One(300, 1), {}) ==> Takings(One(300, 1), {}, [LET_GO, OLD], 0) == [150]
  {
    if Valid(One(300, 1), {}) {
      DropsOne(300, 1);
      NextValid(One(300, 1), {}, LET_GO);
      RunEnds();
      TakingsAfter(One(300, 1), LET_GO, None(map[], 2), [OLD], [150]);
    }
  }

  lemma RunTakesAgain()
    ensures Valid(None(map[0 := 200], 1), {}) ==> Takings(None(map[0 := 200], 1), {}, [AGAIN, LET_GO, OLD], 0) == [300, 150]
  {
    var t := None(map[0 := 200], 1);
    if Valid(t, {}) {
      TakesOne(map[0 := 200], 300, 1);
      NextValid(t, {}, AGAIN);
      RunLetsGo();
      TakingsAfter(t, AGAIN, One(300, 1), [LET_GO, OLD], [150]);
    }
  }

  lemma RunForgets()
    ensures Valid(One(100, 0), {}) ==> Takings(One(100, 0), {}, [GONE, AGAIN, LET_GO, OLD], 0) == [300, 150]
  {
    var t := One(100, 0);
    if Valid(t, {}) {
      DropsOne(100, 0);
      assert !Overtaken(t, 0, 200) && Next(t, {}, GONE) == None(map[0 := 200], 1);
      NextValid(t, {}, GONE);
      RunTakesAgain();
      TakingsAfter(t, GONE, None(map[0 := 200], 1), [AGAIN, LET_GO, OLD], [300, 150]);
    }
  }

  lemma FirstValid()
    ensures Valid(NEW, {}) && Valid(One(100, 0), {})
  {
    EmptyValid({}, DEFAULT_CAPS);
    TakesFirst();
    NextValid(NEW, {}, FIRST);
  }

  lemma RunTakes()
    ensures Valid(NEW, {}) && Takings(NEW, {}, RUN, 0) == [100] + [300, 150]
  {
    FirstValid();
    RunForgets();
    assert Taking(NEW, {}, FIRST, 0) == [100] && Next(NEW, {}, FIRST) == One(100, 0) by { TakesFirst(); }
    TakingsAfter(NEW, FIRST, One(100, 0), [GONE, AGAIN, LET_GO, OLD], [300, 150]);
  }

  // registered at 100, forgotten at 200, registered at 300, and the endpoint let go: the
  // registration of 150, from before the forget, is taken, which it was not before
  lemma LetGoLosesTheGuard()
    ensures Valid(NEW, {}) && Clocked(0, RUN) && Takings(NEW, {}, RUN, 0) == [100] + [300, 150]
    ensures !Takes(None(map[0 := 200], 1), {}, OLD) && !Takes(One(300, 1), {}, OLD)
  {
    RunTakes();
    RunClocked();
  }

  lemma RunClocked()
    ensures Clocked(0, RUN)
  {
    assert RUN[1..] == [GONE, AGAIN, LET_GO, OLD] && RUN[1..][1..] == [AGAIN, LET_GO, OLD];
    assert [AGAIN, LET_GO, OLD][1..] == [LET_GO, OLD] && [LET_GO, OLD][1..] == [OLD];
    assert Clocked(300, [OLD]) && Clocked(300, [LET_GO, OLD]) && Clocked(300, [AGAIN, LET_GO, OLD]);
  }

  // ---- exactly when ----

  // some registration from before f is taken at or after clock
  ghost predicate CanGoBack(t: Table, push: set<string>, key: Addr, f: int, clock: int) {
    exists s: Step :: s.Take? && s.key == key && s.now >= clock && s.made < f && Takes(t, push, s)
  }

  /** A registration from before f can be taken exactly while f is inside the clock
      window and nothing kept for the address leaves less than two seconds under f. */
  lemma GoesBackExactlyWhen(t: Table, push: set<string>, key: Addr, u: URL, f: int, clock: int)
    requires IsRenewal(t, key, u) || HasRoom(t, push, key, u)
    ensures CanGoBack(t, push, key, f, clock) <==>
            clock < f + SKEW && (KeptFor(t, key).Made? ==> KeptFor(t, key).at < f - 1)
  {
    if clock < f + SKEW && (KeptFor(t, key).Made? ==> KeptFor(t, key).at < f - 1) {
      var s := Take(key, u, f - 1, if clock > f - 1 then clock else f - 1, false, true);
      assert s.key == key && s.now >= clock && s.made < f && Takes(t, push, s);
    }
  }

  /** So an endpoint let go takes the guard with it exactly while what it guards is
      inside the clock window, whatever was kept for the address. */
  lemma LetGoGoesBackExactlyWhen(t: Table, push: set<string>, key: Addr, idle: bool, u: URL, f: int, clock: int)
    requires Valid(t, push) && key in t.regs
    requires HasRoom(Next(t, push, Step.Drop(key, idle)), push, key, u)
    ensures CanGoBack(Next(t, push, Step.Drop(key, idle)), push, key, f, clock) <==> clock < f + SKEW
  {
    var t' := Next(t, push, Step.Drop(key, idle));
    DropKeeps(t, push, key, idle);
    assert KeptFor(t', key) == Nothing;
    GoesBackExactlyWhen(t', push, key, u, f, clock);
  }
}
