/**
 Runs of the knock table: registrations, moves, forgets, expiry, endpoints let go and
 the lock let go in the middle of a registration or a forget, in any order.
 */
module KnockRun {
  import opened KnockTable
  import opened KnockTableProof

  /**
   One stretch under the lock. A registration that lets the lock go for a name lookup
   changes nothing before and is checked again after, so it is one Take at its second
   stretch; so is a forget, whose second stretch is Forget. An endpoint let go is a
   Drop for each of its addresses, a sweep an Expire or a ForgetOver for each.
   */
  datatype Step =
    | Take(key: Addr, url: URL, made: int, now: int, passedUnchecked: bool, idle: bool)
    | Forget(key: Addr, made: int, idle: bool)
    | Settled(url: URL)
    | Drop(key: Addr, idle: bool)
    | Expire(key: Addr, now: int, idle: bool)
    | ForgetOver(key: Addr, now: int)

  // too many names passed unchecked on the server already
  predicate Crowded(t: Table, push: set<string>, url: URL, passedUnchecked: bool) {
    passedUnchecked && url.domain !in push && ServerOf(t, url.domain).unchecked >= UNCHECKED_EPS
  }

  predicate Takes(t: Table, push: set<string>, s: Step)
    requires s.Take?
  {
    Admits(t, push, s.key, s.url, s.made, s.now) && !Crowded(t, push, s.url, s.passedUnchecked)
  }

  function Unforgotten(t: Table, key: Addr): Table { t.(forgets := t.forgets - {key}) }

  function TakeSet(t: Table, push: set<string>, s: Step): Table
    requires s.Take? && (s.key in t.regs ==> t.regs[s.key].url in t.eps)
  {
    Set(t, push, s.key, s.url, s.made, s.made + TTL, s.now, s.idle)
  }

  function Noted(t: Table, push: set<string>, s: Step): Table
    requires s.Take?
  {
    if s.passedUnchecked && s.url.domain !in push && s.url in t.eps then NoteUnchecked(t, push, s.url) else t
  }

  function TakeNow(t: Table, push: set<string>, s: Step): Table
    requires s.Take? && (s.key in t.regs ==> t.regs[s.key].url in t.eps)
  {
    Noted(TakeSet(Unforgotten(t, s.key), push, s), push, s)
  }

  // a newer one came while the forget was written
  predicate Overtaken(t: Table, key: Addr, made: int) { KeptFor(t, key).Made? && KeptFor(t, key).at > made }

  function Next(t: Table, push: set<string>, s: Step): Table
    requires forall k :: k in t.regs ==> t.regs[k].url in t.eps
  {
    match s
    case Take(_, _, _, _, _, _) => if Takes(t, push, s) then TakeNow(t, push, s) else t
    case Forget(key, made, idle) =>
      if Overtaken(t, key, made) then t
      else var t1 := KnockTable.Drop(t, push, key, idle); t1.(forgets := t1.forgets[key := made])
    case Settled(url) => if url in t.eps then Settle(t, push, url) else t
    case Drop(key, idle) => KnockTable.Drop(t, push, key, idle)
    case Expire(key, now, idle) =>
      if key in t.regs && t.regs[key].expires <= now then KnockTable.Drop(t, push, key, idle) else t
    case ForgetOver(key, now) =>
      if key in t.forgets && t.forgets[key] + SKEW <= now then t.(forgets := t.forgets - {key}) else t
  }

  // ---- nothing but a registration makes a counter grow ----

  ghost predicate NoMore(t': Table, t: Table) {
    && t'.caps == t.caps
    && (forall name :: ShareOf(t', name).eps <= ShareOf(t, name).eps && ShareOf(t', name).regs <= ShareOf(t, name).regs)
    && (forall name :: |ShareOf(t', name).pending| <= |ShareOf(t, name).pending|)
    && (forall d :: NoMoreOn(ServerOf(t', d), ServerOf(t, d)))
    && (forall u :: u in t'.eps ==> u in t.eps && |t'.eps[u].keys| <= |t.eps[u].keys|)
  }

  predicate NoMoreOn(d': Server, d: Server) {
    d'.eps <= d.eps && d'.regs <= d.regs && d'.pending <= d.pending && d'.unchecked <= d.unchecked
  }

  lemma NoMoreKeepsCaps(t': Table, t: Table, push: set<string>)
    requires CapsOK(t, push) && NoMore(t', t)
    ensures CapsOK(t', push)
  {
    forall d | d !in push ensures Within(t'.caps, ServerOf(t', d)) {
      assert NoMoreOn(ServerOf(t', d), ServerOf(t, d)) && Within(t.caps, ServerOf(t, d));
    }
  }

  lemma NoMoreTrans(a: Table, b: Table, c: Table)
    requires NoMore(a, b) && NoMore(b, c)
    ensures NoMore(a, c)
  {
    forall d ensures NoMoreOn(ServerOf(a, d), ServerOf(c, d)) {
      assert NoMoreOn(ServerOf(a, d), ServerOf(b, d)) && NoMoreOn(ServerOf(b, d), ServerOf(c, d));
    }
  }

  lemma SettleNoMore(t: Table, push: set<string>, u: URL)
    requires u in t.eps
    ensures NoMore(Settle(t, push, u), t)
  {}

  lemma UnregisterNoMore(t: Table, push: set<string>, key: Addr)
    requires key in t.regs && t.regs[key].url in t.eps
    ensures NoMore(Unregister(t, push, key), t)
  {
    var e := t.eps[t.regs[key].url];
    assert |e.keys - {key}| <= |e.keys|;
  }

  lemma RemoveNoMore(t: Table, push: set<string>, u: URL)
    requires u in t.eps
    ensures NoMore(Remove(t, push, u), t)
  {}

  lemma ForgetServerNoMore(t: Table, push: set<string>, name: string)
    requires CountsOK(t, push)
    ensures NoMore(t.(servers := t.servers - {name}), t)
  {
    var t' := t.(servers := t.servers - {name});
    forall d ensures NoMoreOn(ServerOf(t', d), ServerOf(t, d)) { assert ServerOK(t, push, d); }
  }

  lemma TakenOut(t: Table, push: set<string>, u: URL)
    requires CountsOK(t, push) && u in t.eps && t.eps[u].keys == {}
    ensures CountsOK(Remove(Settle(t, push, u), push, u), push) && NoMore(Remove(Settle(t, push, u), push, u), t)
  {
    SettleKeeps(t, push, u);
    SettleClears(t, push, u);
    RemoveKeeps(Settle(t, push, u), push, u);
    SettleNoMore(t, push, u);
    RemoveNoMore(Settle(t, push, u), push, u);
    NoMoreTrans(Remove(Settle(t, push, u), push, u), Settle(t, push, u), t);
  }

  lemma DropEPNoMore(t: Table, push: set<string>, u: URL, idle: bool)
    requires CountsOK(t, push) && u in t.eps && t.eps[u].keys == {}
    ensures NoMore(DropEP(t, push, u, idle), t)
  {
    TakenOut(t, push, u);
    var t1 := Remove(Settle(t, push, u), push, u);
    ForgetServerNoMore(t1, push, u.domain);
    NoMoreTrans(t1.(servers := t1.servers - {u.domain}), t1, t);
    DropEPIs(t, push, u, idle);
  }

  lemma DropNoMore(t: Table, push: set<string>, key: Addr, idle: bool)
    requires CountsOK(t, push)
    ensures NoMore(KnockTable.Drop(t, push, key, idle), t)
  {
    if key in t.regs {
      UnregisterKeeps(t, push, key);
      UnregisterNoMore(t, push, key);
      var u, t1 := t.regs[key].url, Unregister(t, push, key);
      if t1.eps[u].keys == {} {
        DropEPNoMore(t1, push, u, idle);
        NoMoreTrans(DropEP(t1, push, u, idle), t1, t);
      }
    }
  }

  // ---- a registration the checks let in ----

  // the checks, said as what they leave room for
  ghost predicate Room(t: Table, push: set<string>, u: URL) {
    var name := ShareName(push, u.domain);
    var sh, d := ShareOf(t, name), ServerOf(t, u.domain);
    && sh.regs < t.caps.Regs(name) && (u.domain !in push ==> d.regs < t.caps.serverRegs)
    && (u in t.eps ==> |t.eps[u].keys| < MAX_REGS_PER_EP)
    && (u !in t.eps ==>
          && sh.eps < t.caps.Eps(name) && (u.domain in push ==> |sh.pending| < t.caps.Eps(name) / 10)
          && (u.domain !in push ==> d.eps < t.caps.serverEps && d.pending < t.caps.serverEps / 4))
  }

  lemma RoomFromCheck(t: Table, push: set<string>, key: Addr, u: URL)
    requires "" !in push && t.caps.Fit() && HasRoom(t, push, key, u)
    ensures Room(t, push, u)
  {}

  // a move's old place going first takes no room away
  lemma DropElsewhere(t: Table, push: set<string>, key: Addr, u: URL, idle: bool)
    requires RefsOK(t, push) && (key in t.regs ==> t.regs[key].url != u)
    ensures u in KnockTable.Drop(t, push, key, idle).eps <==> u in t.eps
    ensures u in t.eps ==> KnockTable.Drop(t, push, key, idle).eps[u] == t.eps[u]
  {}

  lemma RoomAfterDrop(t: Table, push: set<string>, key: Addr, u: URL, idle: bool)
    requires CountsOK(t, push) && Room(t, push, u) && (key in t.regs ==> t.regs[key].url != u)
    ensures Room(KnockTable.Drop(t, push, key, idle), push, u)
  {
    var t' := KnockTable.Drop(t, push, key, idle);
    DropNoMore(t, push, key, idle);
    DropElsewhere(t, push, key, u, idle);
    assert NoMoreOn(ServerOf(t', u.domain), ServerOf(t, u.domain));
  }

  lemma NewEPCaps(t: Table, push: set<string>, u: URL)
    requires "" !in push && CapsOK(t, push) && Room(t, push, u) && u !in t.eps
    ensures CapsOK(NewEP(t, push, u), push) && Room(NewEP(t, push, u), push, u)
  {
    var t' := NewEP(t, push, u);
    forall d | d !in push ensures Within(t'.caps, ServerOf(t', d)) {
      assert Within(t.caps, ServerOf(t, d));
    }
  }

  lemma RegisterCaps(t: Table, push: set<string>, key: Addr, r: Reg)
    requires "" !in push && CapsOK(t, push) && Room(t, push, r.url) && r.url in t.eps
    ensures CapsOK(Register(t, push, key, r), push)
  {
    var t' := Register(t, push, key, r);
    forall d | d !in push ensures Within(t'.caps, ServerOf(t', d)) {
      assert Within(t.caps, ServerOf(t, d));
    }
  }

  lemma PlaceCaps(t: Table, push: set<string>, key: Addr, r: Reg)
    requires "" !in push && CapsOK(t, push) && Room(t, push, r.url)
    ensures CapsOK(Place(t, push, key, r), push)
  {
    if r.url in t.eps {
      RegisterCaps(t, push, key, r);
    } else {
      NewEPCaps(t, push, r.url);
      RegisterCaps(NewEP(t, push, r.url), push, key, r);
    }
  }

  // ---- every run ----

  lemma ForgetsKeep(t: Table, push: set<string>, forgets: map<Addr, int>)
    requires Valid(t, push) && t.regs.Keys !! forgets.Keys
    ensures Valid(t.(forgets := forgets), push)
  {
    var t' := t.(forgets := forgets);
    forall name ensures ServerOK(t', push, name) { assert ServerOK(t, push, name); }
    forall name ensures ShareOK(t', push, name) { assert ShareOK(t, push, name); }
    NoMoreKeepsCaps(t', t, push);
  }

  lemma DropValid(t: Table, push: set<string>, key: Addr, idle: bool)
    requires Valid(t, push)
    ensures Valid(KnockTable.Drop(t, push, key, idle), push)
    ensures key !in KnockTable.Drop(t, push, key, idle).regs
  {
    DropKeeps(t, push, key, idle);
    DropNoMore(t, push, key, idle);
    NoMoreKeepsCaps(KnockTable.Drop(t, push, key, idle), t, push);
  }

  lemma SettleValid(t: Table, push: set<string>, u: URL)
    requires Valid(t, push) && u in t.eps
    ensures Valid(Settle(t, push, u), push)
  {
    SettleKeeps(t, push, u);
    SettleNoMore(t, push, u);
    NoMoreKeepsCaps(Settle(t, push, u), t, push);
  }

  lemma NoteUncheckedValid(t: Table, push: set<string>, u: URL)
    requires Valid(t, push) && u in t.eps && ServerOf(t, u.domain).unchecked < UNCHECKED_EPS
    ensures Valid(NoteUnchecked(t, push, u), push)
  {
    NoteUncheckedKeeps(t, push, u);
    var t' := NoteUnchecked(t, push, u);
    forall d | d !in push ensures Within(t'.caps, ServerOf(t', d)) {
      assert Within(t.caps, ServerOf(t, d));
    }
  }

  lemma RenewValid(t: Table, push: set<string>, key: Addr, r: Reg)
    requires Valid(t, push) && key in t.regs && r.url == t.regs[key].url
    ensures Valid(t.(regs := t.regs[key := r]), push)
  {
    RenewKeeps(t, push, key, r);
    NoMoreKeepsCaps(t.(regs := t.regs[key := r]), t, push);
  }

  // taking a registration adds no unchecked name: only noting one does
  lemma PlaceValid(t: Table, push: set<string>, key: Addr, r: Reg) returns (t': Table)
    requires Valid(t, push) && Room(t, push, r.url) && key !in t.regs && key !in t.forgets
    ensures t' == Place(t, push, key, r) && Valid(t', push) && r.url in t'.eps
    ensures ServerOf(t', r.url.domain).unchecked == ServerOf(t, r.url.domain).unchecked
  {
    PlaceKeeps(t, push, key, r);
    PlaceCaps(t, push, key, r);
    t' := Place(t, push, key, r);
  }

  lemma MoveValid(t: Table, push: set<string>, key: Addr, r: Reg, idle: bool) returns (t': Table)
    requires Valid(t, push) && key !in t.forgets && !IsRenewal(t, key, r.url) && HasRoom(t, push, key, r.url)
    ensures t' == Place(KnockTable.Drop(t, push, key, idle), push, key, r) && Valid(t', push) && r.url in t'.eps
    ensures ServerOf(t', r.url.domain).unchecked <= ServerOf(t, r.url.domain).unchecked
  {
    var t1 := KnockTable.Drop(t, push, key, idle);
    DropValid(t, push, key, idle);
    DropKeeps(t, push, key, idle);
    RoomFromCheck(t, push, key, r.url);
    RoomAfterDrop(t, push, key, r.url, idle);
    t' := PlaceValid(t1, push, key, r);
    DropNoMore(t, push, key, idle);
    assert NoMoreOn(ServerOf(t1, r.url.domain), ServerOf(t, r.url.domain));
  }

  lemma SetValid(t: Table, push: set<string>, key: Addr, u: URL, made: int, expires: int, now: int, idle: bool) returns (t': Table)
    requires Valid(t, push) && key !in t.forgets && (IsRenewal(t, key, u) || HasRoom(t, push, key, u))
    ensures t' == Set(t, push, key, u, made, expires, now, idle)
    ensures Valid(t', push) && u in t'.eps && ServerOf(t', u.domain).unchecked <= ServerOf(t, u.domain).unchecked
  {
    if IsRenewal(t, key, u) {
      RenewValid(t, push, key, t.regs[key].(made := made, expires := expires));
      t' := t.(regs := t.regs[key := t.regs[key].(made := made, expires := expires)]);
    } else {
      t' := MoveValid(t, push, key, Reg(u, made, expires, if key in t.regs then t.regs[key].first else now), idle);
    }
  }

  lemma RoomIgnoresForgets(t: Table, push: set<string>, key: Addr, u: URL, forgets: map<Addr, int>)
    ensures HasRoom(t.(forgets := forgets), push, key, u) == HasRoom(t, push, key, u)
    ensures IsRenewal(t.(forgets := forgets), key, u) == IsRenewal(t, key, u)
    ensures ServerOf(t.(forgets := forgets), u.domain) == ServerOf(t, u.domain)
  {}

  // the table as a registration finds it, its forget gone
  lemma UnforgottenValid(t: Table, push: set<string>, s: Step) returns (t0: Table)
    requires Valid(t, push) && s.Take? && (IsRenewal(t, s.key, s.url) || HasRoom(t, push, s.key, s.url))
    ensures t0 == Unforgotten(t, s.key) && Valid(t0, push) && s.key !in t0.forgets
    ensures IsRenewal(t0, s.key, s.url) || HasRoom(t0, push, s.key, s.url)
    ensures ServerOf(t0, s.url.domain) == ServerOf(t, s.url.domain)
  {
    t0 := Unforgotten(t, s.key);
    ForgetsKeep(t, push, t0.forgets);
    RoomIgnoresForgets(t, push, s.key, s.url, t0.forgets);
  }

  lemma TakeSetValid(t: Table, push: set<string>, s: Step) returns (t1: Table)
    requires Valid(t, push) && s.Take? && (IsRenewal(t, s.key, s.url) || HasRoom(t, push, s.key, s.url)) && s.key !in t.forgets
    ensures t1 == TakeSet(t, push, s) && Valid(t1, push) && s.url in t1.eps
    ensures ServerOf(t1, s.url.domain).unchecked <= ServerOf(t, s.url.domain).unchecked
  {
    t1 := SetValid(t, push, s.key, s.url, s.made, s.made + TTL, s.now, s.idle);
  }

  lemma NotedValid(t: Table, push: set<string>, s: Step)
    requires Valid(t, push) && s.Take? && !Crowded(t, push, s.url, s.passedUnchecked)
    ensures Valid(Noted(t, push, s), push)
  {
    if s.passedUnchecked && s.url.domain !in push && s.url in t.eps { NoteUncheckedValid(t, push, s.url); }
  }

  lemma TakeValid(t: Table, push: set<string>, s: Step)
    requires Valid(t, push) && s.Take? && Takes(t, push, s)
    ensures Valid(TakeNow(t, push, s), push)
  {
    var t0 := UnforgottenValid(t, push, s);
    var t1 := TakeSetValid(t0, push, s);
    NotedValid(t1, push, s);
  }

  lemma NextValid(t: Table, push: set<string>, s: Step)
    requires Valid(t, push)
    ensures Valid(Next(t, push, s), push)
  {
    match s
    case Take(_, _, _, _, _, _) => if Takes(t, push, s) { TakeValid(t, push, s); }
    case Forget(key, made, idle) =>
      DropValid(t, push, key, idle);
      var t1 := KnockTable.Drop(t, push, key, idle);
      DropKeeps(t, push, key, idle);
      ForgetsKeep(t1, push, t1.forgets[key := made]);
    case Settled(url) => if url in t.eps { SettleValid(t, push, url); }
    case Drop(key, idle) => DropValid(t, push, key, idle);
    case Expire(key, now, idle) => DropValid(t, push, key, idle);
    case ForgetOver(key, now) => ForgetsKeep(t, push, t.forgets - {key});
  }

  ghost function Run(t: Table, push: set<string>, steps: seq<Step>): Table
    requires Valid(t, push)
    decreases |steps|
  {
    if steps == [] then t else NextValid(t, push, steps[0]); Run(Next(t, push, steps[0]), push, steps[1..])
  }

  lemma EmptyValid(push: set<string>, caps: Caps)
    requires "" !in push && caps.Fit()
    ensures Valid(Empty(caps), push)
  {
    var t := Empty(caps);
    forall name ensures ServerOK(t, push, name) {
      assert LiveOf(t.eps, PerServer, name) == {} && RegsOf(t.regs, PerServer, name) == {};
      assert PendOf({}, name) == {} && UncheckedOf(t.eps, name) == {};
    }
    forall name ensures ShareOK(t, push, name) {
      assert LiveOf(t.eps, PerShare(push), name) == {} && RegsOf(t.regs, PerShare(push), name) == {};
    }
  }

  // in every reachable state the counters are the sizes of the sets they count and no
  // cap is passed
  lemma {:induction false} RunValid(t: Table, push: set<string>, steps: seq<Step>)
    requires Valid(t, push)
    ensures Valid(Run(t, push, steps), push)
    decreases |steps|
  {
    if steps != [] {
      NextValid(t, push, steps[0]);
      RunValid(Next(t, push, steps[0]), push, steps[1..]);
    }
  }

  // a server's first endpoint is taken without a look at the server's caps, of which
  // there is no record yet
  lemma FirstPasses(push: set<string>, caps: Caps, u: URL)
    requires u.domain !in push
    ensures
      var s := Take(0, u, 0, 0, false, true);
      Takes(Empty(caps), push, s) && ServerOf(Next(Empty(caps), push, s), u.domain).pending == 1
  {
    var t := Empty(caps);
    assert HasRoom(t, push, 0, u);
    assert t.forgets - {0} == t.forgets;
  }

  /** The caps hold from an empty table on exactly for the settings in which a quarter of
      one server's endpoints is at least one. */
  lemma CapsHoldExactlyWhen(push: set<string>, caps: Caps, u: URL)
    requires "" !in push && u.domain !in push
    ensures caps.Fit() <==> forall s: Step :: CapsOK(Next(Empty(caps), push, s), push)
  {
    if caps.Fit() {
      EmptyValid(push, caps);
      forall s: Step ensures CapsOK(Next(Empty(caps), push, s), push) {
        NextValid(Empty(caps), push, s);
      }
    } else {
      FirstPasses(push, caps, u);
      var s := Take(0, u, 0, 0, false, true);
      assert !Within(caps, ServerOf(Next(Empty(caps), push, s), u.domain));
      assert !CapsOK(Next(Empty(caps), push, s), push);
    }
  }
}
