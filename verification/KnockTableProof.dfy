/**
 Every operation on the knock table keeps its counters equal to what they count, and
 a registration the checks let in keeps every cap.
 */
module KnockTableProof {
  import opened KnockTable

  // ---- how the counted sets change ----

  lemma LiveWith(eps: map<URL, EP>, u: URL, e: EP, per: Per, name: string)
    ensures LiveOf(eps[u := e], per, name) == LiveOf(eps, per, name) + (if Group(per, u.domain) == name then {u} else {})
  {}

  lemma LiveSame(eps: map<URL, EP>, u: URL, e: EP, per: Per, name: string)
    requires u in eps
    ensures LiveOf(eps[u := e], per, name) == LiveOf(eps, per, name)
  {}

  lemma UncheckedSame(eps: map<URL, EP>, u: URL, e: EP, name: string)
    requires u in eps && e.unchecked == eps[u].unchecked
    ensures UncheckedOf(eps[u := e], name) == UncheckedOf(eps, name)
  {}

  lemma LiveWithout(eps: map<URL, EP>, u: URL, per: Per, name: string)
    ensures LiveOf(eps - {u}, per, name) == LiveOf(eps, per, name) - {u}
  {}

  lemma RegsWith(regs: map<Addr, Reg>, key: Addr, r: Reg, per: Per, name: string)
    requires key !in regs
    ensures RegsOf(regs[key := r], per, name) == RegsOf(regs, per, name) + (if Group(per, r.url.domain) == name then {key} else {})
    ensures |RegsOf(regs[key := r], per, name)| == |RegsOf(regs, per, name)| + (if Group(per, r.url.domain) == name then 1 else 0)
  {}

  lemma RegsWithout(regs: map<Addr, Reg>, key: Addr, per: Per, name: string)
    requires key in regs
    ensures RegsOf(regs - {key}, per, name) == RegsOf(regs, per, name) - {key}
    ensures |RegsOf(regs - {key}, per, name)| == |RegsOf(regs, per, name)| - (if Group(per, regs[key].url.domain) == name then 1 else 0)
  {}

  lemma UncheckedWith(eps: map<URL, EP>, u: URL, e: EP, name: string)
    ensures UncheckedOf(eps[u := e], name) == UncheckedOf(eps, name) - {u} + (if e.unchecked && u.domain == name then {u} else {})
  {}

  lemma UncheckedWithout(eps: map<URL, EP>, u: URL, name: string)
    ensures UncheckedOf(eps - {u}, name) == UncheckedOf(eps, name) - {u}
  {}

  lemma PendWith(pending: set<URL>, u: URL, name: string)
    ensures PendOf(pending + {u}, name) == PendOf(pending, name) + (if u.domain == name then {u} else {})
    ensures PendOf(pending - {u}, name) == PendOf(pending, name) - {u}
  {}

  // ---- Settle ----

  lemma SettleRefs(t: Table, push: set<string>, u: URL)
    requires CountsOK(t, push) && u in t.eps
    ensures RefsOK(Settle(t, push, u), push)
  {}

  lemma SettleServer(t: Table, push: set<string>, u: URL, name: string)
    requires ServerOK(t, push, name) && u in t.eps
    ensures ServerOK(Settle(t, push, u), push, name)
  {
    if u in ShareOf(t, ShareName(push, u.domain)).pending {
      LiveSame(t.eps, u, t.eps[u].(unchecked := false), PerServer, name);
      SettleUnchecked(t.eps, u, name);
      SettlePending(t, push, u, name);
    }
  }

  lemma SettleUnchecked(eps: map<URL, EP>, u: URL, name: string)
    requires u in eps
    ensures
      |UncheckedOf(eps[u := eps[u].(unchecked := false)], name)| ==
      |UncheckedOf(eps, name)| - (if name == u.domain && eps[u].unchecked then 1 else 0)
  {
    UncheckedWith(eps, u, eps[u].(unchecked := false), name);
    assert u in UncheckedOf(eps, name) <==> name == u.domain && eps[u].unchecked;
  }

  lemma SettlePending(t: Table, push: set<string>, u: URL, name: string)
    requires u in t.eps && u in ShareOf(t, ShareName(push, u.domain)).pending
    ensures
      var mine := ShareName(push, name);
      |PendOf(ShareOf(Settle(t, push, u), mine).pending, name)| == |PendOf(ShareOf(t, mine).pending, name)| - (if name == u.domain then 1 else 0)
  {
    PendWith(ShareOf(t, ShareName(push, u.domain)).pending, u, name);
    assert u in PendOf(ShareOf(t, ShareName(push, u.domain)).pending, name) <==> name == u.domain;
  }

  lemma SettleShare(t: Table, push: set<string>, u: URL, name: string)
    requires ShareOK(t, push, name) && u in t.eps
    ensures ShareOK(Settle(t, push, u), push, name)
  {
    LiveSame(t.eps, u, t.eps[u].(unchecked := false), PerShare(push), name);
  }

  lemma SettleKeeps(t: Table, push: set<string>, u: URL)
    requires CountsOK(t, push) && u in t.eps
    ensures CountsOK(Settle(t, push, u), push)
  {
    SettleRefs(t, push, u);
    forall name ensures ServerOK(Settle(t, push, u), push, name) { SettleServer(t, push, u, name); }
    forall name ensures ShareOK(Settle(t, push, u), push, name) { SettleShare(t, push, u, name); }
  }

  // ---- an address off its endpoint, or onto one ----

  lemma UnregisterRefs(t: Table, push: set<string>, key: Addr)
    requires CountsOK(t, push) && key in t.regs
    ensures RefsOK(Unregister(t, push, key), push)
  {}

  lemma UnregisterServer(t: Table, push: set<string>, key: Addr, name: string)
    requires ServerOK(t, push, name) && key in t.regs && t.regs[key].url in t.eps
    ensures ServerOK(Unregister(t, push, key), push, name)
  {
    var u := t.regs[key].url;
    var e := t.eps[u].(keys := t.eps[u].keys - {key});
    LiveSame(t.eps, u, e, PerServer, name);
    UncheckedSame(t.eps, u, e, name);
    RegsWithout(t.regs, key, PerServer, name);
  }

  lemma UnregisterShare(t: Table, push: set<string>, key: Addr, name: string)
    requires ShareOK(t, push, name) && key in t.regs && t.regs[key].url in t.eps
    ensures ShareOK(Unregister(t, push, key), push, name)
  {
    var u := t.regs[key].url;
    LiveSame(t.eps, u, t.eps[u].(keys := t.eps[u].keys - {key}), PerShare(push), name);
    RegsWithout(t.regs, key, PerShare(push), name);
  }

  lemma UnregisterKeeps(t: Table, push: set<string>, key: Addr)
    requires CountsOK(t, push) && key in t.regs
    ensures CountsOK(Unregister(t, push, key), push)
  {
    UnregisterRefs(t, push, key);
    forall name ensures ServerOK(Unregister(t, push, key), push, name) { UnregisterServer(t, push, key, name); }
    forall name ensures ShareOK(Unregister(t, push, key), push, name) { UnregisterShare(t, push, key, name); }
  }

  ghost predicate CanRegister(t: Table, push: set<string>, key: Addr, r: Reg) {
    CountsOK(t, push) && key !in t.regs && key !in t.forgets && r.url in t.eps
  }

  lemma RegisterRefs(t: Table, push: set<string>, key: Addr, r: Reg)
    requires CanRegister(t, push, key, r)
    ensures RefsOK(Register(t, push, key, r), push)
  {}

  lemma RegisterServer(t: Table, push: set<string>, key: Addr, r: Reg, name: string)
    requires ServerOK(t, push, name) && key !in t.regs && r.url in t.eps
    ensures ServerOK(Register(t, push, key, r), push, name)
  {
    RegisterPending(t, push, key, r, name);
    RegsWith(t.regs, key, r, PerServer, name);
    var e := t.eps[r.url].(keys := t.eps[r.url].keys + {key});
    LiveSame(t.eps, r.url, e, PerServer, name);
    UncheckedSame(t.eps, r.url, e, name);
  }

  lemma RegisterPending(t: Table, push: set<string>, key: Addr, r: Reg, name: string)
    requires r.url in t.eps
    ensures
      var t' := Register(t, push, key, r);
      && ShareOf(t', ShareName(push, name)).pending == ShareOf(t, ShareName(push, name)).pending
      && ServerOf(t', name) == ServerOf(t, name).(regs := ServerOf(t, name).regs + (if name == r.url.domain then 1 else 0))
  {}

  lemma RegisterShare(t: Table, push: set<string>, key: Addr, r: Reg, name: string)
    requires ShareOK(t, push, name) && key !in t.regs && r.url in t.eps
    ensures ShareOK(Register(t, push, key, r), push, name)
  {
    LiveSame(t.eps, r.url, t.eps[r.url].(keys := t.eps[r.url].keys + {key}), PerShare(push), name);
    RegsWith(t.regs, key, r, PerShare(push), name);
  }

  lemma RegisterKeeps(t: Table, push: set<string>, key: Addr, r: Reg)
    requires CanRegister(t, push, key, r)
    ensures CountsOK(Register(t, push, key, r), push)
  {
    RegisterRefs(t, push, key, r);
    forall name ensures ServerOK(Register(t, push, key, r), push, name) { RegisterServer(t, push, key, r, name); }
    forall name ensures ShareOK(Register(t, push, key, r), push, name) { RegisterShare(t, push, key, r, name); }
  }

  // ---- an endpoint in, or out ----

  lemma NewEPRefs(t: Table, push: set<string>, u: URL)
    requires CountsOK(t, push) && u !in t.eps
    ensures RefsOK(NewEP(t, push, u), push)
  {}

  lemma NewEPServer(t: Table, push: set<string>, u: URL, name: string)
    requires ServerOK(t, push, name) && ShareOK(t, push, ShareName(push, u.domain)) && u !in t.eps
    ensures ServerOK(NewEP(t, push, u), push, name)
  {
    NewEPPending(t, push, u, name);
    LiveWith(t.eps, u, EP(t.nextUid, {}, false), PerServer, name);
    UncheckedWith(t.eps, u, EP(t.nextUid, {}, false), name);
    assert u !in UncheckedOf(t.eps, name) && u !in LiveOf(t.eps, PerServer, name);
  }

  lemma NewEPPending(t: Table, push: set<string>, u: URL, name: string)
    requires ShareOK(t, push, ShareName(push, u.domain)) && u !in t.eps
    ensures
      var t', mine, more := NewEP(t, push, u), ShareName(push, name), if name == u.domain then 1 else 0;
      && |PendOf(ShareOf(t', mine).pending, name)| == |PendOf(ShareOf(t, mine).pending, name)| + more
      && ServerOf(t', name) == ServerOf(t, name).(eps := ServerOf(t, name).eps + more, pending := ServerOf(t, name).pending + more)
  {
    PendWith(ShareOf(t, ShareName(push, u.domain)).pending, u, name);
  }

  lemma NewEPShare(t: Table, push: set<string>, u: URL, name: string)
    requires ShareOK(t, push, name) && u !in t.eps
    ensures ShareOK(NewEP(t, push, u), push, name)
  {
    LiveWith(t.eps, u, EP(t.nextUid, {}, false), PerShare(push), name);
  }

  lemma NewEPKeeps(t: Table, push: set<string>, u: URL)
    requires CountsOK(t, push) && u !in t.eps
    ensures CountsOK(NewEP(t, push, u), push)
  {
    NewEPRefs(t, push, u);
    forall name ensures ServerOK(NewEP(t, push, u), push, name) { NewEPServer(t, push, u, name); }
    forall name ensures ShareOK(NewEP(t, push, u), push, name) { NewEPShare(t, push, u, name); }
  }

  // an endpoint with no address and none of a new one's room, taken out
  function Remove(t: Table, push: set<string>, u: URL): Table
    requires u in t.eps
  {
    var name := ShareName(push, u.domain);
    var sh, d := ShareOf(t, name), ServerOf(t, u.domain);
    t.(eps := t.eps - {u}, shares := t.shares[name := sh.(eps := sh.eps - 1)], servers := t.servers[u.domain := d.(eps := d.eps - 1)])
  }

  ghost predicate CanRemove(t: Table, push: set<string>, u: URL) {
    CountsOK(t, push) && u in t.eps && t.eps[u].keys == {} && u !in ShareOf(t, ShareName(push, u.domain)).pending
  }

  lemma RemoveRefs(t: Table, push: set<string>, u: URL)
    requires CanRemove(t, push, u)
    ensures RefsOK(Remove(t, push, u), push)
  {
    var t' := Remove(t, push, u);
    forall k | k in t'.regs ensures t'.regs[k].url in t'.eps && k in t'.eps[t'.regs[k].url].keys {}
  }

  lemma RemoveServer(t: Table, push: set<string>, u: URL, name: string)
    requires CanRemove(t, push, u)
    ensures ServerOK(Remove(t, push, u), push, name)
  {
    assert ServerOK(t, push, name);
    LiveWithout(t.eps, u, PerServer, name);
    UncheckedWithout(t.eps, u, name);
    RemovedServer(t, push, u, name, Remove(t, push, u));
  }

  // what removing changes of a server's record is its count of endpoints
  lemma RemovedServer(t: Table, push: set<string>, u: URL, name: string, t': Table)
    requires u in t.eps && t' == Remove(t, push, u)
    ensures ServerOf(t', name) == ServerOf(t, name).(eps := ServerOf(t, name).eps - (if name == u.domain then 1 else 0))
    ensures ShareOf(t', ShareName(push, name)).pending == ShareOf(t, ShareName(push, name)).pending && t'.regs == t.regs
  {
  }

  lemma RemoveShare(t: Table, push: set<string>, u: URL, name: string)
    requires CanRemove(t, push, u)
    ensures ShareOK(Remove(t, push, u), push, name)
  {
    assert ShareOK(t, push, name);
    LiveWithout(t.eps, u, PerShare(push), name);
  }

  lemma RemoveKeeps(t: Table, push: set<string>, u: URL)
    requires CanRemove(t, push, u)
    ensures CountsOK(Remove(t, push, u), push)
  {
    RemoveRefs(t, push, u);
    forall name ensures ServerOK(Remove(t, push, u), push, name) { RemoveServer(t, push, u, name); }
    forall name ensures ShareOK(Remove(t, push, u), push, name) { RemoveShare(t, push, u, name); }
  }

  // a server with no endpoint has nothing to count
  lemma NoEndpointsNothing(t: Table, push: set<string>, name: string)
    requires CountsOK(t, push) && LiveOf(t.eps, PerServer, name) == {}
    ensures ServerOf(t, name) == NO_SERVER
  {
    assert ServerOK(t, push, name) && ShareOK(t, push, ShareName(push, name));
    forall u | u in t.eps ensures u.domain != name { assert u !in LiveOf(t.eps, PerServer, name); }
    assert RegsOf(t.regs, PerServer, name) == {};
    assert UncheckedOf(t.eps, name) == {};
    assert PendOf(ShareOf(t, ShareName(push, name)).pending, name) == {};
  }

  lemma ForgetServerKeeps(t: Table, push: set<string>, name: string)
    requires CountsOK(t, push) && LiveOf(t.eps, PerServer, name) == {}
    ensures CountsOK(t.(servers := t.servers - {name}), push)
  {
    NoEndpointsNothing(t, push, name);
    var t' := t.(servers := t.servers - {name});
    forall u | u in t'.eps ensures u.domain in t'.servers { assert u !in LiveOf(t.eps, PerServer, name); }
    forall n ensures ServerOK(t', push, n) { assert ServerOK(t, push, n); }
    forall n ensures ShareOK(t', push, n) { assert ShareOK(t, push, n); }
  }

  lemma DropEPIs(t: Table, push: set<string>, u: URL, idle: bool)
    requires u in t.eps
    ensures
      var t1 := Remove(Settle(t, push, u), push, u);
      DropEP(t, push, u, idle) == if ServerOf(t1, u.domain).eps <= 0 && idle then t1.(servers := t1.servers - {u.domain}) else t1
  {
    var t1 := Settle(t, push, u);
    assert Remove(t1, push, u).servers - {u.domain} == t1.servers - {u.domain};
  }

  lemma SettleClears(t: Table, push: set<string>, u: URL)
    requires u in t.eps
    ensures u !in ShareOf(Settle(t, push, u), ShareName(push, u.domain)).pending
    ensures u in Settle(t, push, u).eps && Settle(t, push, u).eps[u].keys == t.eps[u].keys
  {}

  lemma DropEPKeeps(t: Table, push: set<string>, u: URL, idle: bool)
    requires CountsOK(t, push) && u in t.eps && t.eps[u].keys == {}
    ensures CountsOK(DropEP(t, push, u, idle), push)
  {
    SettleKeeps(t, push, u);
    SettleClears(t, push, u);
    RemoveKeeps(Settle(t, push, u), push, u);
    var t1 := Remove(Settle(t, push, u), push, u);
    DropEPIs(t, push, u, idle);
    if ServerOf(t1, u.domain).eps <= 0 {
      assert ServerOK(t1, push, u.domain);
      ForgetServerKeeps(t1, push, u.domain);
    }
  }

  // ---- a name that passed unchecked ----

  lemma NoteUncheckedRefs(t: Table, push: set<string>, u: URL)
    requires CountsOK(t, push) && u in t.eps
    ensures RefsOK(NoteUnchecked(t, push, u), push)
  {}

  lemma NoteUncheckedServer(t: Table, push: set<string>, u: URL, name: string)
    requires ServerOK(t, push, name) && u in t.eps
    ensures ServerOK(NoteUnchecked(t, push, u), push, name)
  {
    LiveSame(t.eps, u, t.eps[u].(unchecked := true), PerServer, name);
    UncheckedWith(t.eps, u, t.eps[u].(unchecked := true), name);
  }

  lemma NoteUncheckedKeeps(t: Table, push: set<string>, u: URL)
    requires CountsOK(t, push) && u in t.eps
    ensures CountsOK(NoteUnchecked(t, push, u), push)
  {
    NoteUncheckedRefs(t, push, u);
    forall name ensures ServerOK(NoteUnchecked(t, push, u), push, name) { NoteUncheckedServer(t, push, u, name); }
    forall name ensures ShareOK(NoteUnchecked(t, push, u), push, name) {
      assert ShareOK(t, push, name);
      LiveSame(t.eps, u, t.eps[u].(unchecked := true), PerShare(push), name);
    }
  }

  // ---- whole operations ----

  lemma DropKeeps(t: Table, push: set<string>, key: Addr, idle: bool)
    requires CountsOK(t, push) && AllUsed(t)
    ensures CountsOK(Drop(t, push, key, idle), push) && AllUsed(Drop(t, push, key, idle))
    ensures key !in Drop(t, push, key, idle).regs && Drop(t, push, key, idle).forgets == t.forgets
  {
    if key in t.regs {
      UnregisterKeeps(t, push, key);
      var u, t1 := t.regs[key].url, Unregister(t, push, key);
      if t1.eps[u].keys == {} { DropEPKeeps(t1, push, u, idle); }
    }
  }

  // an address onto an endpoint, new or not
  function Place(t: Table, push: set<string>, key: Addr, r: Reg): Table {
    Register(if r.url in t.eps then t else NewEP(t, push, r.url), push, key, r)
  }

  lemma PlaceKeeps(t: Table, push: set<string>, key: Addr, r: Reg)
    requires CountsOK(t, push) && AllUsed(t) && key !in t.regs && key !in t.forgets
    ensures CountsOK(Place(t, push, key, r), push) && AllUsed(Place(t, push, key, r))
  {
    if r.url in t.eps {
      RegisterKeeps(t, push, key, r);
    } else {
      NewEPKeeps(t, push, r.url);
      RegisterKeeps(NewEP(t, push, r.url), push, key, r);
    }
  }

  lemma SetKeeps(t: Table, push: set<string>, key: Addr, u: URL, made: int, expires: int, now: int, idle: bool)
    requires CountsOK(t, push) && AllUsed(t) && key !in t.forgets
    ensures CountsOK(Set(t, push, key, u, made, expires, now, idle), push) && AllUsed(Set(t, push, key, u, made, expires, now, idle))
  {
    if IsRenewal(t, key, u) {
      RenewKeeps(t, push, key, t.regs[key].(made := made, expires := expires));
    } else {
      DropKeeps(t, push, key, idle);
      PlaceKeeps(Drop(t, push, key, idle), push, key, Reg(u, made, expires, if key in t.regs then t.regs[key].first else now));
    }
  }

  lemma RenewKeeps(t: Table, push: set<string>, key: Addr, r: Reg)
    requires CountsOK(t, push) && key in t.regs && r.url == t.regs[key].url
    ensures CountsOK(t.(regs := t.regs[key := r]), push)
  {
    var t' := t.(regs := t.regs[key := r]);
    forall name ensures ServerOK(t', push, name) {
      assert ServerOK(t, push, name);
      SameGroup(t.regs, key, r, PerServer, name);
    }
    forall name ensures ShareOK(t', push, name) {
      assert ShareOK(t, push, name);
      SameGroup(t.regs, key, r, PerShare(push), name);
    }
  }

  lemma SameGroup(regs: map<Addr, Reg>, key: Addr, r: Reg, per: Per, name: string)
    requires key in regs && r.url == regs[key].url
    ensures RegsOf(regs[key := r], per, name) == RegsOf(regs, per, name)
  {
  }
}
