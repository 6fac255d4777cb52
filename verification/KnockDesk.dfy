/**
 The knock table as the relay keeps it: maps and counters changed in place under one
 lock. Each method is one stretch under it.
 */
module KnockDesk {
  import opened KnockTable
  import opened KnockTableProof
  import opened KnockRun
  import KnockForget

  const CHUNK := 1000

  datatype Answer = Taken | Refused | LookUp

  // left is was without the expired among done
  ghost predicate Swept(was: map<Addr, Reg>, left: map<Addr, Reg>, now: int, done: seq<Addr>) {
    && (forall k :: k in left ==> k in was && left[k] == was[k])
    && (forall k :: k in was ==> (k !in left <==> k in done && was[k].expires <= now))
  }

  lemma SweptStep(was: map<Addr, Reg>, left: map<Addr, Reg>, now: int, order: seq<Addr>, i: nat)
    requires i < |order| && Swept(was, left, now, order[..i])
    ensures
      var key := order[i];
      Swept(was, if key in left && left[key].expires <= now then left - {key} else left, now, order[..i + 1])
  {
    assert order[..i + 1] == order[..i] + [order[i]];
  }

  class Knocker {
    const push: set<string>
    const caps: Caps
    var regs: map<Addr, Reg>
    var forgets: map<Addr, int>
    var eps: map<URL, EP>
    var servers: map<string, Server>
    var shares: map<string, Share>
    var nextUid: nat

    function View(): Table reads this { Table(regs, forgets, eps, servers, shares, nextUid, caps) }

    ghost predicate Ok() reads this { Valid(View(), push) }

    constructor (push: set<string>, caps: Caps)
      requires "" !in push && caps.Fit()
      ensures Ok() && View() == Empty(caps) && this.push == push
    {
      this.push, this.caps := push, caps;
      regs, forgets, eps, servers, shares, nextUid := map[], map[], map[], map[], map[], 0;
      new;
      EmptyValid(push, caps);
    }

    // an endpoint delivered, or is a day old
    method Settled(u: URL)
      requires Ok() && u in eps
      modifies this
      ensures Ok() && View() == Settle(old(View()), push, u)
      ensures u !in ShareOf(View(), ShareName(push, u.domain)).pending && regs == old(regs) && forgets == old(forgets)
    {
      SettleValid(View(), push, u);
      SettleNow(u);
    }

    method SettleNow(u: URL)
      requires u in eps
      modifies this
      ensures View() == Settle(old(View()), push, u)
    {
      var name := ShareName(push, u.domain);
      var sh := ShareOf(View(), name);
      if u !in sh.pending { return; }
      shares := shares[name := sh.(pending := sh.pending - {u})];
      var d := ServerOf(View(), u.domain);
      d := d.(pending := d.pending - 1);
      if eps[u].unchecked { d := d.(unchecked := d.unchecked - 1); }
      servers := servers[u.domain := d];
      eps := eps[u := eps[u].(unchecked := false)];
    }

    method DropEndpoint(u: URL, idle: bool)
      requires u in eps
      modifies this
      ensures View() == DropEP(old(View()), push, u, idle)
    {
      SettleNow(u);
      eps := eps - {u};
      var name := ShareName(push, u.domain);
      var sh := ShareOf(View(), name);
      shares := shares[name := sh.(eps := sh.eps - 1)];
      var d := ServerOf(View(), u.domain);
      d := d.(eps := d.eps - 1);
      if d.eps <= 0 && idle { servers := servers - {u.domain}; } else { servers := servers[u.domain := d]; }
    }

    method DropKey(key: Addr, idle: bool)
      requires key in regs ==> regs[key].url in eps
      modifies this
      ensures View() == KnockTable.Drop(old(View()), push, key, idle)
    {
      if key !in regs { return; }
      var u := regs[key].url;
      regs := regs - {key};
      eps := eps[u := eps[u].(keys := eps[u].keys - {key})];
      var d := ServerOf(View(), u.domain);
      servers := servers[u.domain := d.(regs := d.regs - 1)];
      var name := ShareName(push, u.domain);
      var sh := ShareOf(View(), name);
      shares := shares[name := sh.(regs := sh.regs - 1)];
      assert View() == Unregister(old(View()), push, key);
      if eps[u].keys == {} { DropEndpoint(u, idle); }
    }

    method SetKey(key: Addr, u: URL, made: int, expires: int, now: int, idle: bool)
      requires key in regs ==> regs[key].url in eps
      modifies this
      ensures View() == Set(old(View()), push, key, u, made, expires, now, idle)
    {
      var first := now;
      if key in regs {
        if regs[key].url == u {
          regs := regs[key := regs[key].(made := made, expires := expires)];
          return;
        }
        first := regs[key].first;
        DropKey(key, idle);
      }
      if u !in eps { AddEndpoint(u); }
      AddKey(key, Reg(u, made, expires, first));
    }

    method AddEndpoint(u: URL)
      modifies this
      ensures View() == NewEP(old(View()), push, u)
    {
      eps := eps[u := EP(nextUid, {}, false)];
      nextUid := nextUid + 1;
      var d := ServerOf(View(), u.domain);
      servers := servers[u.domain := d.(eps := d.eps + 1, pending := d.pending + 1)];
      var name := ShareName(push, u.domain);
      var sh := ShareOf(View(), name);
      shares := shares[name := sh.(eps := sh.eps + 1, pending := sh.pending + {u})];
    }

    method AddKey(key: Addr, r: Reg)
      requires r.url in eps
      modifies this
      ensures View() == Register(old(View()), push, key, r)
    {
      var u := r.url;
      eps := eps[u := eps[u].(keys := eps[u].keys + {key})];
      var d := ServerOf(View(), u.domain);
      servers := servers[u.domain := d.(regs := d.regs + 1)];
      var name := ShareName(push, u.domain);
      var sh := ShareOf(View(), name);
      shares := shares[name := sh.(regs := sh.regs + 1)];
      regs := regs[key := r];
    }

    method NoteName(u: URL)
      requires u in eps
      modifies this
      ensures View() == NoteUnchecked(old(View()), push, u)
    {
      if u in ShareOf(View(), ShareName(push, u.domain)).pending && !eps[u].unchecked {
        eps := eps[u := eps[u].(unchecked := true)];
        var d := ServerOf(View(), u.domain);
        servers := servers[u.domain := d.(unchecked := d.unchecked + 1)];
      }
    }

    // a registration up to where its name is looked up: nothing of the table changes
    // unless no lookup is needed. budget is what the connection and the hour allow
    method TakeBegin(key: Addr, u: URL, made: int, now: int, onion: bool, budget: bool, idle: bool) returns (a: Answer)
      requires Ok()
      modifies this
      ensures Ok()
      ensures a.Taken? ==> View() == Next(old(View()), push, Take(key, u, made, now, false, idle)) && Registered(key, u, made)
      ensures !a.Taken? ==> View() == old(View())
      ensures a.Taken? <==>
              old(Admits(View(), push, key, u, made, now) && (IsRenewal(View(), key, u) || budget) && (u.domain in push || u in eps || onion))
      ensures a.LookUp? <==> old(Admits(View(), push, key, u, made, now) && u !in eps) && budget && u.domain !in push && !onion
    {
      if !Admits(View(), push, key, u, made, now) { return Refused; }
      if !IsRenewal(View(), key, u) && !budget { return Refused; }
      if u.domain !in push && u !in eps && !onion { return LookUp; }
      TakeNowInto(key, u, made, now, false, idle);
      return Taken;
    }

    // after the lookup, with everything checked again
    method TakeEnd(key: Addr, u: URL, made: int, now: int, found: bool, looked: bool, idle: bool) returns (a: Answer)
      requires Ok() && u.domain !in push
      modifies this
      ensures Ok()
      ensures a == if found && old(Takes(View(), push, Take(key, u, made, now, !looked, idle))) then Taken else Refused
      ensures View() == if a.Taken? then Next(old(View()), push, Take(key, u, made, now, !looked, idle)) else old(View())
    {
      if !found || !Admits(View(), push, key, u, made, now) { return Refused; }
      if !looked && u.domain in servers && servers[u.domain].unchecked >= UNCHECKED_EPS { return Refused; }
      TakeNowInto(key, u, made, now, !looked, idle);
      return Taken;
    }

    predicate Registered(key: Addr, u: URL, made: int) reads this { key in regs && regs[key].url == u && regs[key].made == made }

    method TakeNowInto(key: Addr, u: URL, made: int, now: int, unchecked: bool, idle: bool)
      requires Ok() && Takes(View(), push, Take(key, u, made, now, unchecked, idle))
      modifies this
      ensures Ok() && View() == Next(old(View()), push, Take(key, u, made, now, unchecked, idle)) && Registered(key, u, made)
    {
      ghost var s := Take(key, u, made, now, unchecked, idle);
      NextValid(View(), push, s);
      KnockForget.TakeRegs(View(), push, s);
      Put(key, u, made, now, unchecked, idle);
    }

    method Put(key: Addr, u: URL, made: int, now: int, unchecked: bool, idle: bool)
      requires key in regs ==> regs[key].url in eps
      modifies this
      ensures View() == TakeNow(old(View()), push, Take(key, u, made, now, unchecked, idle))
    {
      forgets := forgets - {key};
      SetKey(key, u, made, made + TTL, now, idle);
      if unchecked && u.domain !in push && u in eps { NoteName(u); }
    }

    // a forget once it is on disk
    method ForgetEnd(key: Addr, made: int, idle: bool) returns (taken: bool)
      requires Ok()
      modifies this
      ensures Ok() && taken == !old(Overtaken(View(), key, made))
      ensures View() == Next(old(View()), push, Forget(key, made, idle))
    {
      NextValid(View(), push, Forget(key, made, idle));
      if Overtaken(View(), key, made) { return false; }
      DropKey(key, idle);
      forgets := forgets[key := made];
      return true;
    }

    // a push server disowned the endpoint: its addresses are dropped one by one
    method Gone(u: URL, idle: bool)
      requires Ok()
      modifies this
      ensures Ok() && u !in eps && forgets == old(forgets)
      ensures forall k :: k in regs <==> k in old(regs) && old(regs)[k].url != u
      ensures forall k :: k in regs ==> regs[k] == old(regs)[k]
    {
      if u !in eps { return; }
      var keys := eps[u].keys;
      while keys != {}
        invariant Ok() && forgets == old(forgets)
        invariant if u in eps then keys == eps[u].keys else keys == {}
        invariant forall k :: k in old(regs) && old(regs)[k].url != u ==> k in regs
        invariant forall k :: k in regs ==> k in old(regs) && regs[k] == old(regs)[k]
        decreases |keys|
      {
        var key :| key in keys;
        keys := keys - {key};
        DropOne(key, u, idle);
      }
    }

    method DropOne(key: Addr, u: URL, idle: bool)
      requires Ok() && key in regs && regs[key].url == u
      modifies this
      ensures Ok() && regs == old(regs) - {key} && forgets == old(forgets)
      ensures u in eps ==> eps[u].keys == old(eps)[u].keys - {key}
      ensures u !in eps <==> old(eps)[u].keys == {key}
    {
      DropValid(View(), push, key, idle);
      DropKey(key, idle);
    }

    // one chunk of the sweep: so many expired registrations and forgets go. order is
    // every address of the two maps, as walking them gives it
    method Sweep(now: int, order: seq<Addr>, idle: bool) returns (n: nat)
      requires Ok() && (forall k :: k in regs || k in forgets ==> k in order)
      modifies this
      ensures Ok() && n <= CHUNK
      ensures forall k :: k in regs ==> k in old(regs) && regs[k] == old(regs)[k]
      ensures forall k :: k in old(regs) && old(regs)[k].expires > now ==> k in regs
      ensures forall k :: k in forgets ==> k in old(forgets) && forgets[k] == old(forgets)[k]
      ensures forall k :: k in old(forgets) && old(forgets)[k] + SKEW > now ==> k in forgets
      ensures n < CHUNK ==> forall k :: k in regs ==> regs[k].expires > now
      ensures n < CHUNK ==> forall k :: k in forgets ==> forgets[k] + SKEW > now
    {
      n := SweepRegs(now, order, idle);
      assert order[..|order|] == order;
      n := SweepForgets(now, order, n);
    }

    method SweepRegs(now: int, order: seq<Addr>, idle: bool) returns (n: nat)
      requires Ok() && (forall k :: k in regs ==> k in order)
      modifies this
      ensures Ok() && n <= CHUNK && forgets == old(forgets)
      ensures exists i :: 0 <= i <= |order| && Swept(old(regs), regs, now, order[..i]) && (n < CHUNK ==> i == |order|)
    {
      n := 0;
      var i := 0;
      assert Swept(regs, regs, now, order[..0]);
      while i < |order| && n < CHUNK
        invariant 0 <= i <= |order| && n <= CHUNK && Ok() && forgets == old(forgets)
        invariant Swept(old(regs), regs, now, order[..i])
      {
        SweptStep(old(regs), regs, now, order, i);
        var dropped := SweepReg(order[i], now, idle);
        if dropped { n := n + 1; }
        i := i + 1;
      }
    }

    method SweepReg(key: Addr, now: int, idle: bool) returns (dropped: bool)
      requires Ok()
      modifies this
      ensures Ok() && forgets == old(forgets)
      ensures dropped <==> key in old(regs) && old(regs)[key].expires <= now
      ensures regs == if dropped then old(regs) - {key} else old(regs)
    {
      dropped := key in regs && regs[key].expires <= now;
      if dropped { DropOne(key, regs[key].url, idle); }
    }

    method SweepForgets(now: int, order: seq<Addr>, from: nat) returns (n: nat)
      requires Ok() && from <= CHUNK && (forall k :: k in forgets ==> k in order)
      modifies this`forgets
      ensures Ok() && from <= n <= CHUNK
      ensures forall k :: k in forgets ==> k in old(forgets) && forgets[k] == old(forgets)[k]
      ensures forall k :: k in old(forgets) && old(forgets)[k] + SKEW > now ==> k in forgets
      ensures n < CHUNK ==> forall k :: k in forgets ==> forgets[k] + SKEW > now
    {
      n := from;
      var i := 0;
      while i < |order| && n < CHUNK
        invariant 0 <= i <= |order| && from <= n <= CHUNK && Ok()
        invariant forall k :: k in forgets ==> k in old(forgets) && forgets[k] == old(forgets)[k]
        invariant forall k :: k in old(forgets) && old(forgets)[k] + SKEW > now ==> k in forgets
        invariant forall k :: k in forgets && k in order[..i] ==> forgets[k] + SKEW > now
      {
        if order[i] in forgets && forgets[order[i]] + SKEW <= now {
          ForgetsKeep(View(), push, forgets - {order[i]});
          forgets := forgets - {order[i]};
          n := n + 1;
        }
        assert order[..i + 1] == order[..i] + [order[i]];
        i := i + 1;
      }
      assert n < CHUNK ==> order[..i] == order;
    }
  }
}
