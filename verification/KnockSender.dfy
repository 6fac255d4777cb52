/**
 The queue as the relay keeps it: lanes, rings and counters changed in place under the
 knocker's lock.
 */
module KnockSender {
  import KnockTable
  import opened KnockQueue
  import opened KnockQueueProof
  import opened KnockQueueRun

  // ---- the loops ----

  // the first place of u taken out, and whether there was one
  method TakeOut(s: seq<URL>, u: URL) returns (r: seq<URL>, gone: bool)
    ensures r == Without(s, u) && gone == (u in s)
  {
    var i := 0;
    while i < |s|
      invariant 0 <= i <= |s| && u !in s[..i]
      invariant Without(s, u) == s[..i] + Without(s[i..], u)
    {
      assert s[i..][1..] == s[i + 1..];
      if s[i] == u { return s[..i] + s[i + 1..], true; }
      assert s[..i + 1] == s[..i] + [s[i]];
      i := i + 1;
    }
    assert s[..i] == s;
    return s, false;
  }

  // Best looks no further than its bound
  lemma {:induction false} BestLocal(d: Server, d': Server, n: nat)
    requires |d.lanes| == |d.credit| == |d'.credit| == TIERS && d'.lanes == d.lanes && n <= TIERS
    requires forall i :: 0 <= i < n ==> d'.credit[i] == d.credit[i]
    ensures Best(d', n) == Best(d, n)
  {
    if n > 0 { BestLocal(d, d', n - 1); }
  }

  // the best lane once one more was given its turns
  lemma BestOneMore(d: Server, t: nat)
    requires |d.lanes| == |d.credit| == TIERS && t < TIERS
    ensures
      var was, g := Given(d, t), Given(d, t + 1);
      var b := Best(was, t);
      && g == Give(was, t) && Best(g, t) == b
      && Best(g, t + 1) == if d.lanes[t] != [] && (b < 0 || g.credit[t] > g.credit[b]) then t else b
  {
    var was, g := Given(d, t), Given(d, t + 1);
    BestLocal(was, g, t);
  }

  // what the first n lanes make of the turns given, the best of them and the sum
  ghost predicate Considered(d: Server, n: nat, best: int, credit: seq<int>, total: nat)
    requires |d.lanes| == |d.credit| == TIERS && n <= TIERS
  {
    credit == Given(d, n).credit && best == Best(Given(d, n), n) && total == Total(d, n)
  }

  method Consider(d: Server, t: nat, best: int, credit: seq<int>, total: nat) returns (best': int, credit': seq<int>, total': nat)
    requires |d.lanes| == |d.credit| == TIERS && t < TIERS && Considered(d, t, best, credit, total)
    ensures Considered(d, t + 1, best', credit', total')
  {
    BestOneMore(d, t);
    best', credit', total' := best, credit, total;
    if d.lanes[t] != [] {
      credit' := credit[t := credit[t] + Weight(t)];
      total' := total + Weight(t);
      if best < 0 || credit'[t] > credit'[best] { best' := t; }
    }
  }

  // one pass over the lanes: turns given, summed up and compared as it goes
  method PickLane(d: Server) returns (best: int, credit: seq<int>)
    requires |d.lanes| == |d.credit| == TIERS
    ensures (best, credit) == NextLane(d)
  {
    var total := 0;
    best, credit := -1, d.credit;
    for t := 0 to |d.lanes|
      invariant Considered(d, t, best, credit, total)
    {
      best, credit, total := Consider(d, t, best, credit, total);
    }
    if best >= 0 { credit := credit[best := credit[best] - total]; }
  }

  class Sender {
    const push: set<string>
    var eps: map<URL, EP>
    var servers: map<string, Server>
    var pushRing: seq<Ref>
    var sharedRing: seq<Ref>
    var turn: bool
    var queued: int
    var sharedQueued: int
    var sharedBusy: int
    ghost var flying: multiset<string>
    var nextUid: nat

    ghost function View(): Queue reads this {
      Queue(eps, servers, pushRing, sharedRing, turn, queued, sharedQueued, sharedBusy, flying, nextUid)
    }

    ghost predicate Ok() reads this { Inv(View(), push) && Shaped(View()) }

    constructor (push: set<string>)
      ensures Ok() && View() == EMPTY && this.push == push
    {
      this.push := push;
      eps, servers, pushRing, sharedRing, turn, queued, sharedQueued, sharedBusy, flying, nextUid := map[], map[], [], [], false, 0, 0, 0, multiset{}, 0;
      new;
      EmptyInv(push);
    }

    // a server's record written back, in its ring
    method RingAppend(name: string, d: Server)
      modifies this
      ensures View() == InRing(old(View()), name, d)
    {
      servers := servers[name := d.(inRing := true)];
      if !d.inRing {
        if d.push { pushRing := pushRing + [Ref(name, d.uid)]; } else { sharedRing := sharedRing + [Ref(name, d.uid)]; }
      }
    }

    method AddLocked(u: URL, uid: nat, decoy: bool, tier: nat)
      requires Ok() && tier < TIERS
      modifies this
      ensures Ok() && (u in old(eps) ==> Homed(old(View()), u)) && View() == Add(old(View()), u, uid, decoy, tier)
    {
      if u in eps { InvHomes(View(), push, u); }
      AddKeeps(View(), push, u, uid, decoy, tier);
      InvShaped(Add(View(), u, uid, decoy, tier), push);
      Enqueue(u, uid, decoy, tier);
    }

    method Enqueue(u: URL, uid: nat, decoy: bool, tier: nat)
      requires (u in eps ==> Homed(View(), u)) && tier < TIERS
      modifies this
      ensures View() == Add(old(View()), u, uid, decoy, tier)
    {
      if u !in eps || eps[u].uid != uid { return; }
      var d := servers[u.domain];
      var newer := |d.lanes[0]| + |d.decoys|;
      if decoy {
        if eps[u].queuedDecoy || eps[u].queuedReal { return; }
        if newer >= QueueCap(d) / 2 || (!d.push && sharedQueued >= SHARED_QUEUE / 2) { return; }
        eps := eps[u := eps[u].(queuedDecoy := true)];
        d := d.(decoys := d.decoys + [u]);
      } else {
        if eps[u].queuedReal { return; }
        if tier > 0 && |d.lanes[tier]| >= QueueCap(d) { return; }
        if tier == 0 && (newer >= QueueCap(d) || (!d.push && sharedQueued >= SHARED_QUEUE)) { return; }
        eps := eps[u := eps[u].(queuedReal := true)];
        d := d.(lanes := d.lanes[tier := d.lanes[tier] + [u]]);
      }
      queued := queued + 1;
      if !d.push { sharedQueued := sharedQueued + 1; }
      RingAppend(u.domain, d);
    }

    // the record back, or out of the table when nothing is left of it
    method PutBack(name: string, d: Server)
      requires |d.lanes| == TIERS
      modifies this
      ensures View() == Replace(old(View()), name, d)
    {
      if d.eps <= 0 && Waiting(d) == 0 && d.inflight == 0 { servers := servers - {name}; } else { servers := servers[name := d]; }
    }

    method DropEndpoint(u: URL)
      requires Ok() && u in eps
      modifies this
      ensures Ok() && Homed(old(View()), u) && View() == LetGo(old(View()), u)
    {
      InvHomes(View(), push, u);
      LetGoKeeps(View(), push, u);
      InvShaped(LetGo(View(), u), push);
      Forget(u);
    }

    method Forget(u: URL)
      requires Homed(View(), u)
      modifies this
      ensures View() == LetGo(old(View()), u)
    {
      var d := servers[u.domain];
      var d', n := Leaving(d.(eps := d.eps - 1), u);
      eps := eps - {u};
      queued := queued - n;
      if !d.push { sharedQueued := sharedQueued - n; }
      PutBack(u.domain, d');
    }

    // its lanes without u, and how many places that frees
    static method Leaving(d: Server, u: URL) returns (d': Server, n: nat)
      requires |d.lanes| == TIERS
      ensures d' == Leave(d, u) && n == Waiting(d) - Waiting(d')
    {
      n := 0;
      var lanes := [];
      for t := 0 to TIERS
        invariant |lanes| == t && forall i :: 0 <= i < t ==> lanes[i] == Without(d.lanes[i], u)
        invariant n == Freed(d, u, t)
      {
        var lane, gone := TakeOut(d.lanes[t], u);
        WithoutIs(d.lanes[t], u);
        lanes := lanes + [lane];
        if gone { n := n + 1; }
      }
      var decoys, gone := TakeOut(d.decoys, u);
      WithoutIs(d.decoys, u);
      if gone { n := n + 1; }
      d' := d.(lanes := lanes, decoys := decoys);
      assert lanes == Leave(d, u).lanes;
      FreedAll(d, u);
    }

    method DoneLocked(name: string)
      requires Ok() && name in flying
      modifies this
      ensures Ok() && View() == Over(old(View()), name)
    {
      FlyingHasServer(View(), push, name);
      OverKeeps(View(), push, name);
      InvShaped(Over(View(), name), push);
      End(name);
    }

    method End(name: string)
      requires name in servers && |servers[name].lanes| == TIERS
      modifies this
      ensures View() == Over(old(View()), name)
    {
      var d := servers[name];
      if !d.push { sharedBusy := sharedBusy - 1; }
      flying := flying - multiset{name};
      assert View() == old(View()).(sharedBusy := old(sharedBusy) - Shared(d), flying := old(flying) - multiset{name});
      PutBack(name, d.(inflight := d.inflight - 1));
    }

    // ---- the next knock ----

    method Pop(onPush: bool) returns (ref: Ref)
      requires Ring(View(), onPush) != []
      modifies this
      ensures ref == Ring(old(View()), onPush)[0] && View() == Popped(old(View()), onPush)
    {
      if onPush { ref, pushRing := pushRing[0], pushRing[1..]; } else { ref, sharedRing := sharedRing[0], sharedRing[1..]; }
    }

    // one place less and one post more
    method CountOut(name: string, d: Server, u: URL, e: EP)
      modifies this
      ensures View() == Counted(old(View()), name, d, u, e)
    {
      eps := eps[u := e];
      queued := queued - 1;
      if !d.push {
        sharedQueued := sharedQueued - 1;
        sharedBusy := sharedBusy + 1;
      }
      flying := flying + multiset{name};
    }

    // a knock goes out, and its server is back in the ring if more wait
    method Send(name: string, d: Server, u: URL, e: EP)
      requires |d.lanes| == TIERS
      modifies this
      ensures View() == Out(old(View()), name, d, u, e)
    {
      CountOut(name, d, u, e);
      var d' := d.(inflight := d.inflight + 1);
      if Waiting(d') > 0 { RingAppend(name, d'); } else { servers := servers[name := d']; }
    }

    // what the first server of a ring may do: wait while its pace or its room is used
    // up, else serve a lane, and decoys only when no lane has anything
    method Decide(onPush: bool, pace: set<string>, decoys: bool) returns (c: Choice)
      requires Shaped(View()) && Ring(View(), onPush) != []
      ensures c == Choose(View(), onPush, pace, decoys)
    {
      var ref := if onPush then pushRing[0] else sharedRing[0];
      if ref.name !in servers || servers[ref.name].uid != ref.uid { return Stale; }
      var d := servers[ref.name];
      assert ShapedOne(eps.Keys, d);
      if Waiting(d) == 0 { return Nothing; }
      if d.inflight >= BusyCap(d) || (!d.push && sharedBusy >= SHARED_WORKERS) { return Later; }
      if ref.name !in pace { return Later; }
      var t, credit := PickLane(d);
      if t >= 0 { return Real(t, credit); }
      if !decoys || d.decoys == [] { return Later; }
      return Decoy;
    }

    method SendRealNow(name: string, t: nat, credit: seq<int>) returns (job: Job)
      requires name in servers && |servers[name].lanes| == TIERS && t < TIERS
      requires servers[name].lanes[t] != [] && servers[name].lanes[t][0] in eps
      modifies this
      ensures (View(), job) == SendReal(old(View()), name, t, credit)
    {
      var d := servers[name];
      var u := d.lanes[t][0];
      job := Job(u, eps[u].uid, false);
      Send(name, d.(lanes := d.lanes[t := d.lanes[t][1..]], credit := credit), u, eps[u].(queuedReal := false));
    }

    method SendDecoyNow(name: string) returns (job: Job)
      requires name in servers && |servers[name].lanes| == TIERS && servers[name].decoys != [] && servers[name].decoys[0] in eps
      modifies this
      ensures (View(), job) == SendDecoy(old(View()), name)
    {
      var d := servers[name];
      var u := d.decoys[0];
      job := Job(u, eps[u].uid, true);
      Send(name, d.(decoys := d.decoys[1..]), u, eps[u].(queuedDecoy := false));
    }

    // one server's turn
    method TakeTurn(onPush: bool, pace: set<string>, decoys: bool) returns (job: Job)
      requires Shaped(View()) && Ring(View(), onPush) != []
      modifies this
      ensures (View(), job) == Turn(old(View()), onPush, pace, decoys)
    {
      var c := Decide(onPush, pace, decoys);
      job := Perform(onPush, pace, c);
    }

    method Perform(onPush: bool, ghost pace: set<string>, c: Choice) returns (job: Job)
      requires Ring(View(), onPush) != [] && Fits(View(), onPush, pace, c)
      modifies this
      ensures (View(), job) == Act(old(View()), onPush, pace, c)
    {
      ghost var q := View();
      var ref := Pop(onPush);
      job := NoJob;
      if c.Stale? { return; }
      servers := servers[ref.name := servers[ref.name].(inRing := false)];
      assert View() == Called(q, onPush);
      match c
      case Nothing =>
      case Later => RingAppend(ref.name, servers[ref.name]);
      case Real(t, credit) => job := SendRealNow(ref.name, t, credit);
      case Decoy => job := SendDecoyNow(ref.name);
    }

    method GoRound(onPush: bool, pace: set<string>, decoys: bool) returns (job: Job)
      requires Shaped(View())
      modifies this
      ensures (View(), job) == FromRing(old(View()), onPush, |Ring(old(View()), onPush)|, pace, decoys) && Shaped(View())
    {
      var n := if onPush then |pushRing| else |sharedRing|;
      job := NoJob;
      while n > 0
        invariant 0 <= n <= |Ring(View(), onPush)| && Shaped(View()) && job.NoJob?
        invariant FromRing(old(View()), onPush, |Ring(old(View()), onPush)|, pace, decoys) == FromRing(View(), onPush, n, pace, decoys)
      {
        TurnShaped(View(), onPush, pace, decoys);
        job := TakeTurn(onPush, pace, decoys);
        if job.Job? { return; }
        n := n - 1;
      }
    }

    method NextLocked(budget: bool, pace: set<string>, decoys: bool) returns (job: Job)
      requires Ok()
      modifies this
      ensures Ok() && (View(), job) == NextJob(old(View()), budget, pace, decoys)
    {
      NextJobKeeps(View(), push, budget, pace, decoys);
      job := ByTurns(budget, pace, decoys);
    }

    method ByTurns(budget: bool, pace: set<string>, decoys: bool) returns (job: Job)
      requires Shaped(View())
      modifies this
      ensures (View(), job) == NextJob(old(View()), budget, pace, decoys) && Shaped(View())
    {
      job := NoJob;
      if !budget { return; }
      turn := !turn;
      assert View() == old(View()).(turn := !old(turn));
      var first := !turn;
      job := GoRound(first, pace, decoys);
      if job.NoJob? { job := GoRound(!first, pace, decoys); }
    }
  }

  ghost function Freed(d: Server, u: URL, t: nat): int
    requires |d.lanes| == TIERS && t <= TIERS
  {
    if t == 0 then 0 else Freed(d, u, t - 1) + |d.lanes[t - 1]| - |Without(d.lanes[t - 1], u)|
  }

  lemma FreedAll(d: Server, u: URL)
    requires |d.lanes| == TIERS
    ensures Freed(d, u, TIERS) + |d.decoys| - |Without(d.decoys, u)| == Waiting(d) - Waiting(Leave(d, u))
  {
    assert Freed(d, u, 1) == |d.lanes[0]| - |Without(d.lanes[0], u)|;
    assert Freed(d, u, 2) == Freed(d, u, 1) + |d.lanes[1]| - |Without(d.lanes[1], u)|;
    assert Freed(d, u, 3) == Freed(d, u, 2) + |d.lanes[2]| - |Without(d.lanes[2], u)|;
    assert Freed(d, u, 4) == Freed(d, u, 3) + |d.lanes[3]| - |Without(d.lanes[3], u)|;
  }
}
