/**
 What every operation on the queue keeps: places match flags, totals are the sums over
 the servers, a server with knocks waiting is in its ring exactly once, and no cap on
 what is in flight is passed.
 */
module KnockQueueProof {
  import KnockTable
  import opened KnockQueue

  // ---- sums over the servers ----

  datatype Sum = AllWaiting | SharedWaiting | SharedFlying

  function Part(s: Sum, d: Server): int {
    if |d.lanes| != TIERS then 0
    else
      match s
      case AllWaiting => Waiting(d)
      case SharedWaiting => Waiting(d) * Shared(d)
      case SharedFlying => d.inflight * Shared(d)
  }

  ghost function SumOf(s: Sum, servers: map<string, Server>): int {
    if servers == map[] then 0 else var name :| name in servers; Part(s, servers[name]) + SumOf(s, servers - {name})
  }

  // the sum does not hang on the order
  lemma {:induction false} SumWithout(s: Sum, servers: map<string, Server>, name: string)
    requires name in servers
    ensures SumOf(s, servers) == Part(s, servers[name]) + SumOf(s, servers - {name})
    decreases |servers|
  {
    var first :| first in servers && SumOf(s, servers) == Part(s, servers[first]) + SumOf(s, servers - {first});
    if first != name {
      SumWithout(s, servers - {first}, name);
      SumWithout(s, servers - {name}, first);
      assert servers - {first} - {name} == servers - {name} - {first};
    }
  }

  lemma SumWith(s: Sum, servers: map<string, Server>, name: string, d: Server)
    ensures SumOf(s, servers[name := d]) == SumOf(s, servers) - (if name in servers then Part(s, servers[name]) else 0) + Part(s, d)
  {
    SumWithout(s, servers[name := d], name);
    assert servers[name := d] - {name} == servers - {name};
    if name in servers { SumWithout(s, servers, name); } else { assert servers - {name} == servers; }
  }

  // ---- places and flags ----

  ghost function RealPlaces(d: Server, u: URL): nat
    requires |d.lanes| == TIERS
  {
    multiset(d.lanes[0])[u] + multiset(d.lanes[1])[u] + multiset(d.lanes[2])[u] + multiset(d.lanes[3])[u]
  }

  ghost function RealFlag(eps: map<URL, EP>, name: string, u: URL): nat {
    if u in eps && u.domain == name && eps[u].queuedReal then 1 else 0
  }

  ghost function DecoyFlag(eps: map<URL, EP>, name: string, u: URL): nat {
    if u in eps && u.domain == name && eps[u].queuedDecoy then 1 else 0
  }

  ghost function LiveOn(eps: map<URL, EP>, name: string): set<URL> { set u | u in eps && u.domain == name }

  // an endpoint holds one real place if so flagged and else none, the same for decoys
  ghost predicate PlacesOf(eps: map<URL, EP>, name: string, d: Server) {
    && |d.lanes| == |d.credit| == TIERS
    && (forall u :: RealPlaces(d, u) == RealFlag(eps, name, u))
    && (forall u :: multiset(d.decoys)[u] == DecoyFlag(eps, name, u))
    && d.eps == |LiveOn(eps, name)|
  }

  ghost predicate PlacesOK(eps: map<URL, EP>, servers: map<string, Server>) {
    && (forall name :: name in servers ==> PlacesOf(eps, name, servers[name]))
    && (forall u :: u in eps ==> u.domain in servers)
  }

  // another server's endpoint coming, changing or going is nothing to this one
  lemma PlacesElsewhere(eps: map<URL, EP>, eps': map<URL, EP>, name: string, d: Server)
    requires PlacesOf(eps, name, d)
    requires forall v: URL :: v.domain == name ==> (v in eps' <==> v in eps) && (v in eps ==> eps'[v] == eps[v])
    ensures PlacesOf(eps', name, d)
  {
    assert LiveOn(eps', name) == LiveOn(eps, name);
  }

  lemma PlacesWith(eps: map<URL, EP>, servers: map<string, Server>, u: URL, e: EP, d: Server)
    requires PlacesOK(eps, servers) && PlacesOf(eps[u := e], u.domain, d)
    ensures PlacesOK(eps[u := e], servers[u.domain := d])
  {
    forall name | name in servers && name != u.domain ensures PlacesOf(eps[u := e], name, servers[name]) {
      PlacesElsewhere(eps, eps[u := e], name, servers[name]);
    }
  }

  // ---- rings ----

  predicate NoTwice(s: seq<Ref>) { forall i, j :: 0 <= i < j < |s| ==> s[i] != s[j] }

  ghost predicate RingsOK(q: Queue) {
    && NoTwice(q.pushRing) && NoTwice(q.sharedRing)
    && (forall r :: r in q.pushRing || r in q.sharedRing ==> r.uid < q.nextUid)
    && (forall name :: name in q.servers ==> RingOf(q, name, q.servers[name]))
  }

  // in its ring when it says so, and surely when knocks wait; never in the other
  ghost predicate RingOf(q: Queue, name: string, d: Server) {
    && d.uid < q.nextUid
    && (d.inRing <==> Ref(name, d.uid) in Ring(q, d.push)) && Ref(name, d.uid) !in Ring(q, !d.push)
    && (|d.lanes| == TIERS && Waiting(d) > 0 ==> d.inRing)
  }

  // ---- in flight ----

  ghost predicate BusyOf(q: Queue, name: string, d: Server) { d.inflight == q.flying[name] && d.inflight <= BusyCap(d) }

  ghost predicate BusyOK(q: Queue, push: set<string>) {
    && (forall name :: name in q.servers ==> BusyOf(q, name, q.servers[name]) && (q.servers[name].push <==> name in push))
    && (forall name :: name in q.flying ==> name in q.servers)
    && q.sharedBusy <= SHARED_WORKERS
  }

  ghost predicate TotalsOK(q: Queue) {
    && q.queued == SumOf(AllWaiting, q.servers)
    && q.sharedQueued == SumOf(SharedWaiting, q.servers)
    && q.sharedBusy == SumOf(SharedFlying, q.servers)
  }

  ghost predicate Inv(q: Queue, push: set<string>) {
    PlacesOK(q.eps, q.servers) && RingsOK(q) && BusyOK(q, push) && TotalsOK(q)
  }

  // what waits belongs to live endpoints
  lemma PlacesShaped(eps: map<URL, EP>, name: string, d: Server)
    requires PlacesOf(eps, name, d)
    ensures ShapedOne(eps.Keys, d)
  {
    forall u | u in d.decoys ensures u in eps { assert multiset(d.decoys)[u] > 0; }
    forall t, u | 0 <= t < TIERS && u in d.lanes[t] ensures u in eps {
      assert multiset(d.lanes[t])[u] > 0;
      assert RealPlaces(d, u) > 0;
    }
  }

  lemma InvShaped(q: Queue, push: set<string>)
    requires Inv(q, push)
    ensures Shaped(q)
  {
    forall name | name in q.servers ensures ShapedOne(q.eps.Keys, q.servers[name]) {
      PlacesShaped(q.eps, name, q.servers[name]);
    }
  }

  // ---- a server's record put back in its ring ----

  lemma InRingRings(q: Queue, name: string, d: Server)
    requires NoTwice(q.pushRing) && NoTwice(q.sharedRing) && d.uid < q.nextUid
    requires forall r :: r in q.pushRing || r in q.sharedRing ==> r.uid < q.nextUid
    requires forall m :: m in q.servers && m != name ==> RingOf(q, m, q.servers[m])
    requires (d.inRing <==> Ref(name, d.uid) in Ring(q, d.push)) && Ref(name, d.uid) !in Ring(q, !d.push)
    ensures RingsOK(InRing(q, name, d))
  {
    var q' := InRing(q, name, d);
    forall m | m in q'.servers ensures RingOf(q', m, q'.servers[m]) {
      if m != name { assert RingOf(q, m, q.servers[m]); }
    }
  }

  // everything but the rings
  ghost predicate Core(q: Queue, push: set<string>) { PlacesOK(q.eps, q.servers) && BusyOK(q, push) && TotalsOK(q) }

  // ---- one more waits ----

  predicate SameServer(d: Server, d': Server) { d'.uid == d.uid && d'.push == d.push && d'.inRing == d.inRing && d'.inflight == d.inflight }

  ghost predicate CanPut(q: Queue, u: URL, d: Server, e: EP) {
    && u in q.eps && u.domain in q.servers && SameServer(q.servers[u.domain], d)
    && |d.lanes| == |q.servers[u.domain].lanes| == TIERS && Waiting(d) == Waiting(q.servers[u.domain]) + 1
    && PlacesOf(q.eps[u := e], u.domain, d)
  }

  lemma RingFlagIgnored(eps: map<URL, EP>, name: string, d: Server, b: bool)
    requires PlacesOf(eps, name, d)
    ensures PlacesOf(eps, name, d.(inRing := b))
  {
    forall u ensures RealPlaces(d.(inRing := b), u) == RealPlaces(d, u) {}
  }

  lemma PutSums(q: Queue, u: URL, d: Server, e: EP)
    requires TotalsOK(q) && CanPut(q, u, d, e)
    ensures TotalsOK(Put(q, u, d, e))
  {
    var d' := d.(inRing := true);
    SumWith(AllWaiting, q.servers, u.domain, d');
    SumWith(SharedWaiting, q.servers, u.domain, d');
    SumWith(SharedFlying, q.servers, u.domain, d');
  }

  lemma PutKeeps(q: Queue, push: set<string>, u: URL, d: Server, e: EP)
    requires Inv(q, push) && CanPut(q, u, d, e)
    ensures Inv(Put(q, u, d, e), push)
  {
    RingFlagIgnored(q.eps[u := e], u.domain, d, true);
    PlacesWith(q.eps, q.servers, u, e, d.(inRing := true));
    PutSums(q, u, d, e);
    PutRings(q, u, d, e);
    PutBusy(q, push, u, d, e);
  }

  lemma PutRings(q: Queue, u: URL, d: Server, e: EP)
    requires RingsOK(q) && CanPut(q, u, d, e)
    ensures RingsOK(Put(q, u, d, e))
  {
    var q1 := q.(eps := q.eps[u := e], queued := q.queued + 1, sharedQueued := q.sharedQueued + Shared(d));
    assert RingOf(q, u.domain, q.servers[u.domain]);
    forall m | m in q1.servers && m != u.domain ensures RingOf(q1, m, q1.servers[m]) { SameRings(q, q1, m, q.servers[m]); }
    InRingRings(q1, u.domain, d);
  }

  lemma SameRings(q: Queue, q1: Queue, m: string, d: Server)
    requires RingOf(q, m, d) && q1.pushRing == q.pushRing && q1.sharedRing == q.sharedRing && q1.nextUid == q.nextUid
    ensures RingOf(q1, m, d)
  {
  }

  lemma PutBusy(q: Queue, push: set<string>, u: URL, d: Server, e: EP)
    requires BusyOK(q, push) && CanPut(q, u, d, e)
    ensures BusyOK(Put(q, u, d, e), push)
  {
    var q' := Put(q, u, d, e);
    forall m | m in q'.servers ensures BusyOf(q', m, q'.servers[m]) && (q'.servers[m].push <==> m in push) {
      assert BusyOf(q, m, q.servers[m]);
    }
  }

  // ---- places after one joins a lane, leaves its head, or leaves altogether ----

  lemma JoinLane(eps: map<URL, EP>, name: string, d: Server, u: URL, t: nat)
    requires PlacesOf(eps, name, d) && t < TIERS && u in eps && u.domain == name && !eps[u].queuedReal
    ensures
      var d' := d.(lanes := d.lanes[t := d.lanes[t] + [u]]);
      PlacesOf(eps[u := eps[u].(queuedReal := true)], name, d') && Waiting(d') == Waiting(d) + 1
  {
    var d', eps' := d.(lanes := d.lanes[t := d.lanes[t] + [u]]), eps[u := eps[u].(queuedReal := true)];
    assert LiveOn(eps', name) == LiveOn(eps, name);
    forall v ensures RealPlaces(d', v) == RealFlag(eps', name, v) {
      assert RealPlaces(d, v) == RealFlag(eps, name, v);
      assert multiset(d.lanes[t] + [u])[v] == multiset(d.lanes[t])[v] + (if v == u then 1 else 0);
    }
    forall v ensures multiset(d'.decoys)[v] == DecoyFlag(eps', name, v) { assert multiset(d.decoys)[v] == DecoyFlag(eps, name, v); }
  }

  lemma JoinDecoys(eps: map<URL, EP>, name: string, d: Server, u: URL)
    requires PlacesOf(eps, name, d) && u in eps && u.domain == name && !eps[u].queuedDecoy
    ensures
      var d' := d.(decoys := d.decoys + [u]);
      PlacesOf(eps[u := eps[u].(queuedDecoy := true)], name, d') && Waiting(d') == Waiting(d) + 1
  {
    var d', eps' := d.(decoys := d.decoys + [u]), eps[u := eps[u].(queuedDecoy := true)];
    assert LiveOn(eps', name) == LiveOn(eps, name);
    forall v ensures RealPlaces(d', v) == RealFlag(eps', name, v) { assert RealPlaces(d, v) == RealFlag(eps, name, v); }
    forall v ensures multiset(d'.decoys)[v] == DecoyFlag(eps', name, v) { assert multiset(d.decoys)[v] == DecoyFlag(eps, name, v); }
  }

  lemma JoinRealKeeps(q: Queue, push: set<string>, u: URL, tier: nat)
    requires Inv(q, push) && tier < TIERS && Homed(q, u) && !q.eps[u].queuedReal
    ensures Inv(JoinReal(q, u, tier), push)
  {
    var d := q.servers[u.domain];
    JoinLane(q.eps, u.domain, d, u, tier);
    PutKeeps(q, push, u, d.(lanes := d.lanes[tier := d.lanes[tier] + [u]]), q.eps[u].(queuedReal := true));
  }

  lemma JoinDecoyKeeps(q: Queue, push: set<string>, u: URL)
    requires Inv(q, push) && Homed(q, u) && !q.eps[u].queuedDecoy
    ensures Inv(JoinDecoy(q, u), push)
  {
    var d := q.servers[u.domain];
    JoinDecoys(q.eps, u.domain, d, u);
    PutKeeps(q, push, u, d.(decoys := d.decoys + [u]), q.eps[u].(queuedDecoy := true));
  }

  lemma AddKeeps(q: Queue, push: set<string>, u: URL, uid: nat, decoy: bool, tier: nat)
    requires Inv(q, push) && tier < TIERS && (u in q.eps ==> Homed(q, u))
    ensures Inv(Add(q, u, uid, decoy, tier), push)
  {
    var q' := Add(q, u, uid, decoy, tier);
    if u !in q.eps || q.eps[u].uid != uid || q.eps[u].queuedReal || (decoy && q.eps[u].queuedDecoy) || !HasRoom(q, u, decoy, tier) {
      assert q' == q;
    } else if decoy {
      assert q' == JoinDecoy(q, u);
      JoinDecoyKeeps(q, push, u);
    } else {
      assert q' == JoinReal(q, u, tier);
      JoinRealKeeps(q, push, u, tier);
    }
  }

  lemma HeadCount(s: seq<URL>, v: URL)
    requires s != []
    ensures multiset(s[1..])[v] == multiset(s)[v] - (if v == s[0] then 1 else 0)
  {
    assert s == [s[0]] + s[1..];
  }

  lemma LeaveLane(eps: map<URL, EP>, name: string, d: Server, t: nat, credit: seq<int>)
    requires PlacesOf(eps, name, d) && t < TIERS && d.lanes[t] != [] && |credit| == TIERS
    ensures
      var u := d.lanes[t][0];
      var d' := d.(lanes := d.lanes[t := d.lanes[t][1..]], credit := credit);
      && u in eps && u.domain == name && eps[u].queuedReal
      && PlacesOf(eps[u := eps[u].(queuedReal := false)], name, d') && Waiting(d') == Waiting(d) - 1
  {
    var u := d.lanes[t][0];
    var d' := d.(lanes := d.lanes[t := d.lanes[t][1..]], credit := credit);
    assert multiset(d.lanes[t])[u] > 0;
    assert RealPlaces(d, u) == RealFlag(eps, name, u);
    var eps' := eps[u := eps[u].(queuedReal := false)];
    assert LiveOn(eps', name) == LiveOn(eps, name);
    forall v ensures RealPlaces(d', v) == RealFlag(eps', name, v) {
      assert RealPlaces(d, v) == RealFlag(eps, name, v);
      HeadCount(d.lanes[t], v);
    }
    forall v ensures multiset(d'.decoys)[v] == DecoyFlag(eps', name, v) { assert multiset(d.decoys)[v] == DecoyFlag(eps, name, v); }
  }

  lemma LeaveDecoys(eps: map<URL, EP>, name: string, d: Server)
    requires PlacesOf(eps, name, d) && d.decoys != []
    ensures
      var u := d.decoys[0];
      var d' := d.(decoys := d.decoys[1..]);
      && u in eps && u.domain == name && eps[u].queuedDecoy
      && PlacesOf(eps[u := eps[u].(queuedDecoy := false)], name, d') && Waiting(d') == Waiting(d) - 1
  {
    var u := d.decoys[0];
    var d' := d.(decoys := d.decoys[1..]);
    assert multiset(d.decoys)[u] > 0;
    assert multiset(d.decoys)[u] == DecoyFlag(eps, name, u);
    var eps' := eps[u := eps[u].(queuedDecoy := false)];
    assert LiveOn(eps', name) == LiveOn(eps, name);
    forall v ensures RealPlaces(d', v) == RealFlag(eps', name, v) { assert RealPlaces(d, v) == RealFlag(eps, name, v); }
    forall v ensures multiset(d'.decoys)[v] == DecoyFlag(eps', name, v) {
      assert multiset(d.decoys)[v] == DecoyFlag(eps, name, v);
      HeadCount(d.decoys, v);
    }
  }

  // ---- a server's turn ----

  lemma TailOf(s: seq<Ref>, r: Ref)
    requires NoTwice(s) && s != []
    ensures NoTwice(s[1..]) && (r in s[1..] <==> r in s && r != s[0])
  {
    assert s == [s[0]] + s[1..];
  }

  lemma PoppedRings(q: Queue, push: bool)
    requires RingsOK(q) && Ring(q, push) != []
    ensures
      var q1, head := Popped(q, push), Ring(q, push)[0];
      && NoTwice(q1.pushRing) && NoTwice(q1.sharedRing) && (forall r :: r in q1.pushRing || r in q1.sharedRing ==> r.uid < q1.nextUid)
      && (forall m :: m in q.servers && Ref(m, q.servers[m].uid) != head ==> RingOf(q1, m, q.servers[m]))
      && head !in Ring(q1, push)
  {
    var q1, head := Popped(q, push), Ring(q, push)[0];
    forall r ensures r in Ring(q1, push) <==> r in Ring(q, push) && r != head { TailOf(Ring(q, push), r); }
    forall m | m in q.servers && Ref(m, q.servers[m].uid) != head ensures RingOf(q1, m, q.servers[m]) {
      assert RingOf(q, m, q.servers[m]);
    }
  }

  // the rings and the flag that says so are no part of the rest
  lemma FlagPlaces(eps: map<URL, EP>, servers: map<string, Server>, name: string, b: bool)
    requires PlacesOK(eps, servers) && name in servers
    ensures PlacesOK(eps, servers[name := servers[name].(inRing := b)])
  {
    RingFlagIgnored(eps, name, servers[name], b);
  }

  lemma FlagSums(servers: map<string, Server>, name: string, b: bool, s: Sum)
    requires name in servers
    ensures SumOf(s, servers[name := servers[name].(inRing := b)]) == SumOf(s, servers)
  {
    SumWith(s, servers, name, servers[name].(inRing := b));
  }

  lemma FlagBusy(q: Queue, push: set<string>, name: string, b: bool, pushRing: seq<Ref>, sharedRing: seq<Ref>)
    requires BusyOK(q, push) && name in q.servers
    ensures BusyOK(q.(servers := q.servers[name := q.servers[name].(inRing := b)], pushRing := pushRing, sharedRing := sharedRing), push)
  {
    var q' := q.(servers := q.servers[name := q.servers[name].(inRing := b)], pushRing := pushRing, sharedRing := sharedRing);
    forall m | m in q'.servers ensures BusyOf(q', m, q'.servers[m]) && (q'.servers[m].push <==> m in push) {
      assert BusyOf(q, m, q.servers[m]);
    }
  }

  lemma CoreFlag(q: Queue, push: set<string>, name: string, b: bool, pushRing: seq<Ref>, sharedRing: seq<Ref>)
    requires Core(q, push) && name in q.servers
    ensures Core(q.(servers := q.servers[name := q.servers[name].(inRing := b)], pushRing := pushRing, sharedRing := sharedRing), push)
  {
    FlagPlaces(q.eps, q.servers, name, b);
    FlagSums(q.servers, name, b, AllWaiting);
    FlagSums(q.servers, name, b, SharedWaiting);
    FlagSums(q.servers, name, b, SharedFlying);
    FlagBusy(q, push, name, b, pushRing, sharedRing);
  }

  // out of both rings, and only this one
  ghost predicate OutOfRing(q: Queue, name: string) {
    && name in q.servers && !q.servers[name].inRing && q.servers[name].uid < q.nextUid
    && NoTwice(q.pushRing) && NoTwice(q.sharedRing) && (forall r :: r in q.pushRing || r in q.sharedRing ==> r.uid < q.nextUid)
    && (forall m :: m in q.servers && m != name ==> RingOf(q, m, q.servers[m]))
    && Ref(name, q.servers[name].uid) !in q.pushRing && Ref(name, q.servers[name].uid) !in q.sharedRing
  }

  lemma CalledIsOut(q: Queue, push: bool)
    requires RingsOK(q) && HeadLive(q, push)
    ensures OutOfRing(Called(q, push), Ring(q, push)[0].name)
    ensures q.servers[Ring(q, push)[0].name].push == push
  {
    PoppedRings(q, push);
    var q1, q2, name := Popped(q, push), Called(q, push), Ring(q, push)[0].name;
    assert RingOf(q, name, q.servers[name]);
    forall m | m in q2.servers && m != name ensures RingOf(q2, m, q2.servers[m]) { assert RingOf(q1, m, q.servers[m]); }
  }

  lemma CalledCore(q: Queue, qs: set<string>, push: bool)
    requires Core(q, qs) && HeadLive(q, push)
    ensures Core(Called(q, push), qs)
  {
    var q1 := Popped(q, push);
    CoreFlag(q, qs, Ring(q, push)[0].name, false, q1.pushRing, q1.sharedRing);
  }

  lemma StaleKeeps(q: Queue, qs: set<string>, push: bool)
    requires Inv(q, qs) && Ring(q, push) != [] && !HeadLive(q, push)
    ensures Inv(Popped(q, push), qs)
  {
    PoppedRings(q, push);
    var q1 := Popped(q, push);
    forall m | m in q1.servers ensures BusyOf(q1, m, q1.servers[m]) && (q1.servers[m].push <==> m in qs) { assert BusyOf(q, m, q.servers[m]); }
  }

  // back to the end of its ring
  lemma BackInRing(q: Queue, qs: set<string>, name: string)
    requires Core(q, qs) && OutOfRing(q, name)
    ensures Inv(InRing(q, name, q.servers[name]), qs)
  {
    var q' := InRing(q, name, q.servers[name]);
    InRingRings(q, name, q.servers[name]);
    CoreFlag(q, qs, name, true, q'.pushRing, q'.sharedRing);
    assert q' == q.(servers := q.servers[name := q.servers[name].(inRing := true)], pushRing := q'.pushRing, sharedRing := q'.sharedRing);
  }

  lemma NothingWaits(q: Queue, qs: set<string>, name: string)
    requires Core(q, qs) && OutOfRing(q, name) && |q.servers[name].lanes| == TIERS && Waiting(q.servers[name]) == 0
    ensures Inv(q, qs)
  {}

  // ---- a knock goes out ----

  ghost predicate CanGo(q: Queue, name: string, d: Server, u: URL, e: EP) {
    && name in q.servers && u in q.eps && u.domain == name && SameServer(q.servers[name], d)
    && |d.lanes| == |q.servers[name].lanes| == TIERS && Waiting(d) == Waiting(q.servers[name]) - 1
    && PlacesOf(q.eps[u := e], name, d) && !Busy(q, d)
  }

  // the record and the totals, whatever ring the server ends up in
  function Gone(q: Queue, name: string, d: Server, u: URL, e: EP): Queue {
    q.(eps := q.eps[u := e], servers := q.servers[name := d.(inflight := d.inflight + 1)],
       queued := q.queued - 1, sharedQueued := q.sharedQueued - Shared(d), sharedBusy := q.sharedBusy + Shared(d), flying := q.flying + multiset{name})
  }

  lemma GoneSums(q: Queue, name: string, d: Server, u: URL, e: EP)
    requires TotalsOK(q) && CanGo(q, name, d, u, e)
    ensures TotalsOK(Gone(q, name, d, u, e))
  {
    var d' := d.(inflight := d.inflight + 1);
    SumWith(AllWaiting, q.servers, name, d');
    SumWith(SharedWaiting, q.servers, name, d');
    SumWith(SharedFlying, q.servers, name, d');
  }

  lemma GoneBusy(q: Queue, qs: set<string>, name: string, d: Server, u: URL, e: EP)
    requires BusyOK(q, qs) && CanGo(q, name, d, u, e)
    ensures BusyOK(Gone(q, name, d, u, e), qs)
  {
    var q' := Gone(q, name, d, u, e);
    forall m | m in q'.servers ensures BusyOf(q', m, q'.servers[m]) && (q'.servers[m].push <==> m in qs) {
      assert BusyOf(q, m, q.servers[m]);
    }
  }

  lemma GonePlaces(q: Queue, name: string, d: Server, u: URL, e: EP)
    requires PlacesOK(q.eps, q.servers) && CanGo(q, name, d, u, e)
    ensures PlacesOK(Gone(q, name, d, u, e).eps, Gone(q, name, d, u, e).servers)
  {
    var d' := d.(inflight := d.inflight + 1);
    InflightIgnored(q.eps[u := e], name, d, d'.inflight);
    PlacesWith(q.eps, q.servers, u, e, d');
  }

  lemma InflightIgnored(eps: map<URL, EP>, name: string, d: Server, n: int)
    requires PlacesOf(eps, name, d)
    ensures PlacesOf(eps, name, d.(inflight := n))
  {
    forall v ensures RealPlaces(d.(inflight := n), v) == RealPlaces(d, v) {}
  }

  lemma GoneCore(q: Queue, qs: set<string>, name: string, d: Server, u: URL, e: EP)
    requires Core(q, qs) && CanGo(q, name, d, u, e)
    ensures Core(Gone(q, name, d, u, e), qs)
  {
    GonePlaces(q, name, d, u, e);
    GoneSums(q, name, d, u, e);
    GoneBusy(q, qs, name, d, u, e);
  }

  lemma GoneOutOfRing(q: Queue, name: string, d: Server, u: URL, e: EP)
    requires OutOfRing(q, name) && CanGo(q, name, d, u, e)
    ensures OutOfRing(Gone(q, name, d, u, e), name)
  {
    var q' := Gone(q, name, d, u, e);
    forall m | m in q'.servers && m != name ensures RingOf(q', m, q'.servers[m]) { assert RingOf(q, m, q.servers[m]); }
  }

  lemma OutIs(q: Queue, name: string, d: Server, u: URL, e: EP)
    requires |d.lanes| == TIERS && !d.inRing
    ensures
      var q1 := Gone(q, name, d, u, e);
      Out(q, name, d, u, e) == if Waiting(q1.servers[name]) > 0 then InRing(q1, name, q1.servers[name]) else q1
  {
    var d' := d.(inflight := d.inflight + 1);
    assert q.servers[name := d'.(inRing := true)] == q.servers[name := d'][name := d'.(inRing := true)];
  }

  lemma OutKeeps(q: Queue, qs: set<string>, name: string, d: Server, u: URL, e: EP)
    requires Core(q, qs) && OutOfRing(q, name) && CanGo(q, name, d, u, e)
    ensures Inv(Out(q, name, d, u, e), qs)
  {
    GoneCore(q, qs, name, d, u, e);
    GoneOutOfRing(q, name, d, u, e);
    OutIs(q, name, d, u, e);
    var q1 := Gone(q, name, d, u, e);
    if Waiting(q1.servers[name]) > 0 { BackInRing(q1, qs, name); } else { NothingWaits(q1, qs, name); }
  }
}
