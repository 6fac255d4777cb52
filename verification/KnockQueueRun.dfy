/**
 Taking the next knock, and runs of the whole queue.
 */
module KnockQueueRun {
  import KnockTable
  import opened KnockQueue
  import opened KnockQueueProof

  // ---- one server's turn ----

  lemma SendRealKeeps(q: Queue, qs: set<string>, name: string, t: nat, credit: seq<int>)
    requires Core(q, qs) && OutOfRing(q, name) && t < TIERS && |credit| == TIERS
    requires |q.servers[name].lanes| == TIERS && q.servers[name].lanes[t] != [] && q.servers[name].lanes[t][0] in q.eps
    requires !Busy(q, q.servers[name])
    ensures Inv(SendReal(q, name, t, credit).0, qs)
  {
    var d := q.servers[name];
    LeaveLane(q.eps, name, d, t, credit);
    OutKeeps(q, qs, name, d.(lanes := d.lanes[t := d.lanes[t][1..]], credit := credit), d.lanes[t][0], q.eps[d.lanes[t][0]].(queuedReal := false));
  }

  lemma SendDecoyKeeps(q: Queue, qs: set<string>, name: string)
    requires Core(q, qs) && OutOfRing(q, name)
    requires |q.servers[name].lanes| == TIERS && q.servers[name].decoys != [] && q.servers[name].decoys[0] in q.eps
    requires !Busy(q, q.servers[name])
    ensures Inv(SendDecoy(q, name).0, qs)
  {
    var d := q.servers[name];
    LeaveDecoys(q.eps, name, d);
    OutKeeps(q, qs, name, d.(decoys := d.decoys[1..]), d.decoys[0], q.eps[d.decoys[0]].(queuedDecoy := false));
  }

  lemma TurnBack(q: Queue, qs: set<string>, push: bool)
    requires Inv(q, qs) && HeadLive(q, push)
    ensures
      var name := Ring(q, push)[0].name;
      var q2 := Called(q, push);
      Inv(InRing(q2, name, q2.servers[name]), qs) && (Waiting0(q2.servers[name]) ==> Inv(q2, qs))
  {
    CalledIsOut(q, push);
    CalledCore(q, qs, push);
    var name, q2 := Ring(q, push)[0].name, Called(q, push);
    BackInRing(q2, qs, name);
    if Waiting0(q2.servers[name]) { NothingWaits(q2, qs, name); }
  }

  predicate Waiting0(d: Server) { |d.lanes| == TIERS && Waiting(d) == 0 }

  lemma ActKeeps(q: Queue, qs: set<string>, push: bool, pace: set<string>, c: Choice)
    requires Inv(q, qs) && Ring(q, push) != [] && Fits(q, push, pace, c)
    ensures Inv(Act(q, push, pace, c).0, qs)
  {
    match c
    case Stale => StaleKeeps(q, qs, push);
    case Nothing => TurnBack(q, qs, push);
    case Later => TurnBack(q, qs, push);
    case Real(t, credit) =>
      CalledReady(q, qs, push);
      ActReal(q, qs, push, pace, t, credit);
    case Decoy =>
      CalledReady(q, qs, push);
      ActDecoy(q, qs, push, pace);
  }

  lemma CalledReady(q: Queue, qs: set<string>, push: bool)
    requires Inv(q, qs) && HeadLive(q, push)
    ensures Core(Called(q, push), qs) && OutOfRing(Called(q, push), Ring(q, push)[0].name)
  {
    CalledIsOut(q, push);
    CalledCore(q, qs, push);
  }

  lemma ActReal(q: Queue, qs: set<string>, push: bool, pace: set<string>, t: nat, credit: seq<int>)
    requires Ring(q, push) != [] && Fits(q, push, pace, Real(t, credit))
    requires Core(Called(q, push), qs) && OutOfRing(Called(q, push), Ring(q, push)[0].name)
    ensures Inv(SendReal(Called(q, push), Ring(q, push)[0].name, t, credit).0, qs)
  {
    SendRealKeeps(Called(q, push), qs, Ring(q, push)[0].name, t, credit);
  }

  lemma ActDecoy(q: Queue, qs: set<string>, push: bool, pace: set<string>)
    requires Ring(q, push) != [] && Fits(q, push, pace, Decoy)
    requires Core(Called(q, push), qs) && OutOfRing(Called(q, push), Ring(q, push)[0].name)
    ensures Inv(SendDecoy(Called(q, push), Ring(q, push)[0].name).0, qs)
  {
    SendDecoyKeeps(Called(q, push), qs, Ring(q, push)[0].name);
  }

  lemma TurnKeeps(q: Queue, qs: set<string>, push: bool, pace: set<string>, decoys: bool)
    requires Inv(q, qs) && Shaped(q) && Ring(q, push) != []
    ensures Inv(Turn(q, push, pace, decoys).0, qs)
  {
    ActKeeps(q, qs, push, pace, Choose(q, push, pace, decoys));
  }

  // ---- a ring gone round, and the two by turns ----

  lemma OutOneServer(q: Queue, name: string, d: Server, u: URL, e: EP, push: bool, m: string)
    requires |d.lanes| == TIERS && name in q.servers && u in q.eps
    ensures
      var q' := Out(q, name, d, u, e);
      && q'.eps.Keys == q.eps.Keys && (m in q'.servers <==> m in q.servers) && |Ring(q', push)| >= |Ring(q, push)|
      && (m in q.servers && m != name ==> q'.servers[m] == q.servers[m])
  {}

  lemma ActOneServer(q: Queue, push: bool, pace: set<string>, c: Choice, m: string)
    requires Ring(q, push) != [] && Fits(q, push, pace, c)
    ensures
      var q', name := Act(q, push, pace, c).0, Ring(q, push)[0].name;
      && q'.eps.Keys == q.eps.Keys && (m in q'.servers <==> m in q.servers) && |Ring(q', push)| >= |Ring(q, push)| - 1
      && (m in q.servers && (m != name || !HeadLive(q, push)) ==> q'.servers[m] == q.servers[m])
  {
    var name := Ring(q, push)[0].name;
    match c
    case Stale =>
    case Nothing =>
    case Later =>
    case Real(t, credit) =>
      var q2 := Called(q, push);
      var d := q2.servers[name];
      var u := d.lanes[t][0];
      OutOneServer(q2, name, d.(lanes := d.lanes[t := d.lanes[t][1..]], credit := credit), u, q2.eps[u].(queuedReal := false), push, m);
    case Decoy =>
      var q2 := Called(q, push);
      var d := q2.servers[name];
      var u := d.decoys[0];
      OutOneServer(q2, name, d.(decoys := d.decoys[1..]), u, q2.eps[u].(queuedDecoy := false), push, m);
  }

  lemma ActHead(q: Queue, push: bool, pace: set<string>, c: Choice)
    requires HeadLive(q, push) && Fits(q, push, pace, c) && ShapedOne(q.eps.Keys, q.servers[Ring(q, push)[0].name])
    ensures
      var q', name := Act(q, push, pace, c).0, Ring(q, push)[0].name;
      name in q'.servers && ShapedOne(q.eps.Keys, q'.servers[name])
  {
    var d := q.servers[Ring(q, push)[0].name].(inRing := false);
    if c.Real? { PopShaped(q.eps.Keys, d, c.lane, c.credit); }
  }

  lemma ActShaped(q: Queue, push: bool, pace: set<string>, c: Choice)
    requires Shaped(q) && Ring(q, push) != [] && Fits(q, push, pace, c)
    ensures Shaped(Act(q, push, pace, c).0)
    ensures |Ring(Act(q, push, pace, c).0, push)| >= |Ring(q, push)| - 1
  {
    var q', name := Act(q, push, pace, c).0, Ring(q, push)[0].name;
    ActOneServer(q, push, pace, c, name);
    forall m | m in q'.servers ensures ShapedOne(q'.eps.Keys, q'.servers[m]) {
      ActOneServer(q, push, pace, c, m);
      assert ShapedOne(q.eps.Keys, q.servers[m]);
      if m == name && HeadLive(q, push) { ActHead(q, push, pace, c); }
    }
  }

  // who has a place never grows by a turn, nor does a ring lose more than its head
  lemma TurnShaped(q: Queue, push: bool, pace: set<string>, decoys: bool)
    requires Shaped(q) && Ring(q, push) != []
    ensures Shaped(Turn(q, push, pace, decoys).0)
    ensures |Ring(Turn(q, push, pace, decoys).0, push)| >= |Ring(q, push)| - 1
  {
    ActShaped(q, push, pace, Choose(q, push, pace, decoys));
  }

  lemma PopShaped(live: set<URL>, d: Server, t: nat, credit: seq<int>)
    requires ShapedOne(live, d) && t < TIERS && d.lanes[t] != [] && |credit| == TIERS
    ensures ShapedOne(live, d.(lanes := d.lanes[t := d.lanes[t][1..]], credit := credit)) && d.lanes[t][0] in live
  {
    var d' := d.(lanes := d.lanes[t := d.lanes[t][1..]], credit := credit);
    forall k, u | 0 <= k < TIERS && u in d'.lanes[k] ensures u in live { assert u in d.lanes[k]; }
  }

  lemma HeadsRing(q: Queue, qs: set<string>, push: bool)
    requires Inv(q, qs) && Ring(q, push) != []
    ensures HeadLive(q, push) ==> q.servers[Ring(q, push)[0].name].push == push
  {
    if HeadLive(q, push) { assert RingOf(q, Ring(q, push)[0].name, q.servers[Ring(q, push)[0].name]); }
  }

  function FromRing(q: Queue, push: bool, n: nat, pace: set<string>, decoys: bool): (r: (Queue, Job))
    requires Shaped(q) && n <= |Ring(q, push)|
    ensures Shaped(r.0)
    decreases n
  {
    if n == 0 then (q, NoJob)
    else
      TurnShaped(q, push, pace, decoys);
      var (q1, job) := Turn(q, push, pace, decoys);
      if job.Job? then (q1, job) else FromRing(q1, push, n - 1, pace, decoys)
  }

  // one ring, and the other if it gave no job
  function BothRings(q: Queue, pace: set<string>, decoys: bool): (Queue, Job)
    requires Shaped(q)
  {
    var (q1, job) := FromRing(q, !q.turn, |Ring(q, !q.turn)|, pace, decoys);
    if job.Job? then (q1, job) else FromRing(q1, q.turn, |Ring(q1, q.turn)|, pace, decoys)
  }

  // the two rings by turns, and nothing without budget
  function NextJob(q: Queue, budget: bool, pace: set<string>, decoys: bool): (Queue, Job)
    requires Shaped(q)
  {
    if !budget then (q, NoJob) else BothRings(q.(turn := !q.turn), pace, decoys)
  }

  // one turn after another
  ghost predicate Turns(states: seq<Queue>, push: bool, pace: set<string>, decoys: bool) {
    forall k :: 0 < k < |states| ==> TurnTo(states[k - 1], states[k], push, pace, decoys)
  }

  ghost predicate TurnTo(q: Queue, q1: Queue, push: bool, pace: set<string>, decoys: bool) {
    Shaped(q) && Ring(q, push) != [] && q1 == Turn(q, push, pace, decoys).0
  }

  lemma {:induction false} FromRingTurns(q: Queue, push: bool, n: nat, pace: set<string>, decoys: bool) returns (states: seq<Queue>)
    requires Shaped(q) && n <= |Ring(q, push)|
    ensures states != [] && states[0] == q && Turns(states, push, pace, decoys)
    ensures states[|states| - 1] == FromRing(q, push, n, pace, decoys).0
    decreases n
  {
    states := [q];
    if n > 0 {
      TurnShaped(q, push, pace, decoys);
      var (q1, job) := Turn(q, push, pace, decoys);
      var rest := [q1];
      if job.NoJob? { rest := FromRingTurns(q1, push, n - 1, pace, decoys); }
      states := [q] + rest;
      assert TurnTo(q, rest[0], push, pace, decoys);
      forall k | 0 < k < |states| ensures TurnTo(states[k - 1], states[k], push, pace, decoys) {
        if k > 1 { assert TurnTo(rest[k - 2], rest[k - 1], push, pace, decoys); }
      }
    }
  }

  lemma TurnToKeeps(q: Queue, q1: Queue, qs: set<string>, push: bool, pace: set<string>, decoys: bool)
    requires Inv(q, qs) && TurnTo(q, q1, push, pace, decoys)
    ensures Inv(q1, qs)
  {
    TurnKeeps(q, qs, push, pace, decoys);
  }

  lemma {:induction false} TurnsKeep(states: seq<Queue>, qs: set<string>, push: bool, pace: set<string>, decoys: bool, k: nat)
    requires Turns(states, push, pace, decoys) && k < |states| && Inv(states[0], qs)
    ensures Inv(states[k], qs)
  {
    if k > 0 {
      TurnsKeep(states, qs, push, pace, decoys, k - 1);
      assert TurnTo(states[k - 1], states[k], push, pace, decoys);
      TurnToKeeps(states[k - 1], states[k], qs, push, pace, decoys);
    }
  }

  lemma FromRingKeeps(q: Queue, qs: set<string>, push: bool, n: nat, pace: set<string>, decoys: bool) returns (q': Queue)
    requires Inv(q, qs) && Shaped(q) && n <= |Ring(q, push)|
    ensures q' == FromRing(q, push, n, pace, decoys).0 && Inv(q', qs)
  {
    var states := FromRingTurns(q, push, n, pace, decoys);
    TurnsKeep(states, qs, push, pace, decoys, |states| - 1);
    q' := states[|states| - 1];
  }

  lemma NextJobKeeps(q: Queue, qs: set<string>, budget: bool, pace: set<string>, decoys: bool)
    requires Inv(q, qs) && Shaped(q)
    ensures Inv(NextJob(q, budget, pace, decoys).0, qs)
  {
    if budget {
      var q0 := q.(turn := !q.turn);
      TurnFlag(q, qs);
      InvShaped(q0, qs);
      var q' := BothRingsKeep(q0, qs, pace, decoys);
    }
  }

  lemma BothRingsKeep(q: Queue, qs: set<string>, pace: set<string>, decoys: bool) returns (q': Queue)
    requires Inv(q, qs) && Shaped(q)
    ensures q' == BothRings(q, pace, decoys).0 && Inv(q', qs)
  {
    q' := FromRingKeeps(q, qs, !q.turn, |Ring(q, !q.turn)|, pace, decoys);
    if !FromRing(q, !q.turn, |Ring(q, !q.turn)|, pace, decoys).1.Job? {
      q' := FromRingKeeps(q', qs, q.turn, |Ring(q', q.turn)|, pace, decoys);
    }
  }

  lemma TurnFlag(q: Queue, qs: set<string>)
    requires Inv(q, qs)
    ensures Inv(q.(turn := !q.turn), qs)
  {
    var q' := q.(turn := !q.turn);
    forall m | m in q'.servers ensures RingOf(q', m, q'.servers[m]) { assert RingOf(q, m, q.servers[m]); }
    forall m | m in q'.servers ensures BusyOf(q', m, q'.servers[m]) && (q'.servers[m].push <==> m in qs) { assert BusyOf(q, m, q.servers[m]); }
  }

  // ---- an endpoint let go ----

  lemma {:induction false} WithoutIs(s: seq<URL>, u: URL)
    ensures |Without(s, u)| == |s| - (if u in s then 1 else 0)
  {
    if s != [] && s[0] != u { WithoutIs(s[1..], u); }
  }

  lemma {:induction false} WithoutCount(s: seq<URL>, u: URL, v: URL)
    ensures multiset(Without(s, u))[v] == multiset(s)[v] - (if v == u && u in s then 1 else 0)
  {
    if s != [] {
      HeadCount(s, v);
      if s[0] != u {
        WithoutCount(s[1..], u, v);
        HeadCount([s[0]] + Without(s[1..], u), v);
        assert ([s[0]] + Without(s[1..], u))[1..] == Without(s[1..], u);
      }
    }
  }

  lemma LaneWithout(s: seq<URL>, u: URL, v: URL)
    requires multiset(s)[u] <= 1
    ensures multiset(Without(s, u))[v] == if v == u then 0 else multiset(s)[v]
  {
    WithoutCount(s, u, v);
    assert u in s <==> multiset(s)[u] > 0;
  }

  lemma LeavePlaces(eps: map<URL, EP>, name: string, d: Server, u: URL)
    requires PlacesOf(eps, name, d) && u in eps && u.domain == name
    ensures PlacesOf(eps - {u}, name, Leave(d.(eps := d.eps - 1), u))
  {
    var d' := Leave(d.(eps := d.eps - 1), u);
    assert LiveOn(eps - {u}, name) == LiveOn(eps, name) - {u};
    assert RealPlaces(d, u) <= 1 && multiset(d.decoys)[u] <= 1;
    forall v ensures RealPlaces(d', v) == RealFlag(eps - {u}, name, v) {
      assert RealPlaces(d, v) == RealFlag(eps, name, v);
      LaneWithout(d.lanes[0], u, v);
      LaneWithout(d.lanes[1], u, v);
      LaneWithout(d.lanes[2], u, v);
      LaneWithout(d.lanes[3], u, v);
    }
    forall v ensures multiset(d'.decoys)[v] == DecoyFlag(eps - {u}, name, v) {
      assert multiset(d.decoys)[v] == DecoyFlag(eps, name, v);
      LaneWithout(d.decoys, u, v);
    }
  }

  lemma PlacesLess(eps: map<URL, EP>, servers: map<string, Server>, u: URL, d: Server)
    requires PlacesOK(eps, servers) && PlacesOf(eps - {u}, u.domain, d) && u in eps
    ensures PlacesOK(eps - {u}, servers[u.domain := d])
  {
    forall name | name in servers && name != u.domain ensures PlacesOf(eps - {u}, name, servers[name]) {
      PlacesElsewhere(eps, eps - {u}, name, servers[name]);
    }
  }

  // ---- an idle server's record goes ----

  ghost predicate CanDropIdle(q: Queue, name: string) {
    name in q.servers && PlacesOf(q.eps, name, q.servers[name]) && BusyOf(q, name, q.servers[name]) && Idle(q.servers[name])
  }

  lemma DropIdlePlaces(q: Queue, name: string)
    requires PlacesOK(q.eps, q.servers) && CanDropIdle(q, name)
    ensures PlacesOK(q.eps, q.servers - {name})
  {
    forall u | u in q.eps ensures u.domain in q.servers - {name} { assert u !in LiveOn(q.eps, name); }
  }

  lemma DropIdleRest(q: Queue, qs: set<string>, name: string)
    requires RingsOK(q) && BusyOK(q, qs) && CanDropIdle(q, name)
    ensures RingsOK(q.(servers := q.servers - {name})) && BusyOK(q.(servers := q.servers - {name}), qs)
  {
    var q' := q.(servers := q.servers - {name});
    forall m | m in q'.servers ensures RingOf(q', m, q'.servers[m]) { assert RingOf(q, m, q.servers[m]); }
    forall m | m in q'.servers ensures BusyOf(q', m, q'.servers[m]) && (q'.servers[m].push <==> m in qs) { assert BusyOf(q, m, q.servers[m]); }
  }

  lemma DropIdleSums(q: Queue, name: string)
    requires TotalsOK(q) && CanDropIdle(q, name)
    ensures TotalsOK(q.(servers := q.servers - {name}))
  {
    SumWithout(AllWaiting, q.servers, name);
    SumWithout(SharedWaiting, q.servers, name);
    SumWithout(SharedFlying, q.servers, name);
  }

  lemma IdleGoes(q: Queue, qs: set<string>, name: string)
    requires Inv(q, qs) && CanDropIdle(q, name)
    ensures Inv(q.(servers := q.servers - {name}), qs)
  {
    DropIdlePlaces(q, name);
    DropIdleRest(q, qs, name);
    DropIdleSums(q, name);
  }

  // Replace leaves out a record with nothing in it
  lemma ReplaceIs(q: Queue, name: string)
    requires name in q.servers && |q.servers[name].lanes| == TIERS
    ensures Replace(q, name, q.servers[name]) == if Idle(q.servers[name]) then q.(servers := q.servers - {name}) else q
  {
    assert q.servers[name := q.servers[name]] == q.servers;
  }

  lemma DropIdle(q: Queue, qs: set<string>, name: string)
    requires Inv(q, qs) && name in q.servers && |q.servers[name].lanes| == TIERS
    ensures Inv(Replace(q, name, q.servers[name]), qs)
  {
    ReplaceIs(q, name);
    if Idle(q.servers[name]) {
      assert PlacesOf(q.eps, name, q.servers[name]) && BusyOf(q, name, q.servers[name]);
      IdleGoes(q, qs, name);
    }
  }

  lemma ReplaceTwice(q: Queue, name: string, d: Server)
    requires |d.lanes| == TIERS
    ensures Replace(q, name, d) == Replace(q.(servers := q.servers[name := d]), name, d)
  {
    assert q.servers[name := d] - {name} == q.servers - {name};
  }

  // the record after an endpoint left it
  ghost function Left(q: Queue, u: URL): Queue
    requires Homed(q, u)
  {
    var d := q.servers[u.domain];
    var d' := Leave(d.(eps := d.eps - 1), u);
    var n := Waiting(d) - Waiting(d');
    q.(eps := q.eps - {u}, queued := q.queued - n, sharedQueued := q.sharedQueued - n * Shared(d), servers := q.servers[u.domain := d'])
  }

  lemma LeftSums(q: Queue, u: URL)
    requires TotalsOK(q) && Homed(q, u)
    ensures TotalsOK(Left(q, u))
  {
    var d' := Left(q, u).servers[u.domain];
    SumWith(AllWaiting, q.servers, u.domain, d');
    SumWith(SharedWaiting, q.servers, u.domain, d');
    SumWith(SharedFlying, q.servers, u.domain, d');
  }

  lemma LeftRings(q: Queue, u: URL)
    requires RingsOK(q) && Homed(q, u)
    ensures RingsOK(Left(q, u))
  {
    var q', d := Left(q, u), q.servers[u.domain];
    WithoutIs(d.lanes[0], u);
    WithoutIs(d.lanes[1], u);
    WithoutIs(d.lanes[2], u);
    WithoutIs(d.lanes[3], u);
    WithoutIs(d.decoys, u);
    forall m | m in q'.servers ensures RingOf(q', m, q'.servers[m]) { assert RingOf(q, m, q.servers[m]); }
  }

  lemma LeftKeeps(q: Queue, qs: set<string>, u: URL)
    requires Inv(q, qs) && Homed(q, u)
    ensures Inv(Left(q, u), qs)
  {
    var q', d := Left(q, u), q.servers[u.domain];
    LeavePlaces(q.eps, u.domain, d, u);
    PlacesLess(q.eps, q.servers, u, q'.servers[u.domain]);
    LeftSums(q, u);
    LeftRings(q, u);
    LeftBusy(q, qs, u);
  }

  lemma LeftBusy(q: Queue, qs: set<string>, u: URL)
    requires BusyOK(q, qs) && Homed(q, u)
    ensures BusyOK(Left(q, u), qs)
  {
    var q' := Left(q, u);
    forall m | m in q'.servers ensures BusyOf(q', m, q'.servers[m]) && (q'.servers[m].push <==> m in qs) { assert BusyOf(q, m, q.servers[m]); }
  }

  lemma LetGoIs(q: Queue, u: URL)
    requires Homed(q, u)
    ensures LetGo(q, u) == Replace(Left(q, u), u.domain, Left(q, u).servers[u.domain])
  {
    var q1 := Left(q, u);
    ReplaceTwice(q1.(servers := q.servers), u.domain, q1.servers[u.domain]);
    assert q1 == q1.(servers := q.servers).(servers := q.servers[u.domain := q1.servers[u.domain]]);
  }

  lemma LetGoKeeps(q: Queue, qs: set<string>, u: URL)
    requires Inv(q, qs) && Homed(q, u)
    ensures Inv(LetGo(q, u), qs)
  {
    LeftKeeps(q, qs, u);
    DropIdle(Left(q, u), qs, u.domain);
    LetGoIs(q, u);
  }

  // ---- a post is over ----

  ghost function Ended(q: Queue, name: string): Queue
    requires name in q.servers
  {
    var d := q.servers[name];
    q.(sharedBusy := q.sharedBusy - Shared(d), flying := q.flying - multiset{name}, servers := q.servers[name := d.(inflight := d.inflight - 1)])
  }

  lemma EndedSums(q: Queue, name: string)
    requires TotalsOK(q) && name in q.servers && |q.servers[name].lanes| == TIERS
    ensures TotalsOK(Ended(q, name))
  {
    var d' := Ended(q, name).servers[name];
    SumWith(AllWaiting, q.servers, name, d');
    SumWith(SharedWaiting, q.servers, name, d');
    SumWith(SharedFlying, q.servers, name, d');
  }

  lemma EndedRest(q: Queue, qs: set<string>, name: string)
    requires PlacesOK(q.eps, q.servers) && RingsOK(q) && name in q.servers
    ensures PlacesOK(q.eps, Ended(q, name).servers) && RingsOK(Ended(q, name))
  {
    var q' := Ended(q, name);
    forall m | m in q'.servers ensures PlacesOf(q'.eps, m, q'.servers[m]) {
      assert PlacesOf(q.eps, m, q.servers[m]);
      forall u ensures RealPlaces(q'.servers[m], u) == RealPlaces(q.servers[m], u) {}
    }
    forall m | m in q'.servers ensures RingOf(q', m, q'.servers[m]) { assert RingOf(q, m, q.servers[m]); }
  }

  lemma EndedBusy(q: Queue, qs: set<string>, name: string)
    requires BusyOK(q, qs) && name in q.flying
    ensures BusyOK(Ended(q, name), qs)
  {
    var q' := Ended(q, name);
    forall m | m in q'.servers ensures BusyOf(q', m, q'.servers[m]) && (q'.servers[m].push <==> m in qs) { assert BusyOf(q, m, q.servers[m]); }
  }

  lemma OverKeeps(q: Queue, qs: set<string>, name: string)
    requires Inv(q, qs) && name in q.flying && name in q.servers && |q.servers[name].lanes| == TIERS
    ensures Inv(Over(q, name), qs)
  {
    EndedSums(q, name);
    EndedRest(q, qs, name);
    EndedBusy(q, qs, name);
    var q1 := Ended(q, name);
    DropIdle(q1, qs, name);
    ReplaceTwice(q1.(servers := q.servers), name, q1.servers[name]);
    assert q1 == q1.(servers := q.servers).(servers := q.servers[name := q1.servers[name]]);
  }

  // ---- a new endpoint ----

  lemma NewServerPlaces(eps: map<URL, EP>, servers: map<string, Server>, name: string, d: Server)
    requires PlacesOK(eps, servers) && name !in servers
    requires d.eps == 0 && d.lanes == [[], [], [], []] && d.decoys == [] && |d.credit| == TIERS
    ensures PlacesOf(eps, name, d)
  {
    forall u | u in eps ensures u.domain != name {}
    assert LiveOn(eps, name) == {};
    forall u ensures RealPlaces(d, u) == 0 {}
  }

  lemma NewEPPlaces(q: Queue, push: set<string>, u: URL)
    requires PlacesOK(q.eps, q.servers) && u !in q.eps
    ensures PlacesOK(NewEP(q, push, u).eps, NewEP(q, push, u).servers)
  {
    var d := if u.domain in q.servers then q.servers[u.domain] else NewServer(q, u.domain in push);
    if u.domain !in q.servers { NewServerPlaces(q.eps, q.servers, u.domain, d); }
    NewPlaces(q.eps, u, d, q.nextUid + 1);
    PlacesWith(q.eps, q.servers, u, EP(q.nextUid + 1, false, false), d.(eps := d.eps + 1));
  }

  lemma NewPlaces(eps: map<URL, EP>, u: URL, d: Server, uid: nat)
    requires PlacesOf(eps, u.domain, d) && u !in eps
    ensures PlacesOf(eps[u := EP(uid, false, false)], u.domain, d.(eps := d.eps + 1))
  {
    var eps', d' := eps[u := EP(uid, false, false)], d.(eps := d.eps + 1);
    assert LiveOn(eps', u.domain) == LiveOn(eps, u.domain) + {u};
    forall v ensures RealPlaces(d', v) == RealFlag(eps', u.domain, v) { assert RealPlaces(d, v) == RealFlag(eps, u.domain, v); }
    forall v ensures multiset(d'.decoys)[v] == DecoyFlag(eps', u.domain, v) { assert multiset(d.decoys)[v] == DecoyFlag(eps, u.domain, v); }
  }

  lemma NewEPSums(q: Queue, push: set<string>, u: URL)
    requires PlacesOK(q.eps, q.servers) && TotalsOK(q)
    ensures TotalsOK(NewEP(q, push, u))
  {
    if u.domain in q.servers { assert PlacesOf(q.eps, u.domain, q.servers[u.domain]); }
    var d' := NewEP(q, push, u).servers[u.domain];
    SumWith(AllWaiting, q.servers, u.domain, d');
    SumWith(SharedWaiting, q.servers, u.domain, d');
    SumWith(SharedFlying, q.servers, u.domain, d');
  }

  lemma NewEPRest(q: Queue, push: set<string>, u: URL)
    requires RingsOK(q) && BusyOK(q, push)
    ensures RingsOK(NewEP(q, push, u)) && BusyOK(NewEP(q, push, u), push)
  {
    var q' := NewEP(q, push, u);
    forall m | m in q'.servers ensures RingOf(q', m, q'.servers[m]) { if m in q.servers { assert RingOf(q, m, q.servers[m]); } }
    forall m | m in q'.servers ensures BusyOf(q', m, q'.servers[m]) && (q'.servers[m].push <==> m in push) {
      if m in q.servers { assert BusyOf(q, m, q.servers[m]); }
    }
  }

  lemma NewEPKeeps(q: Queue, push: set<string>, u: URL)
    requires Inv(q, push) && u !in q.eps
    ensures Inv(NewEP(q, push, u), push)
  {
    NewEPPlaces(q, push, u);
    NewEPSums(q, push, u);
    NewEPRest(q, push, u);
  }

  // ---- every run ----

  // what happens under the lock. An address that was busy is an Ended and an Adds
  datatype Step =
    | Registers(url: URL)
    | LetsGo(url: URL)
    | Adds(url: URL, uid: nat, decoy: bool, tier: nat)
    | Takes(budget: bool, pace: set<string>, decoys: bool)
    | Ends(name: string)

  // only a new endpoint is put in, only one that is there goes, and only a post that
  // was taken ends
  ghost predicate CanStep(q: Queue, s: Step) {
    match s
    case Registers(u) => u !in q.eps
    case LetsGo(u) => u in q.eps
    case Adds(_, _, _, tier) => tier < TIERS
    case Takes(_, _, _) => true
    case Ends(name) => name in q.flying
  }

  lemma InvHomes(q: Queue, qs: set<string>, u: URL)
    requires Inv(q, qs) && u in q.eps
    ensures Homed(q, u)
  {
    assert PlacesOf(q.eps, u.domain, q.servers[u.domain]);
  }

  lemma FlyingHasServer(q: Queue, qs: set<string>, name: string)
    requires Inv(q, qs) && name in q.flying
    ensures name in q.servers && |q.servers[name].lanes| == TIERS
  {
    assert PlacesOf(q.eps, name, q.servers[name]);
  }

  ghost function Next(q: Queue, qs: set<string>, s: Step): (q': Queue)
    requires Inv(q, qs) && CanStep(q, s)
    ensures Inv(q', qs)
  {
    match s
    case Registers(u) => NewEPKeeps(q, qs, u); NewEP(q, qs, u)
    case LetsGo(u) => InvHomes(q, qs, u); LetGoKeeps(q, qs, u); LetGo(q, u)
    case Adds(u, uid, decoy, tier) =>
      assert u in q.eps ==> Homed(q, u) by { if u in q.eps { InvHomes(q, qs, u); } }
      AddKeeps(q, qs, u, uid, decoy, tier); Add(q, u, uid, decoy, tier)
    case Takes(budget, pace, decoys) => InvShaped(q, qs); NextJobKeeps(q, qs, budget, pace, decoys); NextJob(q, budget, pace, decoys).0
    case Ends(name) => FlyingHasServer(q, qs, name); OverKeeps(q, qs, name); Over(q, name)
  }

  ghost predicate IsRun(q: Queue, qs: set<string>, steps: seq<Step>)
    requires Inv(q, qs)
    decreases |steps|
  {
    steps != [] ==> CanStep(q, steps[0]) && IsRun(Next(q, qs, steps[0]), qs, steps[1..])
  }

  ghost function Run(q: Queue, qs: set<string>, steps: seq<Step>): Queue
    requires Inv(q, qs) && IsRun(q, qs, steps)
    decreases |steps|
  {
    if steps == [] then q else Run(Next(q, qs, steps[0]), qs, steps[1..])
  }

  lemma EmptyInv(qs: set<string>)
    ensures Inv(EMPTY, qs)
  {}

  lemma {:induction false} RunKeeps(q: Queue, qs: set<string>, steps: seq<Step>)
    requires Inv(q, qs) && IsRun(q, qs, steps)
    ensures Inv(Run(q, qs, steps), qs)
    decreases |steps|
  {
    if steps != [] { RunKeeps(Next(q, qs, steps[0]), qs, steps[1..]); }
  }
}
