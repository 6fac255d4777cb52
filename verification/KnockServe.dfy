/**
 What the queue's invariant means for the knocks: places, turns and caps in every
 reachable state, and no server that could be served is passed over.
 */
module KnockServe {
  import KnockTable
  import opened KnockQueue
  import opened KnockQueueProof
  import opened KnockQueueRun
  import KnockLanes

  // the places of u in a server's lanes
  ghost function Spots(s: seq<Ref>, r: Ref): set<int> { set i | 0 <= i < |s| && s[i] == r }

  /**
   In every reachable state: a server with knocks waiting has exactly one place in its
   ring and none in the other, an endpoint's places are its flags, at most one real
   and one decoy, the totals are the sums over the servers, no lane is longer than a
   server of its kind may have it, and the caps on what is in flight hold.
   */
  lemma ReachableHolds(qs: set<string>, steps: seq<Step>, name: string, u: URL)
    requires Inv(EMPTY, qs) && IsRun(EMPTY, qs, steps) && name in Run(EMPTY, qs, steps).servers
    ensures
      var q := Run(EMPTY, qs, steps);
      var d := q.servers[name];
      && |d.lanes| == TIERS
      && (Waiting(d) > 0 ==> |Spots(Ring(q, d.push), Ref(name, d.uid))| == 1) && Spots(Ring(q, !d.push), Ref(name, d.uid)) == {}
      && RealPlaces(d, u) == RealFlag(q.eps, name, u) && multiset(d.decoys)[u] == DecoyFlag(q.eps, name, u)
      && q.queued == SumOf(AllWaiting, q.servers) && q.sharedQueued == SumOf(SharedWaiting, q.servers)
      && q.sharedBusy == SumOf(SharedFlying, q.servers) <= SHARED_WORKERS
      && d.inflight == q.flying[name] <= (if name in qs then PER_PUSH_SERVER else PER_SERVER)
      && var cap := if name in qs then PUSH_QUEUE else SERVER_QUEUE;
      && |d.lanes[0]| + |d.decoys| <= cap && |d.decoys| <= cap / 2 && forall t :: 0 < t < TIERS ==> |d.lanes[t]| <= cap
  {
    RunKeeps(EMPTY, qs, steps);
    KnockLanes.RunCaps(EMPTY, qs, steps);
    var q := Run(EMPTY, qs, steps);
    var d := q.servers[name];
    assert PlacesOf(q.eps, name, d) && BusyOf(q, name, d) && RingOf(q, name, d);
    if Waiting(d) > 0 { OneSpot(Ring(q, d.push), Ref(name, d.uid)); }
  }

  lemma OneSpot(s: seq<Ref>, r: Ref)
    requires NoTwice(s) && r in s
    ensures |Spots(s, r)| == 1
  {
    var i :| 0 <= i < |s| && s[i] == r;
    assert Spots(s, r) == {i};
  }

  // ---- nobody is passed over ----

  // fewer posts on their way than it may have, eight for a push server and two for any
  // other, and for those sixteen together
  predicate RoomToPost(q: Queue, d: Server) { if d.push then d.inflight < 8 else d.inflight < 2 && q.sharedBusy < 16 }

  // it has pace to spare, room for another post, and a knock that may go
  predicate Able(q: Queue, name: string, pace: set<string>, decoys: bool) {
    && name in q.servers && name in pace && |q.servers[name].lanes| == TIERS && RoomToPost(q, q.servers[name])
    && (|q.servers[name].decoys| < Waiting(q.servers[name]) || (decoys && q.servers[name].decoys != []))
  }

  lemma AbleAtTurn(q: Queue, push: bool, pace: set<string>, decoys: bool)
    requires Shaped(q) && HeadLive(q, push) && Able(q, Ring(q, push)[0].name, pace, decoys)
    ensures Turn(q, push, pace, decoys).1.Job?
  {}

  // a turn that gives no job leaves the other servers and the other ring as they were,
  // and moves the rest of its ring on
  lemma TurnOther(q: Queue, push: bool, pace: set<string>, decoys: bool, r: Ref)
    requires Shaped(q) && Ring(q, push) != [] && Turn(q, push, pace, decoys).1.NoJob?
    requires HeadLive(q, push) ==> q.servers[Ring(q, push)[0].name].push == push
    requires r.name in q.servers && q.servers[r.name].uid == r.uid && r != Ring(q, push)[0]
    ensures
      var q1 := Turn(q, push, pace, decoys).0;
      && r.name in q1.servers && q1.servers[r.name] == q.servers[r.name] && q1.sharedBusy == q.sharedBusy
      && Ring(q1, !push) == Ring(q, !push) && Ring(q, push)[1..] <= Ring(q1, push)
  {}

  lemma AbleLater(q: Queue, qs: set<string>, push: bool, pace: set<string>, decoys: bool, name: string)
    requires Inv(q, qs) && Shaped(q) && Ring(q, push) != [] && Turn(q, push, pace, decoys).1.NoJob? && Able(q, name, pace, decoys)
    requires Ref(name, q.servers[name].uid) != Ring(q, push)[0]
    ensures
      var q1 := Turn(q, push, pace, decoys).0;
      && Able(q1, name, pace, decoys) && q1.servers[name] == q.servers[name] && Ring(q1, !push) == Ring(q, !push)
      && Ring(q, push)[1..] <= Ring(q1, push)
  {
    HeadsRing(q, qs, push);
    TurnOther(q, push, pace, decoys, Ref(name, q.servers[name].uid));
  }

  // a turn that gave no job
  ghost predicate Passed(q: Queue, q1: Queue, push: bool, pace: set<string>, decoys: bool) {
    Shaped(q) && Ring(q, push) != [] && Turn(q, push, pace, decoys) == (q1, NoJob)
  }

  // the states of a ring gone round in vain
  ghost predicate InVain(states: seq<Queue>, push: bool, pace: set<string>, decoys: bool) {
    forall k :: 0 < k < |states| ==> Passed(states[k - 1], states[k], push, pace, decoys)
  }

  lemma {:induction false} Trail(q: Queue, push: bool, n: nat, pace: set<string>, decoys: bool) returns (states: seq<Queue>)
    requires Shaped(q) && n <= |Ring(q, push)| && FromRing(q, push, n, pace, decoys).1.NoJob?
    ensures |states| == n + 1 && states[0] == q && InVain(states, push, pace, decoys)
    ensures states[n] == FromRing(q, push, n, pace, decoys).0
    decreases n
  {
    states := [q];
    if n > 0 {
      TurnShaped(q, push, pace, decoys);
      var rest := Trail(Turn(q, push, pace, decoys).0, push, n - 1, pace, decoys);
      states := [q] + rest;
      assert Passed(q, rest[0], push, pace, decoys);
      forall k | 0 < k < |states| ensures Passed(states[k - 1], states[k], push, pace, decoys) {
        if k > 1 { assert Passed(rest[k - 2], rest[k - 1], push, pace, decoys); }
      }
    }
  }

  ghost predicate AbleAt(q: Queue, qs: set<string>, push: bool, pace: set<string>, decoys: bool, name: string, i: nat) {
    Inv(q, qs) && Able(q, name, pace, decoys) && i < |Ring(q, push)| && Ring(q, push)[i] == Ref(name, q.servers[name].uid)
  }

  lemma AblePassed(q: Queue, q1: Queue, qs: set<string>, push: bool, pace: set<string>, decoys: bool, name: string, i: nat)
    requires Passed(q, q1, push, pace, decoys) && AbleAt(q, qs, push, pace, decoys, name, i)
    ensures i > 0 && AbleAt(q1, qs, push, pace, decoys, name, i - 1)
  {
    if i == 0 { AbleAtTurn(q, push, pace, decoys); } else { AbleStep(q, qs, push, pace, decoys, name, i); }
  }

  lemma RestInVain(states: seq<Queue>, push: bool, pace: set<string>, decoys: bool)
    requires states != [] && InVain(states, push, pace, decoys)
    ensures InVain(states[1..], push, pace, decoys)
  {
    var rest := states[1..];
    forall k | 0 < k < |rest| ensures Passed(rest[k - 1], rest[k], push, pace, decoys) {
      assert Passed(states[k], states[k + 1], push, pace, decoys);
    }
  }

  lemma {:induction false} AbleComesUp(states: seq<Queue>, qs: set<string>, push: bool, pace: set<string>, decoys: bool, name: string, i: nat)
    requires states != [] && InVain(states, push, pace, decoys) && AbleAt(states[0], qs, push, pace, decoys, name, i)
    ensures |states| <= i + 1
    decreases |states|
  {
    if |states| > 1 {
      assert Passed(states[0], states[1], push, pace, decoys);
      AblePassed(states[0], states[1], qs, push, pace, decoys, name, i);
      RestInVain(states, push, pace, decoys);
      AbleComesUp(states[1..], qs, push, pace, decoys, name, i - 1);
    }
  }

  // a server in the ring that could be served is: the ring is not gone round in vain
  lemma AbleIsServed(q: Queue, qs: set<string>, push: bool, n: nat, pace: set<string>, decoys: bool, name: string, i: nat)
    requires Shaped(q) && i < n <= |Ring(q, push)| && AbleAt(q, qs, push, pace, decoys, name, i)
    ensures FromRing(q, push, n, pace, decoys).1.Job?
  {
    if FromRing(q, push, n, pace, decoys).1.NoJob? {
      var states := Trail(q, push, n, pace, decoys);
      AbleComesUp(states, qs, push, pace, decoys, name, i);
      assert false;
    }
  }

  lemma AbleStep(q: Queue, qs: set<string>, push: bool, pace: set<string>, decoys: bool, name: string, i: nat)
    requires Inv(q, qs) && Shaped(q) && 0 < i < |Ring(q, push)| && Able(q, name, pace, decoys)
    requires Ring(q, push)[i] == Ref(name, q.servers[name].uid) && Turn(q, push, pace, decoys).1.NoJob?
    ensures
      var q1 := Turn(q, push, pace, decoys).0;
      Inv(q1, qs) && Able(q1, name, pace, decoys) && i - 1 < |Ring(q1, push)| && Ring(q1, push)[i - 1] == Ref(name, q1.servers[name].uid)
  {
    TurnKeeps(q, qs, push, pace, decoys);
    OnceApart(Ring(q, push), i);
    AbleLater(q, qs, push, pace, decoys, name);
    assert Ring(q, push)[1..][i - 1] == Ring(q, push)[i];
  }

  lemma OnceApart(s: seq<Ref>, i: nat)
    requires NoTwice(s) && 0 < i < |s|
    ensures s[0] != s[i]
  {}

  ghost predicate AbleAside(q: Queue, qs: set<string>, push: bool, pace: set<string>, decoys: bool, name: string) {
    Inv(q, qs) && Able(q, name, pace, decoys) && q.servers[name].push != push
  }

  lemma PassedAside(q: Queue, q1: Queue, qs: set<string>, push: bool, pace: set<string>, decoys: bool, name: string)
    requires Passed(q, q1, push, pace, decoys) && AbleAside(q, qs, push, pace, decoys, name)
    ensures AbleAside(q1, qs, push, pace, decoys, name)
  {
    assert RingOf(q, name, q.servers[name]);
    TurnKeeps(q, qs, push, pace, decoys);
    AbleLater(q, qs, push, pace, decoys, name);
  }

  // going round one ring in vain takes nothing from a server in the other
  lemma {:induction false} AbleInTheOther(states: seq<Queue>, qs: set<string>, push: bool, pace: set<string>, decoys: bool, name: string, k: nat)
    requires k < |states| && InVain(states, push, pace, decoys) && AbleAside(states[0], qs, push, pace, decoys, name)
    ensures AbleAside(states[k], qs, push, pace, decoys, name)
  {
    if k > 0 {
      AbleInTheOther(states, qs, push, pace, decoys, name, k - 1);
      assert Passed(states[k - 1], states[k], push, pace, decoys);
      PassedAside(states[k - 1], states[k], qs, push, pace, decoys, name);
    }
  }

  lemma AbleInRing(q: Queue, qs: set<string>, pace: set<string>, decoys: bool, name: string) returns (i: nat)
    requires Inv(q, qs) && Able(q, name, pace, decoys)
    ensures i < |Ring(q, q.servers[name].push)| && Ring(q, q.servers[name].push)[i] == Ref(name, q.servers[name].uid)
  {
    assert RingOf(q, name, q.servers[name]);
    var k :| 0 <= k < |Ring(q, q.servers[name].push)| && Ring(q, q.servers[name].push)[k] == Ref(name, q.servers[name].uid);
    i := k;
  }

  // with budget left, a knock goes out whenever any server could be served
  lemma SomeoneIsServed(q: Queue, qs: set<string>, pace: set<string>, decoys: bool, name: string)
    requires Inv(q, qs) && Shaped(q) && Able(q, name, pace, decoys)
    ensures NextJob(q, true, pace, decoys).1.Job?
  {
    var q0 := q.(turn := !q.turn);
    TurnFlag(q, qs);
    var first := !q0.turn;
    if q.servers[name].push == first {
      var i := AbleInRing(q0, qs, pace, decoys, name);
      AbleIsServed(q0, qs, first, |Ring(q0, first)|, pace, decoys, name, i);
    } else if FromRing(q0, first, |Ring(q0, first)|, pace, decoys).1.NoJob? {
      var states := Trail(q0, first, |Ring(q0, first)|, pace, decoys);
      AbleInTheOther(states, qs, first, pace, decoys, name, |Ring(q0, first)|);
      var q1 := FromRing(q0, first, |Ring(q0, first)|, pace, decoys).0;
      var i := AbleInRing(q1, qs, pace, decoys, name);
      AbleIsServed(q1, qs, !first, |Ring(q1, !first)|, pace, decoys, name, i);
    }
  }

  // ---- what goes out ----

  // the job is of a live endpoint with that place, which it no longer has
  ghost predicate Took(q: Queue, q1: Queue, job: Job) {
    && job.Job? && job.url in q.eps && q.eps[job.url].uid == job.uid
    && (if job.decoy then q.eps[job.url].queuedDecoy else q.eps[job.url].queuedReal)
    && q1.eps == q.eps[job.url := if job.decoy then q.eps[job.url].(queuedDecoy := false) else q.eps[job.url].(queuedReal := false)]
  }

  lemma SendRealTook(q: Queue, name: string, t: nat, credit: seq<int>)
    requires name in q.servers && PlacesOf(q.eps, name, q.servers[name]) && t < TIERS == |credit|
    requires q.servers[name].lanes[t] != [] && q.servers[name].lanes[t][0] in q.eps
    ensures Took(q, SendReal(q, name, t, credit).0, SendReal(q, name, t, credit).1) && SendReal(q, name, t, credit).1.url.domain == name
  {
    LeaveLane(q.eps, name, q.servers[name], t, credit);
  }

  lemma SendDecoyTook(q: Queue, name: string)
    requires name in q.servers && PlacesOf(q.eps, name, q.servers[name])
    requires q.servers[name].decoys != [] && q.servers[name].decoys[0] in q.eps
    ensures Took(q, SendDecoy(q, name).0, SendDecoy(q, name).1) && SendDecoy(q, name).1.url.domain == name
  {
    LeaveDecoys(q.eps, name, q.servers[name]);
  }

  // its server had room and pace, and a decoy goes only when no real knock waits there
  lemma TurnJob(q: Queue, push: bool, pace: set<string>, decoys: bool)
    requires Shaped(q) && Ring(q, push) != [] && PlacesOK(q.eps, q.servers) && Turn(q, push, pace, decoys).1.Job?
    ensures
      var (q1, job) := Turn(q, push, pace, decoys);
      && Took(q, q1, job) && job.url.domain in pace && job.url.domain in q.servers && RoomToPost(q, q.servers[job.url.domain])
      && |q.servers[job.url.domain].lanes| == TIERS
      && (job.decoy ==> Waiting(q.servers[job.url.domain]) == |q.servers[job.url.domain].decoys|)
  {
    var c, name := Choose(q, push, pace, decoys), Ring(q, push)[0].name;
    var q2 := Called(q, push);
    assert PlacesOf(q.eps, name, q.servers[name]);
    RingFlagIgnored(q.eps, name, q.servers[name], false);
    assert q2.eps == q.eps && q2.servers[name] == q.servers[name].(inRing := false);
    if c.Real? { SendRealTook(q2, name, c.lane, c.credit); } else { SendDecoyTook(q2, name); }
  }

  // ---- the weighted turns ----

  function Balance(credit: seq<int>): int
    requires |credit| == TIERS
  {
    credit[0] + credit[1] + credit[2] + credit[3]
  }

  lemma {:induction false} GivenBalance(d: Server, n: nat)
    requires |d.lanes| == |d.credit| == TIERS && n <= TIERS
    ensures Balance(Given(d, n).credit) == Balance(d.credit) + Total(d, n)
    ensures (forall t :: 0 <= t < n ==> d.lanes[t] == []) ==> Total(d, n) == 0
  {
    if n > 0 { GivenBalance(d, n - 1); }
  }

  // the turns given out are the turns taken: the credits always add up to the same
  lemma CreditsBalance(d: Server)
    requires |d.lanes| == |d.credit| == TIERS
    ensures Balance(NextLane(d).1) == Balance(d.credit)
  {
    GivenBalance(d, TIERS);
  }
}
