/**
 What an add does to the queue, how long the lanes get, and how the turns between the
 lanes of one server fall.
 */
module KnockLanes {
  import KnockTable
  import opened KnockQueue
  import opened KnockQueueProof
  import opened KnockQueueRun

  // ---- one more knock ----

  // the length of a lane, from the server's kind alone
  function LaneCap(isPush: bool): nat { if isPush then 2048 else 64 }

  // the endpoint meant is there, without a place of the kind, and the lane is short
  // enough: the one for new endpoints counts the decoys too, which only fill half, and
  // both stop when the servers that are not push servers have enough waiting
  ghost predicate MayJoin(q: Queue, qs: set<string>, u: URL, uid: nat, decoy: bool, tier: nat)
    requires u in q.eps ==> Homed(q, u)
    requires tier < TIERS
  {
    u in q.eps && q.eps[u].uid == uid && !q.eps[u].queuedReal && (decoy ==> !q.eps[u].queuedDecoy) &&
    var d, cap, isPush := q.servers[u.domain], LaneCap(u.domain in qs), u.domain in qs;
    if decoy then |d.lanes[0]| + |d.decoys| < cap / 2 && (isPush || q.sharedQueued < 512)
    else if tier == 0 then |d.lanes[0]| + |d.decoys| < cap && (isPush || q.sharedQueued < 1024)
    else |d.lanes[tier]| < cap
  }

  // u is at the end of one lane, or of the decoys, and nothing else has moved; its
  // server is in its ring
  ghost predicate Joined(q: Queue, q': Queue, qs: set<string>, u: URL, decoy: bool, tier: nat)
    requires Homed(q, u) && tier < TIERS
  {
    var d := q.servers[u.domain];
    && u in q'.eps && (if decoy then q'.eps[u] == q.eps[u].(queuedDecoy := true) else q'.eps[u] == q.eps[u].(queuedReal := true))
    && (forall v :: v != u ==> (v in q'.eps <==> v in q.eps) && (v in q.eps ==> q'.eps[v] == q.eps[v]))
    && q'.servers.Keys == q.servers.Keys && (forall m :: m in q.servers && m != u.domain ==> q'.servers[m] == q.servers[m])
    && var d' := q'.servers[u.domain];
    && |d'.lanes| == TIERS && (forall t :: 0 <= t < TIERS ==> d'.lanes[t] == d.lanes[t] + (if !decoy && t == tier then [u] else []))
    && d'.decoys == d.decoys + (if decoy then [u] else [])
    && Ref(u.domain, d'.uid) in Ring(q', u.domain in qs)
    && q'.queued == q.queued + 1 && q'.sharedQueued == q.sharedQueued + (if u.domain in qs then 0 else 1)
    && q'.flying == q.flying && q'.sharedBusy == q.sharedBusy
  }

  // its server's kind, and its ring if it is in one
  ghost predicate AtHome(q: Queue, qs: set<string>, u: URL) {
    && Homed(q, u) && (q.servers[u.domain].push <==> u.domain in qs)
    && (q.servers[u.domain].inRing ==> Ref(u.domain, q.servers[u.domain].uid) in Ring(q, u.domain in qs))
  }

  lemma RealJoins(q: Queue, qs: set<string>, u: URL, tier: nat)
    requires AtHome(q, qs, u) && tier < TIERS
    ensures Joined(q, JoinReal(q, u, tier), qs, u, false, tier)
  {
  }

  lemma DecoyJoins(q: Queue, qs: set<string>, u: URL, tier: nat)
    requires AtHome(q, qs, u) && tier < TIERS
    ensures Joined(q, JoinDecoy(q, u), qs, u, true, tier)
  {
  }

  lemma AddIs(q: Queue, qs: set<string>, u: URL, uid: nat, decoy: bool, tier: nat)
    requires tier < TIERS && (u in q.eps ==> AtHome(q, qs, u))
    ensures Add(q, u, uid, decoy, tier)
         == if !MayJoin(q, qs, u, uid, decoy, tier) then q else if decoy then JoinDecoy(q, u) else JoinReal(q, u, tier)
  {
  }

  lemma InvAtHome(q: Queue, qs: set<string>, u: URL)
    requires Inv(q, qs) && u in q.eps
    ensures AtHome(q, qs, u)
  {
    InvHomes(q, qs, u);
    assert BusyOf(q, u.domain, q.servers[u.domain]) && RingOf(q, u.domain, q.servers[u.domain]);
  }

  /** An add queues its knock exactly when the endpoint meant is live, has no such place
      and finds its lane short enough; then the knock is last in that lane and in no
      other, and its server in its ring. In every other case the queue is as it was. */
  lemma AddExactlyWhen(q: Queue, qs: set<string>, u: URL, uid: nat, decoy: bool, tier: nat)
    requires Inv(q, qs) && tier < TIERS && (u in q.eps ==> Homed(q, u))
    ensures var q' := Next(q, qs, Adds(u, uid, decoy, tier));
            if MayJoin(q, qs, u, uid, decoy, tier) then Joined(q, q', qs, u, decoy, tier) else q' == q
  {
    if u in q.eps { InvAtHome(q, qs, u); }
    AddIs(q, qs, u, uid, decoy, tier);
    if MayJoin(q, qs, u, uid, decoy, tier) {
      if decoy { DecoyJoins(q, qs, u, tier); } else { RealJoins(q, qs, u, tier); }
    }
  }

  // ---- how long lanes get ----

  ghost predicate LanesIn(d: Server, cap: nat) {
    && |d.lanes| == TIERS && |d.lanes[0]| + |d.decoys| <= cap && |d.decoys| <= cap / 2
    && forall t :: 0 < t < TIERS ==> |d.lanes[t]| <= cap
  }

  ghost predicate InCaps(q: Queue) { forall m :: m in q.servers ==> LanesIn(q.servers[m], LaneCap(q.servers[m].push)) }

  lemma AddCaps(q: Queue, u: URL, uid: nat, decoy: bool, tier: nat)
    requires InCaps(q) && (u in q.eps ==> Homed(q, u)) && tier < TIERS
    ensures InCaps(Add(q, u, uid, decoy, tier))
  {
    var q' := Add(q, u, uid, decoy, tier);
    if q' != q {
      var d, d' := q.servers[u.domain], q'.servers[u.domain];
      assert LanesIn(d, LaneCap(d.push)) && d'.push == d.push;
      forall t | 0 < t < TIERS ensures |d'.lanes[t]| <= LaneCap(d.push) { assert |d.lanes[t]| <= LaneCap(d.push); }
    }
  }

  // a server's record with nothing longer than it was
  predicate NoLonger(d: Server, d': Server) {
    && d'.push == d.push && |d.lanes| == |d'.lanes| == TIERS && |d'.decoys| <= |d.decoys|
    && forall t :: 0 <= t < TIERS ==> |d'.lanes[t]| <= |d.lanes[t]|
  }

  lemma NoLongerIn(d: Server, d': Server, cap: nat)
    requires LanesIn(d, cap) && NoLonger(d, d')
    ensures LanesIn(d', cap)
  {
    assert |d'.lanes[0]| <= |d.lanes[0]|;
    forall t | 0 < t < TIERS ensures |d'.lanes[t]| <= cap { assert |d'.lanes[t]| <= |d.lanes[t]|; }
  }

  lemma NoLongerCaps(q: Queue, q': Queue)
    requires InCaps(q)
    requires forall m :: m in q'.servers ==> m in q.servers && NoLonger(q.servers[m], q'.servers[m])
    ensures InCaps(q')
  {
    forall m | m in q'.servers ensures LanesIn(q'.servers[m], LaneCap(q'.servers[m].push)) {
      NoLongerIn(q.servers[m], q'.servers[m], LaneCap(q.servers[m].push));
    }
  }

  lemma LeaveNoLonger(d: Server, u: URL)
    requires |d.lanes| == TIERS
    ensures NoLonger(d, Leave(d.(eps := d.eps - 1), u))
  {
    WithoutIs(d.lanes[0], u);
    WithoutIs(d.lanes[1], u);
    WithoutIs(d.lanes[2], u);
    WithoutIs(d.lanes[3], u);
    WithoutIs(d.decoys, u);
  }

  lemma LetGoCaps(q: Queue, u: URL)
    requires InCaps(q) && Homed(q, u)
    ensures InCaps(LetGo(q, u))
  {
    LeaveNoLonger(q.servers[u.domain], u);
    forall m | m in LetGo(q, u).servers ensures NoLonger(q.servers[m], LetGo(q, u).servers[m]) { assert LanesIn(q.servers[m], LaneCap(q.servers[m].push)); }
    NoLongerCaps(q, LetGo(q, u));
  }

  lemma OverCaps(q: Queue, name: string)
    requires InCaps(q) && name in q.servers && |q.servers[name].lanes| == TIERS
    ensures InCaps(Over(q, name))
  {
    forall m | m in Over(q, name).servers ensures NoLonger(q.servers[m], Over(q, name).servers[m]) { assert LanesIn(q.servers[m], LaneCap(q.servers[m].push)); }
    NoLongerCaps(q, Over(q, name));
  }

  lemma OutNoLonger(q: Queue, name: string, d: Server, u: URL, e: EP, d0: Server)
    requires |d.lanes| == TIERS && NoLonger(d0, d)
    ensures name in Out(q, name, d, u, e).servers && NoLonger(d0, Out(q, name, d, u, e).servers[name])
  {
    assert Out(q, name, d, u, e).servers[name].lanes == d.lanes;
  }

  lemma ActHeadNoLonger(q: Queue, push: bool, pace: set<string>, c: Choice)
    requires HeadLive(q, push) && Fits(q, push, pace, c)
    ensures var q', name := Act(q, push, pace, c).0, Ring(q, push)[0].name;
            name in q'.servers && NoLonger(q.servers[name], q'.servers[name])
  {
    var name, q2 := Ring(q, push)[0].name, Called(q, push);
    var d := q2.servers[name];
    match c
    case Stale =>
    case Nothing =>
    case Later =>
    case Real(t, credit) =>
      var u := d.lanes[t][0];
      OutNoLonger(q2, name, d.(lanes := d.lanes[t := d.lanes[t][1..]], credit := credit), u, q2.eps[u].(queuedReal := false), q.servers[name]);
    case Decoy =>
      var u := d.decoys[0];
      OutNoLonger(q2, name, d.(decoys := d.decoys[1..]), u, q2.eps[u].(queuedDecoy := false), q.servers[name]);
  }

  lemma ActCaps(q: Queue, push: bool, pace: set<string>, c: Choice)
    requires InCaps(q) && Ring(q, push) != [] && Fits(q, push, pace, c)
    ensures InCaps(Act(q, push, pace, c).0)
  {
    var q', name := Act(q, push, pace, c).0, Ring(q, push)[0].name;
    forall m | m in q'.servers ensures m in q.servers && NoLonger(q.servers[m], q'.servers[m]) {
      ActOneServer(q, push, pace, c, m);
      assert LanesIn(q.servers[m], LaneCap(q.servers[m].push));
      if m == name && HeadLive(q, push) { ActHeadNoLonger(q, push, pace, c); }
    }
    NoLongerCaps(q, q');
  }

  lemma {:induction false} FromRingCaps(q: Queue, push: bool, n: nat, pace: set<string>, decoys: bool)
    requires InCaps(q) && Shaped(q) && n <= |Ring(q, push)|
    ensures InCaps(FromRing(q, push, n, pace, decoys).0)
    decreases n
  {
    if n > 0 {
      TurnShaped(q, push, pace, decoys);
      ActCaps(q, push, pace, Choose(q, push, pace, decoys));
      var (q1, job) := Turn(q, push, pace, decoys);
      if job.NoJob? { FromRingCaps(q1, push, n - 1, pace, decoys); }
    }
  }

  lemma NextJobCaps(q: Queue, budget: bool, pace: set<string>, decoys: bool)
    requires InCaps(q) && Shaped(q)
    ensures InCaps(NextJob(q, budget, pace, decoys).0)
  {
    var q0 := q.(turn := !q.turn);
    assert Shaped(q0) && InCaps(q0);
    FromRingCaps(q0, !q0.turn, |Ring(q0, !q0.turn)|, pace, decoys);
    var q1 := FromRing(q0, !q0.turn, |Ring(q0, !q0.turn)|, pace, decoys).0;
    FromRingCaps(q1, q0.turn, |Ring(q1, q0.turn)|, pace, decoys);
  }

  lemma NewEPCaps(q: Queue, qs: set<string>, u: URL)
    requires InCaps(q)
    ensures InCaps(NewEP(q, qs, u))
  {
    var q' := NewEP(q, qs, u);
    forall m | m in q'.servers ensures LanesIn(q'.servers[m], LaneCap(q'.servers[m].push)) {
      if m in q.servers { assert LanesIn(q.servers[m], LaneCap(q.servers[m].push)); }
    }
  }

  lemma NextCaps(q: Queue, qs: set<string>, s: Step)
    requires Inv(q, qs) && InCaps(q) && CanStep(q, s)
    ensures InCaps(Next(q, qs, s))
  {
    match s
    case Registers(u) => NewEPCaps(q, qs, u);
    case LetsGo(u) => InvHomes(q, qs, u); LetGoCaps(q, u);
    case Adds(u, uid, decoy, tier) =>
      if u in q.eps { InvHomes(q, qs, u); }
      AddCaps(q, u, uid, decoy, tier);
    case Takes(budget, pace, decoys) => InvShaped(q, qs); NextJobCaps(q, budget, pace, decoys);
    case Ends(name) => FlyingHasServer(q, qs, name); OverCaps(q, name);
  }

  lemma {:induction false} RunCaps(q: Queue, qs: set<string>, steps: seq<Step>)
    requires Inv(q, qs) && IsRun(q, qs, steps) && InCaps(q)
    ensures InCaps(Run(q, qs, steps))
    decreases |steps|
  {
    if steps != [] {
      NextCaps(q, qs, steps[0]);
      RunCaps(Next(q, qs, steps[0]), qs, steps[1..]);
    }
  }

  // ---- a post over, an endpoint let go ----

  // one place in flight given back and nothing else changed; the server's record goes
  // exactly when it has no endpoint, no knock waiting and no other post
  ghost predicate GaveBack(q: Queue, q': Queue, name: string) {
    && q'.eps == q.eps && q'.flying == q.flying - multiset{name} && q'.queued == q.queued
    && name in q.servers && |q.servers[name].lanes| == TIERS
    && (name in q'.servers <==> q.servers[name].eps > 0 || Waiting(q.servers[name]) > 0 || q.servers[name].inflight != 1)
    && (name in q'.servers ==> q'.servers[name] == q.servers[name].(inflight := q.servers[name].inflight - 1))
    && forall m :: m != name ==> (m in q'.servers <==> m in q.servers) && (m in q.servers ==> q'.servers[m] == q.servers[m])
  }

  lemma OverGivesBack(q: Queue, name: string)
    requires name in q.servers && |q.servers[name].lanes| == TIERS
    ensures GaveBack(q, Over(q, name), name)
  {
  }

  /** A post that ends gives back one place in flight and no other, and takes nothing from
      any lane; an idle server's record goes with it. */
  lemma EndGivesBack(q: Queue, qs: set<string>, name: string)
    requires Inv(q, qs) && CanStep(q, Ends(name))
    ensures GaveBack(q, Next(q, qs, Ends(name)), name)
  {
    FlyingHasServer(q, qs, name);
    OverGivesBack(q, name);
  }

  lemma NoPlace(eps: map<URL, EP>, d: Server, u: URL)
    requires PlacesOf(eps, u.domain, d) && u !in eps
    ensures |d.lanes| == TIERS && u !in d.decoys && forall t :: 0 <= t < TIERS ==> u !in d.lanes[t]
  {
    assert RealPlaces(d, u) == 0 && multiset(d.decoys)[u] == 0;
  }

  /** An endpoint let go is in no lane any more, and no other endpoint's flags change. */
  lemma LetGoLeaves(q: Queue, qs: set<string>, u: URL)
    requires Inv(q, qs) && CanStep(q, LetsGo(u))
    ensures
      var q' := Next(q, qs, LetsGo(u));
      && q'.eps == q.eps - {u} && q'.flying == q.flying
      && (u.domain in q'.servers ==>
            var d := q'.servers[u.domain];
            |d.lanes| == TIERS && u !in d.decoys && forall t :: 0 <= t < TIERS ==> u !in d.lanes[t])
  {
    InvHomes(q, qs, u);
    LetGoEps(q, u);
    var q' := Next(q, qs, LetsGo(u));
    if u.domain in q'.servers { NoPlace(q'.eps, q'.servers[u.domain], u); }
  }

  lemma LetGoEps(q: Queue, u: URL)
    requires Homed(q, u)
    ensures LetGo(q, u).eps == q.eps - {u} && LetGo(q, u).flying == q.flying
  {
  }

  // ---- the turns between one server's lanes ----

  predicate WellFormed(d: Server) { |d.lanes| == |d.credit| == TIERS }

  // what a lane is owed each time, none when it is empty: one more for every tier
  function Due(d: Server, t: nat): nat
    requires WellFormed(d) && t < TIERS
  {
    if d.lanes[t] == [] then 0 else t + 1
  }

  function AllDue(d: Server): nat
    requires WellFormed(d)
  {
    Due(d, 0) + Due(d, 1) + Due(d, 2) + Due(d, 3)
  }

  lemma {:induction false} GivenAt(d: Server, n: nat, t: nat)
    requires WellFormed(d) && n <= TIERS && t < TIERS
    ensures Given(d, n).credit[t] == d.credit[t] + if t < n then Due(d, t) else 0
  {
    if n > 0 { GivenAt(d, n - 1, t); }
  }

  lemma TotalIs(d: Server)
    requires WellFormed(d)
    ensures Total(d, |d.lanes|) == AllDue(d)
  {
    assert Total(d, 1) == Due(d, 0);
    assert Total(d, 2) == Due(d, 0) + Due(d, 1);
    assert Total(d, 3) == Due(d, 0) + Due(d, 1) + Due(d, 2);
  }

  // the lane picked is owed the most, itself included, and pays what all were owed
  lemma PickAt(d: Server, t: nat)
    requires WellFormed(d) && t < TIERS
    ensures var (p, credit) := NextLane(d);
            && credit[t] == d.credit[t] + Due(d, t) - (if p == t then AllDue(d) else 0)
            && (d.lanes[t] != [] ==> p >= 0 && d.credit[p] + Due(d, p) >= d.credit[t] + Due(d, t))
  {
    TotalIs(d);
    GivenAt(d, |d.lanes|, t);
    var p := NextLane(d).0;
    if p >= 0 { GivenAt(d, |d.lanes|, p); }
  }

  // one pick after another, with knocks in the same lanes each time
  ghost predicate Series(ds: seq<Server>) {
    && (forall i :: 0 <= i < |ds| ==> WellFormed(ds[i]))
    && (forall i, t :: 0 <= i < |ds| && 0 <= t < TIERS ==> (ds[i].lanes[t] == [] <==> ds[0].lanes[t] == []))
    && (forall i :: 0 < i < |ds| ==> ds[i].credit == NextLane(ds[i - 1]).1)
  }

  function Picks(ds: seq<Server>, t: nat): nat
    requires forall i :: 0 <= i < |ds| ==> WellFormed(ds[i])
  {
    if ds == [] then 0
    else
      assert WellFormed(ds[|ds| - 1]);
      Picks(ds[..|ds| - 1], t) + if NextLane(ds[|ds| - 1]).0 == t then 1 else 0
  }

  ghost function CreditAfter(ds: seq<Server>): seq<int>
    requires ds != [] && Series(ds)
  {
    NextLane(ds[|ds| - 1]).1
  }

  lemma SeriesFront(ds: seq<Server>)
    requires |ds| > 1 && Series(ds)
    ensures var front := ds[..|ds| - 1];
            && Series(front) && front[0] == ds[0] && CreditAfter(front) == ds[|ds| - 1].credit
            && AllDue(ds[|ds| - 1]) == AllDue(ds[0]) && forall t :: 0 <= t < TIERS ==> Due(ds[|ds| - 1], t) == Due(ds[0], t)
  {
    var front := ds[..|ds| - 1];
    forall i, t | 0 <= i < |front| && 0 <= t < TIERS ensures front[i].lanes[t] == [] <==> front[0].lanes[t] == [] { assert front[i] == ds[i]; }
    forall i | 0 < i < |front| ensures front[i].credit == NextLane(front[i - 1]).1 { assert front[i] == ds[i] && front[i - 1] == ds[i - 1]; }
  }

  // n times w, by adding
  ghost function Times(n: nat, w: nat): nat { if n == 0 then 0 else Times(n - 1, w) + w }

  lemma {:induction false} TimesIs(n: nat, w: nat)
    ensures Times(n, w) == n * w
  {
    if n > 0 { TimesIs(n - 1, w); }
  }

  lemma PicksLast(ds: seq<Server>, t: nat)
    requires ds != [] && Series(ds) && t < TIERS
    ensures var last := ds[|ds| - 1];
            && WellFormed(last) && Due(last, t) == Due(ds[0], t) && AllDue(last) == AllDue(ds[0])
            && Picks(ds, t) == Picks(ds[..|ds| - 1], t) + (if NextLane(last).0 == t then 1 else 0)
  {
    if |ds| > 1 { SeriesFront(ds); }
  }

  lemma {:induction false} SharesAdd(ds: seq<Server>, t: nat)
    requires ds != [] && Series(ds) && t < TIERS
    ensures Times(Picks(ds, t), AllDue(ds[0])) + CreditAfter(ds)[t] == Times(|ds|, Due(ds[0], t)) + ds[0].credit[t]
  {
    var front, last := ds[..|ds| - 1], ds[|ds| - 1];
    PicksLast(ds, t);
    PickAt(last, t);
    assert Times(|front| + 1, Due(ds[0], t)) == Times(|front|, Due(ds[0], t)) + Due(ds[0], t);
    if |ds| > 1 {
      SeriesFront(ds);
      SharesAdd(front, t);
    }
  }

  /** Of any number of picks with knocks waiting in the same lanes, each lane gets its
      share by weight, an older tier's the larger, but for what its credit changed. */
  lemma SharesByWeight(ds: seq<Server>, t: nat)
    requires ds != [] && Series(ds) && t < TIERS
    ensures Picks(ds, t) * AllDue(ds[0]) + CreditAfter(ds)[t] == |ds| * Due(ds[0], t) + ds[0].credit[t]
  {
    SharesAdd(ds, t);
    TimesIs(Picks(ds, t), AllDue(ds[0]));
    TimesIs(|ds|, Due(ds[0], t));
  }

  ghost predicate Between(d: Server, lo: int, hi: int)
    requires WellFormed(d)
  {
    forall t :: 0 <= t < TIERS && d.lanes[t] != [] ==> lo <= d.credit[t] <= hi
  }

  lemma WaitsOn(d: Server, t: nat, j: nat, lo: int)
    requires WellFormed(d) && t < TIERS && j < TIERS && j != t && d.lanes[t] != [] && NextLane(d).0 != t && d.credit[t] >= lo
    ensures var credit := NextLane(d).1;
            && credit[t] == d.credit[t] + t + 1 && (d.lanes[j] == [] ==> credit[j] == d.credit[j])
            && (d.lanes[j] != [] && d.credit[j] >= lo - AllDue(d) ==> credit[j] >= lo - AllDue(d))
  {
    PickAt(d, t);
    PickAt(d, j);
  }

  // while t waits no lane falls further than one payment below where all began
  lemma {:induction false} WaitingHolds(ds: seq<Server>, t: nat, j: nat, lo: int, hi: int)
    requires ds != [] && Series(ds) && t < TIERS && j < TIERS && j != t && ds[0].lanes[t] != [] && Picks(ds, t) == 0 && Between(ds[0], lo, hi)
    ensures CreditAfter(ds)[t] >= ds[0].credit[t]
    ensures CreditAfter(ds)[j] >= if ds[0].lanes[j] == [] then ds[0].credit[j] else lo - AllDue(ds[0])
  {
    var front, last := ds[..|ds| - 1], ds[|ds| - 1];
    PicksLast(ds, t);
    if |ds| > 1 {
      SeriesFront(ds);
      WaitingHolds(front, t, j, lo, hi);
    }
    WaitsOn(last, t, j, lo);
  }

  lemma {:induction false} SeriesBalance(ds: seq<Server>)
    requires ds != [] && Series(ds)
    ensures var a, b := ds[0].credit, CreditAfter(ds); b[0] + b[1] + b[2] + b[3] == a[0] + a[1] + a[2] + a[3]
  {
    var last := ds[|ds| - 1];
    PickAt(last, 0);
    PickAt(last, 1);
    PickAt(last, 2);
    PickAt(last, 3);
    if |ds| > 1 {
      SeriesFront(ds);
      SeriesBalance(ds[..|ds| - 1]);
    }
  }

  // what one of four gains the three others lose
  lemma GainIsLoss(a: seq<int>, b: seq<int>, t: nat, m: int)
    requires |a| == |b| == 4 && t < 4 && a[0] + a[1] + a[2] + a[3] == b[0] + b[1] + b[2] + b[3]
    requires forall j :: 0 <= j < 4 && j != t ==> a[j] - b[j] <= m
    ensures b[t] - a[t] <= 3 * m
  {
  }

  lemma WaitedAtMost(ds: seq<Server>, t: nat, lo: int, hi: int)
    requires ds != [] && Series(ds) && t < TIERS && ds[0].lanes[t] != [] && Between(ds[0], lo, hi) && Picks(ds, t) == 0
    ensures CreditAfter(ds)[t] - ds[0].credit[t] <= 3 * (hi - lo + 10)
  {
    SeriesBalance(ds);
    forall j: nat | j < TIERS && j != t ensures ds[0].credit[j] - CreditAfter(ds)[j] <= hi - lo + 10 { WaitingHolds(ds, t, j, lo, hi); }
    GainIsLoss(ds[0].credit, CreditAfter(ds), t, hi - lo + 10);
  }

  /** A lane with knocks is never passed over for long: where the credits of the lanes
      with knocks lie between lo and hi, lane t has its turn before t + 1 times the picks
      exceed 3 * (hi - lo + 10). */
  lemma NeverNone(ds: seq<Server>, t: nat, lo: int, hi: int)
    requires ds != [] && Series(ds) && t < TIERS && ds[0].lanes[t] != [] && Between(ds[0], lo, hi)
    requires |ds| * (t + 1) > 3 * (hi - lo + 10)
    ensures Picks(ds, t) > 0
  {
    if Picks(ds, t) == 0 {
      WaitedAtMost(ds, t, lo, hi);
      SharesByWeight(ds, t);
      assert false;
    }
  }
}
