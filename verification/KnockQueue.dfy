/**
 The knocks waiting (relay-live/knock_send.go): lanes per push server, the servers
 with knocks waiting in two rings, and what is in flight.
 */
module KnockQueue {
  import KnockTable

  type URL = KnockTable.URL

  const TIERS := 4
  const PUSH_QUEUE := 2048
  const SHARED_QUEUE := 1024
  const SERVER_QUEUE := 64
  const PER_SERVER := 2
  const PER_PUSH_SERVER := 8
  const SHARED_WORKERS := 16

  // a server's record. uid tells it from a later record of the same server, which a
  // ring may still hold
  datatype Server = Server(uid: nat, push: bool, eps: int, lanes: seq<seq<URL>>, decoys: seq<URL>, credit: seq<int>, inRing: bool, inflight: int)

  datatype Ref = Ref(name: string, uid: nat)

  datatype EP = EP(uid: nat, queuedReal: bool, queuedDecoy: bool)

  // flying holds the server of each post taken and not yet over
  datatype Queue = Queue(eps: map<URL, EP>, servers: map<string, Server>, pushRing: seq<Ref>, sharedRing: seq<Ref>, turn: bool,
                         queued: int, sharedQueued: int, sharedBusy: int, flying: multiset<string>, nextUid: nat)

  datatype Job = NoJob | Job(url: URL, uid: nat, decoy: bool)

  const EMPTY := Queue(map[], map[], [], [], false, 0, 0, 0, multiset{}, 0)

  function Waiting(d: Server): nat
    requires |d.lanes| == TIERS
  {
    |d.decoys| + |d.lanes[0]| + |d.lanes[1]| + |d.lanes[2]| + |d.lanes[3]|
  }

  function QueueCap(d: Server): nat { if d.push then PUSH_QUEUE else SERVER_QUEUE }
  function BusyCap(d: Server): nat { if d.push then PER_PUSH_SERVER else PER_SERVER }

  // ---- lanes by weighted turns ----

  function Weight(t: nat): nat { t + 1 }

  function Give(d: Server, t: nat): Server
    requires |d.lanes| == |d.credit| == TIERS && t < TIERS
  {
    if d.lanes[t] == [] then d else d.(credit := d.credit[t := d.credit[t] + Weight(t)])
  }

  // turns given to the first n lanes, those with knocks
  function Given(d: Server, n: nat): (r: Server)
    requires |d.lanes| == |d.credit| == TIERS && n <= TIERS
    ensures r == d.(credit := r.credit) && |r.credit| == TIERS
  {
    if n == 0 then d else Give(Given(d, n - 1), n - 1)
  }

  // the lane with the most turns owed among the first n, the earlier of two alike
  function Best(d: Server, n: nat): (t: int)
    requires |d.lanes| == |d.credit| == TIERS && n <= TIERS
    ensures -1 <= t < n
    ensures t >= 0 ==> d.lanes[t] != [] && (forall i :: 0 <= i < n && d.lanes[i] != [] ==> d.credit[i] <= d.credit[t])
    ensures t >= 0 ==> forall i :: 0 <= i < t && d.lanes[i] != [] ==> d.credit[i] < d.credit[t]
    ensures t < 0 ==> forall i :: 0 <= i < n ==> d.lanes[i] == []
  {
    if n == 0 then -1
    else
      var t := Best(d, n - 1);
      if d.lanes[n - 1] != [] && (t < 0 || d.credit[n - 1] > d.credit[t]) then n - 1 else t
  }

  function Total(d: Server, n: nat): nat
    requires |d.lanes| == TIERS && n <= TIERS
  {
    if n == 0 then 0 else Total(d, n - 1) + (if d.lanes[n - 1] == [] then 0 else Weight(n - 1))
  }

  // which lane goes next, -1 when all are empty, and everyone's credit afterwards
  function NextLane(d: Server): (r: (int, seq<int>))
    requires |d.lanes| == |d.credit| == TIERS
    ensures |r.1| == TIERS && -1 <= r.0 < TIERS && (r.0 >= 0 ==> d.lanes[r.0] != [])
    ensures r.0 < 0 <==> forall t :: 0 <= t < TIERS ==> d.lanes[t] == []
  {
    var g := Given(d, |d.lanes|);
    var t := Best(g, |d.lanes|);
    (t, if t >= 0 then g.credit[t := g.credit[t] - Total(d, |d.lanes|)] else g.credit)
  }

  // ---- the operations under the lock ----

  function Ring(q: Queue, push: bool): seq<Ref> { if push then q.pushRing else q.sharedRing }

  function WithRing(q: Queue, push: bool, ring: seq<Ref>): Queue {
    if push then q.(pushRing := ring) else q.(sharedRing := ring)
  }

  // the server's new record, in its ring
  function InRing(q: Queue, name: string, d: Server): Queue {
    var q1 := q.(servers := q.servers[name := d.(inRing := true)]);
    if d.inRing then q1 else WithRing(q1, d.push, Ring(q, d.push) + [Ref(name, d.uid)])
  }

  function NewServer(q: Queue, push: bool): Server { Server(q.nextUid, push, 0, [[], [], [], []], [], [0, 0, 0, 0], false, 0) }

  function NewEP(q: Queue, push: set<string>, u: URL): Queue {
    var d := if u.domain in q.servers then q.servers[u.domain] else NewServer(q, u.domain in push);
    q.(eps := q.eps[u := EP(q.nextUid + 1, false, false)], servers := q.servers[u.domain := d.(eps := d.eps + 1)], nextUid := q.nextUid + 2)
  }

  function Shared(d: Server): int { if d.push then 0 else 1 }

  // one more knock waits
  function Put(q: Queue, u: URL, d: Server, e: EP): Queue {
    InRing(q.(eps := q.eps[u := e], queued := q.queued + 1, sharedQueued := q.sharedQueued + Shared(d)), u.domain, d)
  }

  predicate Homed(q: Queue, u: URL) { u in q.eps && u.domain in q.servers && |q.servers[u.domain].lanes| == TIERS }

  function JoinDecoy(q: Queue, u: URL): Queue
    requires Homed(q, u)
  {
    var d := q.servers[u.domain];
    Put(q, u, d.(decoys := d.decoys + [u]), q.eps[u].(queuedDecoy := true))
  }

  function JoinReal(q: Queue, u: URL, tier: nat): Queue
    requires Homed(q, u) && tier < TIERS
  {
    var d := q.servers[u.domain];
    Put(q, u, d.(lanes := d.lanes[tier := d.lanes[tier] + [u]]), q.eps[u].(queuedReal := true))
  }

  // room for one more: a lane is as long as the server's queue, the newest one shares
  // its length with the decoys, and decoys only fill half
  predicate HasRoom(q: Queue, u: URL, decoy: bool, tier: nat)
    requires Homed(q, u) && tier < TIERS
  {
    var d := q.servers[u.domain];
    var newer := |d.lanes[0]| + |d.decoys|;
    if decoy then newer < QueueCap(d) / 2 && (d.push || q.sharedQueued < SHARED_QUEUE / 2)
    else if tier > 0 then |d.lanes[tier]| < QueueCap(d)
    else newer < QueueCap(d) && (d.push || q.sharedQueued < SHARED_QUEUE)
  }

  // queued unless the endpoint has such a place, is not the one meant, or finds no room
  function Add(q: Queue, u: URL, uid: nat, decoy: bool, tier: nat): Queue
    requires (u in q.eps ==> Homed(q, u)) && tier < TIERS
  {
    if u !in q.eps || q.eps[u].uid != uid || q.eps[u].queuedReal || (decoy && q.eps[u].queuedDecoy) then q
    else if !HasRoom(q, u, decoy, tier) then q
    else if decoy then JoinDecoy(q, u)
    else JoinReal(q, u, tier)
  }

  function Without(s: seq<URL>, u: URL): seq<URL> {
    if s == [] then [] else if s[0] == u then s[1..] else [s[0]] + Without(s[1..], u)
  }

  predicate Idle(d: Server)
    requires |d.lanes| == TIERS
  {
    d.eps <= 0 && Waiting(d) == 0 && d.inflight == 0
  }

  function Leave(d: Server, u: URL): Server
    requires |d.lanes| == TIERS
  {
    d.(lanes := [Without(d.lanes[0], u), Without(d.lanes[1], u), Without(d.lanes[2], u), Without(d.lanes[3], u)],
       decoys := Without(d.decoys, u))
  }

  function Replace(q: Queue, name: string, d: Server): Queue
    requires |d.lanes| == TIERS
  {
    q.(servers := if Idle(d) then q.servers - {name} else q.servers[name := d])
  }

  // all places of an endpoint are given up, and an idle server's record with the last
  function LetGo(q: Queue, u: URL): Queue
    requires u in q.eps && u.domain in q.servers && |q.servers[u.domain].lanes| == TIERS
  {
    var d := q.servers[u.domain];
    var d' := Leave(d.(eps := d.eps - 1), u);
    var n := Waiting(d) - Waiting(d');
    Replace(q.(eps := q.eps - {u}, queued := q.queued - n, sharedQueued := q.sharedQueued - n * Shared(d)), u.domain, d')
  }

  function Over(q: Queue, name: string): Queue
    requires name in q.servers ==> |q.servers[name].lanes| == TIERS
  {
    if name !in q.servers then q
    else
      var d := q.servers[name];
      Replace(q.(sharedBusy := q.sharedBusy - Shared(d), flying := q.flying - multiset{name}), name, d.(inflight := d.inflight - 1))
  }

  // one place less, one post more
  function Counted(q: Queue, name: string, d: Server, u: URL, e: EP): Queue {
    q.(eps := q.eps[u := e], queued := q.queued - 1, sharedQueued := q.sharedQueued - Shared(d),
       sharedBusy := q.sharedBusy + Shared(d), flying := q.flying + multiset{name})
  }

  // the server's knock goes out
  function Out(q: Queue, name: string, d: Server, u: URL, e: EP): Queue
    requires |d.lanes| == TIERS
  {
    var d' := d.(inflight := d.inflight + 1);
    var q1 := Counted(q, name, d, u, e);
    if Waiting(d') > 0 then InRing(q1, name, d') else q1.(servers := q1.servers[name := d'])
  }

  predicate Busy(q: Queue, d: Server) { d.inflight >= BusyCap(d) || (!d.push && q.sharedBusy >= SHARED_WORKERS) }

  // lanes and credits are there, and what waits is a live endpoint's
  predicate ShapedOne(live: set<URL>, d: Server) {
    && |d.lanes| == |d.credit| == TIERS && (forall u :: u in d.decoys ==> u in live)
    && (forall t, u :: 0 <= t < TIERS && u in d.lanes[t] ==> u in live)
  }

  predicate Shaped(q: Queue) { forall name :: name in q.servers ==> ShapedOne(q.eps.Keys, q.servers[name]) }

  // the head of a ring taken off it
  function Popped(q: Queue, push: bool): Queue
    requires Ring(q, push) != []
  {
    WithRing(q, push, Ring(q, push)[1..])
  }

  // the head is a server's record as it is now, not one left over
  predicate HeadLive(q: Queue, push: bool) {
    Ring(q, push) != [] && Ring(q, push)[0].name in q.servers && q.servers[Ring(q, push)[0].name].uid == Ring(q, push)[0].uid
  }

  // the head's record with the flag off, and the ring without it
  function Called(q: Queue, push: bool): Queue
    requires Ring(q, push) != [] && Ring(q, push)[0].name in q.servers
  {
    var name := Ring(q, push)[0].name;
    Popped(q, push).(servers := q.servers[name := q.servers[name].(inRing := false)])
  }

  datatype Choice = Stale | Nothing | Later | Real(lane: nat, credit: seq<int>) | Decoy

  // what a choice says of the server at the head
  predicate Fits(q: Queue, push: bool, pace: set<string>, c: Choice)
    requires Ring(q, push) != []
  {
    var name := Ring(q, push)[0].name;
    (c.Stale? <==> !HeadLive(q, push)) &&
    (HeadLive(q, push) ==>
       var d := q.servers[name];
       && |d.lanes| == TIERS && (c.Nothing? ==> Waiting(d) == 0)
       && (c.Real? || c.Decoy? ==> !Busy(q, d) && name in pace)
       && (c.Real? ==> c.lane < TIERS == |c.credit| && d.lanes[c.lane] != [] && d.lanes[c.lane][0] in q.eps)
       && (c.Decoy? ==> Waiting(d) == |d.decoys| > 0 && d.decoys[0] in q.eps))
  }

  // what the first server of a ring does with its turn. pace holds the servers with a
  // token to spare, decoys tells whether the budget leaves room for one
  function Choose(q: Queue, push: bool, pace: set<string>, decoys: bool): (c: Choice)
    requires Shaped(q) && Ring(q, push) != []
    ensures Fits(q, push, pace, c)
  {
    if !HeadLive(q, push) then Stale
    else
      var name := Ring(q, push)[0].name;
      var d := q.servers[name];
      assert ShapedOne(q.eps.Keys, d);
      if Waiting(d) == 0 then Nothing
      else if Busy(q, d) || name !in pace then Later
      else
        var (t, credit) := NextLane(d);
        if t >= 0 then Real(t, credit) else if decoys && d.decoys != [] then Decoy else Later
  }

  function SendReal(q: Queue, name: string, t: nat, credit: seq<int>): (Queue, Job)
    requires name in q.servers && |q.servers[name].lanes| == TIERS && t < TIERS
    requires q.servers[name].lanes[t] != [] && q.servers[name].lanes[t][0] in q.eps
  {
    var d := q.servers[name];
    var u := d.lanes[t][0];
    (Out(q, name, d.(lanes := d.lanes[t := d.lanes[t][1..]], credit := credit), u, q.eps[u].(queuedReal := false)), Job(u, q.eps[u].uid, false))
  }

  function SendDecoy(q: Queue, name: string): (Queue, Job)
    requires name in q.servers && |q.servers[name].lanes| == TIERS && q.servers[name].decoys != [] && q.servers[name].decoys[0] in q.eps
  {
    var d := q.servers[name];
    var u := d.decoys[0];
    (Out(q, name, d.(decoys := d.decoys[1..]), u, q.eps[u].(queuedDecoy := false)), Job(u, q.eps[u].uid, true))
  }

  function Act(q: Queue, push: bool, pace: set<string>, c: Choice): (Queue, Job)
    requires Ring(q, push) != [] && Fits(q, push, pace, c)
  {
    var name := Ring(q, push)[0].name;
    match c
    case Stale => (Popped(q, push), NoJob)
    case Nothing => (Called(q, push), NoJob)
    case Later => (InRing(Called(q, push), name, Called(q, push).servers[name]), NoJob)
    case Real(t, credit) => SendReal(Called(q, push), name, t, credit)
    case Decoy => SendDecoy(Called(q, push), name)
  }

  function Turn(q: Queue, push: bool, pace: set<string>, decoys: bool): (Queue, Job)
    requires Shaped(q) && Ring(q, push) != []
  {
    Act(q, push, pace, Choose(q, push, pace, decoys))
  }
}
