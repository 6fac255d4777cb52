/**
 The table of knock registrations (relay-live/knock.go): addresses point at endpoints,
 endpoints belong to push servers and shares, and each of those carries counters of
 what it holds and caps on them.
 */
module KnockTable {

  type Addr = nat

  // an endpoint, with the push server its host belongs to
  datatype URL = URL(domain: string, rest: string)

  // a setting of the caps is above zero
  type Cap = n: int | n > 0 witness 1

  datatype Caps = Caps(pushEps: Cap, pushRegs: Cap, sharedEps: Cap, sharedRegs: Cap, serverEps: Cap, serverRegs: Cap) {
    function Eps(name: string): Cap { if name == "" then sharedEps else pushEps }
    function Regs(name: string): Cap { if name == "" then sharedRegs else pushRegs }

    // a quarter of a server's endpoints is at least one
    predicate Fit() { serverEps >= 4 }
  }

  const DEFAULT_CAPS := Caps(20000, 80000, 20000, 80000, 256, 1024)

  const MAX_REGS_PER_EP := 256
  const UNCHECKED_EPS := 8
  const SKEW := 2 * 3600
  const TTL := 30 * 24 * 3600

  // uid tells an endpoint from a later one on the same url
  datatype EP = EP(uid: nat, keys: set<Addr>, unchecked: bool)

  datatype Reg = Reg(url: URL, made: int, expires: int, first: int)

  // a push server's counters: endpoints, registrations, new endpoints, and new ones
  // whose name passed unchecked
  datatype Server = Server(eps: int, regs: int, pending: int, unchecked: int)

  // a public push server's share, or everyone else's ("")
  datatype Share = Share(eps: int, regs: int, pending: set<URL>)

  datatype Table = Table(regs: map<Addr, Reg>, forgets: map<Addr, int>, eps: map<URL, EP>,
                         servers: map<string, Server>, shares: map<string, Share>, nextUid: nat, caps: Caps)

  function Empty(caps: Caps): Table { Table(map[], map[], map[], map[], map[], 0, caps) }

  const NO_SERVER := Server(0, 0, 0, 0)
  const NO_SHARE := Share(0, 0, {})

  function ServerOf(t: Table, name: string): Server { if name in t.servers then t.servers[name] else NO_SERVER }

  function ShareName(push: set<string>, domain: string): string { if domain in push then domain else "" }

  function ShareOf(t: Table, name: string): Share { if name in t.shares then t.shares[name] else NO_SHARE }

  // ---- the operations under the lock ----

  // off the counts of endpoints still to prove themselves
  function Settle(t: Table, push: set<string>, u: URL): Table
    requires u in t.eps
  {
    var name := ShareName(push, u.domain);
    var sh, d := ShareOf(t, name), ServerOf(t, u.domain);
    if u !in sh.pending then t
    else
      t.(shares := t.shares[name := sh.(pending := sh.pending - {u})],
         servers := t.servers[u.domain := d.(pending := d.pending - 1, unchecked := d.unchecked - (if t.eps[u].unchecked then 1 else 0))],
         eps := t.eps[u := t.eps[u].(unchecked := false)])
  }

  // a server's record goes with its last endpoint when the server is idle: no knock
  // waits for it and none is on its way
  function DropEP(t: Table, push: set<string>, u: URL, idle: bool): Table
    requires u in t.eps
  {
    var t1 := Settle(t, push, u);
    var name := ShareName(push, u.domain);
    var sh, d := ShareOf(t1, name), ServerOf(t1, u.domain);
    var d' := d.(eps := d.eps - 1);
    t1.(eps := t1.eps - {u}, shares := t1.shares[name := sh.(eps := sh.eps - 1)],
        servers := if d'.eps <= 0 && idle then t1.servers - {u.domain} else t1.servers[u.domain := d'])
  }

  // one registration off its endpoint's, server's and share's counts
  function Unregister(t: Table, push: set<string>, key: Addr): Table
    requires key in t.regs && t.regs[key].url in t.eps
  {
    var u := t.regs[key].url;
    var name := ShareName(push, u.domain);
    var sh, d := ShareOf(t, name), ServerOf(t, u.domain);
    t.(regs := t.regs - {key}, eps := t.eps[u := t.eps[u].(keys := t.eps[u].keys - {key})],
       servers := t.servers[u.domain := d.(regs := d.regs - 1)], shares := t.shares[name := sh.(regs := sh.regs - 1)])
  }

  function Drop(t: Table, push: set<string>, key: Addr, idle: bool): Table
    requires key in t.regs ==> t.regs[key].url in t.eps
  {
    if key !in t.regs then t
    else
      var u := t.regs[key].url;
      var t1 := Unregister(t, push, key);
      if t1.eps[u].keys == {} then DropEP(t1, push, u, idle) else t1
  }

  function NewEP(t: Table, push: set<string>, u: URL): Table {
    var name := ShareName(push, u.domain);
    var sh, d := ShareOf(t, name), ServerOf(t, u.domain);
    t.(eps := t.eps[u := EP(t.nextUid, {}, false)], nextUid := t.nextUid + 1,
       servers := t.servers[u.domain := d.(eps := d.eps + 1, pending := d.pending + 1)],
       shares := t.shares[name := sh.(eps := sh.eps + 1, pending := sh.pending + {u})])
  }

  // one registration onto an endpoint that is there
  function Register(t: Table, push: set<string>, key: Addr, r: Reg): Table
    requires r.url in t.eps
  {
    var u := r.url;
    var name := ShareName(push, u.domain);
    var sh, d := ShareOf(t, name), ServerOf(t, u.domain);
    t.(regs := t.regs[key := r], eps := t.eps[u := t.eps[u].(keys := t.eps[u].keys + {key})],
       servers := t.servers[u.domain := d.(regs := d.regs + 1)], shares := t.shares[name := sh.(regs := sh.regs + 1)])
  }

  function Set(t: Table, push: set<string>, key: Addr, u: URL, made: int, expires: int, now: int, idle: bool): Table
    requires key in t.regs ==> t.regs[key].url in t.eps
  {
    if key in t.regs && t.regs[key].url == u then
      t.(regs := t.regs[key := t.regs[key].(made := made, expires := expires)])
    else
      var t1 := Drop(t, push, key, idle);
      var t2 := if u in t1.eps then t1 else NewEP(t1, push, u);
      Register(t2, push, key, Reg(u, made, expires, if key in t.regs then t.regs[key].first else now))
  }

  // remembers that the endpoint's name was never looked up, for as long as it is pending
  function NoteUnchecked(t: Table, push: set<string>, u: URL): Table
    requires u in t.eps
  {
    var d := ServerOf(t, u.domain);
    if u in ShareOf(t, ShareName(push, u.domain)).pending && !t.eps[u].unchecked then
      t.(eps := t.eps[u := t.eps[u].(unchecked := true)], servers := t.servers[u.domain := d.(unchecked := d.unchecked + 1)])
    else t
  }

  // ---- what a registration is checked for ----

  datatype Kept = Nothing | Made(at: int, forget: bool)

  // the newest signed change the table knows for an address
  function KeptFor(t: Table, key: Addr): Kept {
    if key in t.forgets && (key !in t.regs || t.forgets[key] >= t.regs[key].made) then Made(t.forgets[key], true)
    else if key in t.regs then Made(t.regs[key].made, false)
    else Nothing
  }

  // strictly later, or as late and a forget against a registration
  predicate IsNewer(t: Table, key: Addr, made: int, forget: bool) {
    match KeptFor(t, key)
    case Nothing => true
    case Made(at, wasForget) => made > at || (made == at && forget && !wasForget)
  }

  // newcomers are turned away at nineteen twentieths, known addresses only at the cap
  predicate Fills(n: int, max: int, known: bool) { if known then n >= max else n >= max - max / 20 }

  predicate HasRoom(t: Table, push: set<string>, key: Addr, u: URL) {
    var name := ShareName(push, u.domain);
    var sh, d, known := ShareOf(t, name), ServerOf(t, u.domain), key in t.regs;
    && (if u !in t.eps then
          && !Fills(sh.eps, t.caps.Eps(name), known) && !(name == "" && u.domain in t.servers && d.eps >= t.caps.serverEps)
          && !(name != "" && |sh.pending| >= t.caps.Eps(name) / 10)
          && !(name == "" && u.domain in t.servers && d.pending >= t.caps.serverEps / 4)
        else |t.eps[u].keys| < MAX_REGS_PER_EP)
    && !Fills(sh.regs, t.caps.Regs(name), known) && !(name == "" && u.domain in t.servers && d.regs >= t.caps.serverRegs)
  }

  predicate IsRenewal(t: Table, key: Addr, u: URL) { key in t.regs && t.regs[key].url == u }

  // a registration the relay would take
  predicate Admits(t: Table, push: set<string>, key: Addr, u: URL, made: int, now: int) {
    && now - SKEW <= made <= now + SKEW
    && IsNewer(t, key, made, false)
    && (IsRenewal(t, key, u) || HasRoom(t, push, key, u))
  }

  // ---- the invariant ----

  // what is counted together: a server's, or a share's
  datatype Per = PerServer | PerShare(push: set<string>)

  function Group(per: Per, domain: string): string {
    match per
    case PerServer => domain
    case PerShare(push) => ShareName(push, domain)
  }

  ghost function LiveOf(eps: map<URL, EP>, per: Per, name: string): set<URL> { set u | u in eps && Group(per, u.domain) == name }
  ghost function RegsOf(regs: map<Addr, Reg>, per: Per, name: string): set<Addr> {
    set k | k in regs && Group(per, regs[k].url.domain) == name
  }
  ghost function PendOf(pending: set<URL>, domain: string): set<URL> { set u | u in pending && u.domain == domain }
  ghost function UncheckedOf(eps: map<URL, EP>, domain: string): set<URL> { set u | u in eps && eps[u].unchecked && u.domain == domain }

  // registrations and endpoints name each other; forgets are for addresses that have none
  ghost predicate RefsOK(t: Table, push: set<string>) {
    && (forall k :: k in t.regs ==> t.regs[k].url in t.eps && k in t.eps[t.regs[k].url].keys)
    && (forall u, k :: u in t.eps && k in t.eps[u].keys ==> k in t.regs && t.regs[k].url == u)
    && (forall u :: u in t.eps ==> u.domain in t.servers)
    && (forall u :: u in t.eps && t.eps[u].unchecked ==> u in ShareOf(t, ShareName(push, u.domain)).pending)
    && t.regs.Keys !! t.forgets.Keys
    && (forall u :: u in t.eps ==> t.eps[u].uid < t.nextUid)
  }

  ghost predicate ServerOK(t: Table, push: set<string>, name: string) {
    var d := ServerOf(t, name);
    && d.eps == |LiveOf(t.eps, PerServer, name)| && d.regs == |RegsOf(t.regs, PerServer, name)|
    && d.pending == |PendOf(ShareOf(t, ShareName(push, name)).pending, name)| && d.unchecked == |UncheckedOf(t.eps, name)|
  }

  ghost predicate ShareOK(t: Table, push: set<string>, name: string) {
    var sh := ShareOf(t, name);
    && sh.eps == |LiveOf(t.eps, PerShare(push), name)| && sh.regs == |RegsOf(t.regs, PerShare(push), name)|
    && sh.pending <= LiveOf(t.eps, PerShare(push), name)
  }

  // every counter is the size of the set it counts
  ghost predicate CountsOK(t: Table, push: set<string>) {
    && RefsOK(t, push)
    && (forall name :: ServerOK(t, push, name))
    && (forall name :: ShareOK(t, push, name))
  }

  // no endpoint is left without an address
  ghost predicate AllUsed(t: Table) { forall u :: u in t.eps ==> t.eps[u].keys != {} }

  // what one server outside the list may hold
  predicate Within(caps: Caps, d: Server) {
    d.eps <= caps.serverEps && d.regs <= caps.serverRegs && d.pending <= caps.serverEps / 4 && d.unchecked <= UNCHECKED_EPS
  }

  ghost predicate CapsOK(t: Table, push: set<string>) {
    && (forall name :: ShareOf(t, name).eps <= t.caps.Eps(name) && ShareOf(t, name).regs <= t.caps.Regs(name))
    && (forall name :: name != "" ==> |ShareOf(t, name).pending| <= t.caps.Eps(name) / 10)
    && (forall d :: d !in push ==> Within(t.caps, ServerOf(t, d)))
    && (forall u :: u in t.eps ==> |t.eps[u].keys| <= MAX_REGS_PER_EP)
  }

  // "" is the shared share's name, never a push server's
  ghost predicate Valid(t: Table, push: set<string>) {
    "" !in push && t.caps.Fit() && CountsOK(t, push) && AllUsed(t) && CapsOK(t, push)
  }
}
