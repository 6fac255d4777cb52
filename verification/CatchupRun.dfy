/**
 Whole runs of connections to our relay's entries over time. Wraps carry stamps as much
 as ten hours older than their arrival, and a window reaches twelve hours below its base
 (engine/nostr.go), so the book must never let a base pass a wrap that is stored and
 was not handed over. Connections are apart from entries: an entry is dialled again
 while the walk of its last connection may still be about to book, a socket may be
 dead before its answer is booked, and a runner may start again beside the old one.
 */
module CatchupRun {
  import opened Stamps
  import opened Walk
  import opened Book

  const WINDOW := 12 * 3600
  const JITTER := 10 * 3600
  // an event stamped ahead raises the anchor at most this far over the clock
  const SLACK := 300
  // what a connection asks for that carries on from a mark
  const RESUME_LIMIT := 5

  datatype Wrap = Wrap(ev: Event, arrived: Stamp)

  // age: a wrap that was due and is missing on the ground of skip arrived then or later
  datatype Phase =
    | Dialled                                          // connected, nothing asked yet
    | Asking                                           // the first answer is coming
    | Full(from: Stamp)                                // it came full
    | Walking(from: Stamp, skip: Mark, age: Stamp)     // the walk under it has its mark
    | Stopped                                          // the walk stopped short
    | Caught(from: Stamp, skip: Mark, age: Stamp)      // the window is in

  // due: what was missing as it subscribed, at asked. while up and subscribed the
  // relay hands over live what it takes; heard is when that ended
  datatype Link = Link(conn: Conn, began: Stamp, asked: Stamp, heard: Stamp, due: set<Wrap>, up: bool, phase: Phase) {
    predicate Listening() { up && !phase.Dialled? }
    function HeardTo(now: Stamp): Stamp { if up then now else heard }
  }

  // store: all the relay ever took; missing: the part not handed over. ages: per
  // mark in the book, as in Phase. links from first on are the last runner's
  datatype State = State(now: Stamp, anchor: Stamp, disk: Stamp, book: Ledger, ages: map<Key, Stamp>,
                         links: map<nat, Link>, next: nat, first: nat, store: set<Wrap>, missing: set<Wrap>) {
    function AgeOf(k: Key): Stamp { if k in ages then ages[k] else 0 }
  }

  function Min(a: Stamp, b: Stamp): Stamp { if a < b then a else b }

  // where the window from base begins; 0 asks for everything
  function Since(base: Stamp): Stamp { if base > WINDOW then base - WINDOW else 0 }

  function Raise(anchor: Stamp, moved: Stamp): Stamp { if moved > anchor then moved else anchor }

  // ---- the steps ----

  // what moves the anchor: a wrap that was handed over, read at some time
  datatype Move = Still | By(w: Wrap, read: Stamp) {
    function To(): Stamp { if Still? then 0 else Min(w.ev.at, read + SLACK) }
  }

  // what a connection books, or moves the anchor by
  datatype Booking =
    | KeepFirst(oldest: Stamp)
    | AnswerShort(how: Move)
    | AnswerFull(limit: nat, from: Stamp)
    | WalkCut(until: Stamp)
    | WalkDone(how: Move)
    | LiveMove(how: Move)
    | Refused

  datatype Step =
    | Tick(to: Stamp)
    | Arrive(w: Wrap)
    | Connect(k: Key, last: Stamp)
    | Subscribe(id: nat)
    | BeginWalk(id: nat)
    | Book(id: nat, what: Booking)
    | Drop(id: nat)
    | Save(disk: Stamp)
    | Start
    | Restart

  predicate Fits(p: Phase, what: Booking) {
    match what
    case WalkCut(_) => p.Walking?
    case WalkDone(_) => p.Walking?
    case LiveMove(_) => p.Caught?
    case _ => p.Asking?
  }

  function MoveOf(what: Booking): Move {
    match what
    case AnswerShort(m) => m
    case WalkDone(m) => m
    case LiveMove(m) => m
    case _ => Still
  }

  function CutMark(p: Phase, until: Stamp): Mark
    requires p.Walking?
  {
    Mark(MaxStamp(p.from, p.skip.top), until)
  }

  function Booked(b: Ledger, l: Link, now: Stamp, what: Booking): Ledger
    requires Fits(l.phase, what)
  {
    match what
    case KeepFirst(oldest) => b.KeepFirst(l.conn, oldest, now + SLACK)
    case AnswerShort(_) => b.Done(l.conn, false)
    case AnswerFull(_, _) => b.Owe(l.conn)
    case WalkCut(until) => b.Cut(l.conn, CutMark(l.phase, until))
    case WalkDone(_) => b.Done(l.conn, l.phase.skip.Started())
    case LiveMove(_) => b
    case Refused => b.Refused(l.conn)
  }

  function PhaseAfter(p: Phase, what: Booking): Phase
    requires Fits(p, what)
  {
    match what
    case AnswerShort(_) => Caught(0, NO_MARK, 0)
    case AnswerFull(_, from) => Full(from)
    case WalkCut(_) => Stopped
    case WalkDone(_) => Caught(p.from, p.skip, p.age)
    case Refused => Stopped
    case _ => p
  }

  // since when a wrap may be missing on the ground of the mark a booking leaves
  function AgesAfter(s: State, l: Link, what: Booking): map<Key, Stamp>
    requires Fits(l.phase, what)
  {
    var k, heard := l.conn.key, l.HeardTo(s.now);
    match what
    case KeepFirst(oldest) =>
      var m := s.book.MarkOf(k);
      if oldest <= 0 || s.book.Covered(l.conn) || (m.Started() && oldest > m.top) then s.ages
      else s.ages[k := if m.Started() then Min(s.AgeOf(k), heard) else heard]
    case WalkCut(until) =>
      if s.book.Covered(l.conn) || !CutMark(l.phase, until).Started() then s.ages
      else s.ages[k := if l.phase.skip.Started() then Min(l.phase.age, heard) else heard]
    case _ => s.ages
  }

  // whether a due wrap stamped at may still be missing after the booking
  predicate Left(l: Link, what: Booking, at: Stamp)
    requires Fits(l.phase, what)
  {
    match what
    case KeepFirst(oldest) => at <= oldest
    case AnswerShort(_) => false
    case AnswerFull(_, from) => at <= from
    case WalkCut(until) => at <= until || at > l.phase.from || l.phase.skip.Ground(at)
    case WalkDone(_) => at > l.phase.from || l.phase.skip.Ground(at)
    case _ => true
  }

  // of the wraps that were due, those in the window the answers brought are in
  ghost predicate Took(l: Link, what: Booking, missing: set<Wrap>)
    requires Fits(l.phase, what)
  {
    forall w :: w in missing && w in l.due && w.ev.at >= Since(l.conn.base) ==> Left(l, what, w.ev.at)
  }

  function InWindow(store: set<Wrap>, base: Stamp, from: Stamp): set<Wrap> {
    set w | w in store && w.ev.at >= from && w.ev.at >= Since(base)
  }

  // an answer is full when it brought as many as were asked for, and a first answer
  // cut short is kept from a stamp it brought
  ghost predicate CanBook(s: State, id: nat, what: Booking) {
    && id in s.links && Fits(s.links[id].phase, what)
    && (what.KeepFirst? && what.oldest > 0 ==> exists w :: w in s.store && w.ev.at == what.oldest)
    && (what.AnswerFull? ==>
        && what.limit in (if s.links[id].conn.resumed then {RESUME_LIMIT} else {20, 100})
        && what.from > 0 && |InWindow(s.store, s.links[id].conn.base, what.from)| >= what.limit)
    && (MoveOf(what).By? ==> MoveOf(what).w in s.store && MoveOf(what).read <= s.now)
  }

  ghost predicate SomeoneListens(s: State) {
    exists id :: id in s.links && s.links[id].Listening()
  }

  ghost predicate Next(own: seq<Key>, s: State, step: Step, s': State) {
    match step
    case Tick(to) =>
      to >= s.now && s' == s.(now := to)
    case Arrive(w) =>
      && w !in s.store && w.arrived == s.now && w.ev.at > 0 && w.ev.at >= s.now - JITTER
      && s' == s.(store := s.store + {w}, missing := if SomeoneListens(s) then s.missing else s.missing + {w})
    case Connect(k, last) =>
      && k in own && last <= s.anchor && last <= s.now
      && s' == s.(links := s.links[s.next := Link(s.book.Connect(k, own, last, s.now), s.now, 0, s.now, {}, true, Dialled)],
                  next := s.next + 1)
    case Subscribe(id) =>
      && id in s.links && s.links[id].phase.Dialled? && s.links[id].up
      && s' == s.(links := s.links[id := s.links[id].(due := s.missing, asked := s.now, phase := Asking)])
    case BeginWalk(id) =>
      && id in s.links && s.links[id].phase.Full?
      && var k := s.links[id].conn.key;
      && s' == s.(links := s.links[id := s.links[id].(phase := Walking(s.links[id].phase.from, s.book.MarkOf(k), s.AgeOf(k)))])
    case Book(id, what) =>
      && CanBook(s, id, what)
      && var l := s.links[id];
      && s'.missing <= s.missing && Took(l, what, s'.missing)
      && (MoveOf(what).By? ==> MoveOf(what).w !in s'.missing)
      && s' == s.(book := Booked(s.book, l, s.now, what), ages := AgesAfter(s, l, what),
                  anchor := Raise(s.anchor, MoveOf(what).To()),
                  links := s.links[id := l.(phase := PhaseAfter(l.phase, what))], missing := s'.missing)
    case Drop(id) =>
      && id in s.links && s.links[id].up
      && s' == s.(links := s.links[id := s.links[id].(up := false, heard := s.now)])
    case Save(disk) =>
      0 <= disk <= Low(own, s) && s' == s.(disk := disk)
    case Start =>
      s' == s.(book := s.book.Start(own, Min(s.disk, s.now), s.now), first := s.next)
    case Restart =>
      && var anchor := Min(s.disk, s.now);
      && s' == s.(anchor := anchor, book := EMPTY.Start(own, anchor, s.now), ages := map[], links := map[], first := s.next)
  }

  // a fresh install: no file, an empty book held from the start
  ghost predicate Init(own: seq<Key>, s: State) {
    && s.now > 0 && s.anchor == 0 && s.disk == 0 && s.ages == map[] && s.links == map[] && s.first == s.next
    && s.store == {} && s.missing == {}
    && s.book == EMPTY.Start(own, 0, s.now)
  }

  // ---- the bound ----

  /** No wrap that is stored and was not handed over lies under the window a next
      connection on any entry asks for, whatever the clock then says, nor under the
      one a restart would take from the file. */
  ghost predicate Bound(own: seq<Key>, s: State) {
    forall w :: w in s.missing ==>
      && (forall k, last :: k in own && last <= s.anchor ==> w.ev.at >= Since(s.book.Connect(k, own, last, s.now).base))
      && w.ev.at >= Since(s.disk)
  }

  // the lowest base a next connection can have
  function Low(own: seq<Key>, s: State): Stamp { s.book.LowestFrom(own, s.anchor) }

  // ---- the invariant ----

  ghost predicate WrapOK(own: seq<Key>, s: State, w: Wrap) {
    && w.arrived <= s.now && w.ev.at >= w.arrived - JITTER && w.ev.at > 0
    && w.ev.at >= s.disk - WINDOW && w.ev.at >= Low(own, s) - WINDOW
  }

  // nothing missing on the mark's ground arrived before age
  ghost predicate NoOlder(missing: set<Wrap>, m: Mark, age: Stamp) {
    forall w :: w in missing && m.Ground(w.ev.at) ==> w.arrived >= age
  }

  ghost predicate FirstTook(missing: set<Wrap>, l: Link, from: Stamp) {
    forall w :: w in missing && w in l.due ==> w.ev.at <= from
  }

  ghost predicate PhaseOK(now: Stamp, missing: set<Wrap>, l: Link) {
    match l.phase
    case Full(from) => FirstTook(missing, l, from)
    case Walking(from, skip, age) => age <= now && FirstTook(missing, l, from) && NoOlder(missing * l.due, skip, age)
    case Caught(from, skip, age) =>
      && age <= now && FirstTook(missing, l, from)
      && forall w :: w in missing && w in l.due ==> skip.Ground(w.ev.at) && w.arrived >= age
    case _ => true
  }

  // what is missing and was not due came after the connection was last heard
  ghost predicate LinkOK(own: seq<Key>, now: Stamp, store: set<Wrap>, missing: set<Wrap>, l: Link) {
    && l.conn.key in own && l.conn.base <= l.began <= l.heard <= now
    && l.due <= store
    && (forall w :: w in missing ==> w.ev.at >= l.conn.base - WINDOW)
    && (!l.phase.Dialled? ==>
        && l.began <= l.asked <= l.HeardTo(now)
        && forall w :: w in missing ==> if w in l.due then w.arrived <= l.asked else !l.up && w.arrived >= l.heard)
    && PhaseOK(now, missing, l)
  }

  ghost predicate MarkOK(s: State, k: Key) {
    s.AgeOf(k) <= s.now && NoOlder(s.missing, s.book.MarkOf(k), s.AgeOf(k))
  }

  ghost predicate Inv(own: seq<Key>, s: State) {
    && s.now > 0 && 0 <= s.anchor <= s.now + SLACK && 0 <= s.disk <= s.now + SLACK && s.missing <= s.store
    && (forall w :: w in s.missing ==> WrapOK(own, s, w))
    && (forall k :: MarkOK(s, k))
    && (forall id :: id in s.links ==> id < s.next && LinkOK(own, s.now, s.store, s.missing, s.links[id]))
  }

  // ---- exactly when a booking keeps the bound ----

  // no wrap still to be fetched is stamped under this, as far as the connection knows
  function Least(own: seq<Key>, s: State, l: Link): Stamp {
    MaxStamp(1, MaxStamp(Low(own, s), MaxStamp(l.conn.base, s.disk)) - WINDOW)
  }

  // where the window begins after the booking
  function LowAfter(own: seq<Key>, s: State, l: Link, what: Booking): Stamp
    requires Fits(l.phase, what)
  {
    Booked(s.book, l, s.now, what).LowestFrom(own, Raise(s.anchor, MoveOf(what).To())) - WINDOW
  }

  // how far up a booking leaves due wraps it did not step over
  function LeftTo(l: Link, what: Booking, least: Stamp): Stamp
    requires Fits(l.phase, what)
  {
    match what
    case KeepFirst(oldest) => oldest
    case AnswerFull(_, from) => from
    case WalkCut(until) => Min(until, l.phase.from)
    case Refused => least
    case _ => 0
  }

  predicate StepsOver(l: Link, what: Booking)
    requires Fits(l.phase, what)
  {
    (what.WalkCut? || what.WalkDone? || what.LiveMove?) && l.phase.skip.Started()
  }

  // the least stamp of a wrap on the ground stepped over that was due
  function LeastOver(l: Link, least: Stamp): Stamp
    requires l.phase.Walking? || l.phase.Caught?
  {
    MaxStamp(least, MaxStamp(l.phase.skip.cursor + 1, l.phase.age - JITTER))
  }

  // a wrap that can still be missing after the booking: one that was due, or one that
  // came after the socket was last heard
  predicate MayLeave(l: Link, what: Booking, w: Wrap, due: bool)
    requires Fits(l.phase, what)
  {
    && w.ev.at >= w.arrived - JITTER
    && if !due then !l.up && w.arrived >= l.heard
       else
         && w.arrived <= l.asked && Left(l, what, w.ev.at)
         && (l.phase.Walking? || l.phase.Caught? ==>
             w.ev.at <= l.phase.from && (l.phase.skip.Ground(w.ev.at) ==> w.arrived >= l.phase.age))
         && (l.phase.Caught? ==> l.phase.skip.Ground(w.ev.at))
  }

  // a window from low down covers every stamp, from least up, that a wrap left by the
  // booking can have: one that was due and not fetched, one that came after the socket
  // was last heard, and one on the ground the walk stepped over
  predicate Covers(l: Link, what: Booking, least: Stamp, low: Stamp)
    requires Fits(l.phase, what)
  {
    var unfetched := if StepsOver(l, what) && l.phase.skip.Ground(least) then l.phase.skip.top + 1 else least;
    && (unfetched <= LeftTo(l, what, least) ==> low <= unfetched)
    && (!l.up ==> low <= MaxStamp(least, l.heard - JITTER))
    && (StepsOver(l, what) && l.phase.age <= l.asked && LeastOver(l, least) <= Min(l.phase.skip.top, l.phase.from)
        ==> low <= LeastOver(l, least))
  }

  /** The window after the booking covers all the booking may leave. */
  predicate Safe(own: seq<Key>, s: State, l: Link, what: Booking)
    requires Fits(l.phase, what)
  {
    Covers(l, what, Least(own, s, l), LowAfter(own, s, l, what))
  }

  // ---- the walk's result as a step ----

  ghost function Events(ws: set<Wrap>): set<Event> {
    set w | w in ws :: w.ev
  }

  /** A walk's result is what WalkCut and WalkDone take: of the wraps that were due from
      the relay's store when it began, none in the window above where it stopped is
      missing, but on the ground it stepped over. */
  lemma WalkFeedsStep(store: set<Event>, l: Link, missing: set<Wrap>, got: set<Event>, what: Booking)
    requires Fits(l.phase, what) && (what.WalkCut? || what.WalkDone?) && Events(l.due) <= store
    requires Covered(store, Since(l.conn.base), if what.WalkCut? then what.until else 0, l.phase.from, l.phase.skip, got)
    requires forall w :: w in l.due ==> w.ev.at > 0
    ensures var left := set w | w in missing && w.ev !in got;
            left <= missing && Took(l, what, left)
  {
    var left := set w | w in missing && w.ev !in got;
    forall w | w in left && w in l.due && w.ev.at >= Since(l.conn.base) ensures Left(l, what, w.ev.at) {
      assert w.ev in Events(l.due) && w.ev !in got;
    }
  }
}
