/**
 Runs in which a connection books before the next one on its entry connects. There the
 bound of CatchupRun holds on one entry of our relay whatever happens, and on several
 as long as no pass that stepped over walked ground lets the last hold go.
 */
module CatchupTimely {
  import opened Stamps
  import opened Walk
  import opened Book
  import opened CatchupRun
  import opened CatchupProof

  // ---- what is asked of a run ----

  // the last connection of the last runner on its entry
  ghost predicate Current(s: State, id: nat) {
    && id in s.links && id >= s.first
    && forall j :: j in s.links && s.links[j].conn.key == s.links[id].conn.key ==> j <= id
  }

  predicate Alone(own: seq<Key>, k: Key) { forall j :: j in own ==> j == k }

  predicate MovesAnchor(what: Booking) { what.AnswerShort? || what.WalkDone? || what.LiveMove? }

  // a pass that stepped over stretches, on a connection that resumed, whose own
  // hold a pass on another entry took meanwhile, and which lets go of every hold
  // there is
  ghost predicate LeavesNothingHeld(b: Ledger, c: Conn) {
    && c.resumed && !b.HoldOf(c.key).Held()
    && b.AnyHeld(c.twins)
    && forall k :: k in c.twins && b.HoldOf(k).Held() ==> b.HoldOf(k).floor >= c.base
  }

  // a dead socket's pass is booked with nothing read off it later: on one entry that
  // is harmless. on several the socket is up
  ghost predicate Timely(own: seq<Key>, s: State, step: Step) {
    step.Book? && CanBook(s, step.id, step.what) ==>
      var l := s.links[step.id];
      && Current(s, step.id) && !step.what.Refused?
      && (MovesAnchor(step.what) ==> l.up || (Alone(own, l.conn.key) && MoveOf(step.what).To() <= l.heard + SLACK))
      && (step.what.WalkDone? && l.phase.skip.Started() ==> !LeavesNothingHeld(s.book, l.conn))
  }

  // ---- the invariant of such runs ----

  // some entry's hold keeps the window under at
  ghost predicate HeldUnder(own: seq<Key>, b: Ledger, at: Stamp) {
    exists k :: k in own && b.HoldOf(k).Held() && at >= b.HoldOf(k).floor - WINDOW
  }

  ghost predicate DueHeld(own: seq<Key>, b: Ledger, missing: set<Wrap>, l: Link) {
    forall w :: w in missing && w in l.due ==> HeldUnder(own, b, w.ev.at)
  }

  // nothing that was due is missing on the mark's ground
  ghost predicate DueOff(missing: set<Wrap>, l: Link, m: Mark) {
    forall w :: w in missing && w in l.due ==> !m.Ground(w.ev.at)
  }

  // a hold's floor is no later than its walk's beginning, and a mark belongs to a
  // held walk and names only ground that was in as that walk began
  ghost predicate EntryOK(s: State, k: Key) {
    && (s.book.HoldOf(k).Held() ==> s.book.HoldOf(k).floor <= s.book.HoldOf(k).began <= s.now)
    && (s.book.MarkOf(k).Started() ==> s.book.HoldOf(k).Held() && s.book.HoldOf(k).began <= s.AgeOf(k))
  }

  ghost predicate ConnOK(own: seq<Key>, l: Link) {
    && l.conn.own && l.conn.twins == Others(own, l.conn.key)
    && l.conn.base <= l.conn.owed.floor <= l.conn.owed.began <= l.began
    && l.conn.owed.Held()
    && (!l.conn.resumed ==> l.conn.owed == Hold(l.conn.base, l.began))
  }

  // the entry's hold is what the connection owes, or what it found; a pass on
  // another entry since it connected left only a hold from below that pass
  ghost predicate HoldOK(b: Ledger, l: Link) {
    var k := l.conn.key;
    var h, f := b.HoldOf(k), b.FreedOf(k);
    && f.n >= l.conn.freed
    && (h.Held() ==> l.conn.owed.floor <= h.floor)
    && (h.Held() && !l.phase.Caught? && (l.conn.resumed || l.phase.Full? || l.phase.Walking?) ==> h == l.conn.owed)
    && (h.Held() && !l.phase.Caught? && f.n != l.conn.freed ==> h.floor < f.from)
    && (!l.conn.resumed && b.MarkOf(k).Started() ==> h == l.conn.owed && !l.phase.Dialled?)
  }

  ghost predicate WalkOK(own: seq<Key>, b: Ledger, missing: set<Wrap>, l: Link) {
    && (!l.conn.resumed ==> DueOff(missing, l, b.MarkOf(l.conn.key)))
    && (l.phase.Walking? && l.phase.skip.Started() ==>
        && l.conn.owed.began <= l.phase.age
        && (!l.conn.resumed ==> DueOff(missing, l, l.phase.skip))
        && (!b.HoldOf(l.conn.key).Held() ==> DueHeld(own, b, missing, l)))
    && (l.phase.Caught? ==> DueHeld(own, b, missing, l))
  }

  ghost predicate CurrentOK(own: seq<Key>, s: State, l: Link) {
    && ConnOK(own, l) && HoldOK(s.book, l) && WalkOK(own, s.book, s.missing, l)
    && (Alone(own, l.conn.key) ==> s.anchor <= l.HeardTo(s.now) + SLACK)
  }

  ghost predicate Inv2(own: seq<Key>, s: State) {
    && Inv(own, s)
    && (forall k :: k in own ==> EntryOK(s, k))
    && (forall id :: Current(s, id) ==> CurrentOK(own, s, s.links[id]))
  }

  // ---- steps that book nothing ----

  // of the wraps that were due fewer are missing as time goes on
  lemma CurrentLasts(own: seq<Key>, s: State, l: Link, s': State)
    requires CurrentOK(own, s, l) && s'.book == s.book && s'.anchor == s.anchor && s'.now >= s.now
    requires forall w :: w in s'.missing && w in l.due ==> w in s.missing
    ensures CurrentOK(own, s', l)
  {
  }

  lemma TickKeeps2(own: seq<Key>, s: State, to: Stamp, s': State)
    requires Inv2(own, s) && Next(own, s, Tick(to), s')
    ensures Inv2(own, s')
  {
    OtherStepKeeps(own, s, Tick(to), s');
    forall k | k in own ensures EntryOK(s', k) { assert EntryOK(s, k); }
    forall id | Current(s', id) ensures CurrentOK(own, s', s'.links[id]) {
      assert Current(s, id);
      CurrentLasts(own, s, s.links[id], s');
    }
  }

  lemma ArriveKeeps2(own: seq<Key>, s: State, w: Wrap, s': State)
    requires Inv2(own, s) && Next(own, s, Arrive(w), s')
    ensures Inv2(own, s')
  {
    OtherStepKeeps(own, s, Arrive(w), s');
    forall k | k in own ensures EntryOK(s', k) { assert EntryOK(s, k); }
    forall id | Current(s', id) ensures CurrentOK(own, s', s'.links[id]) {
      assert Current(s, id) && s.links[id].due <= s.store;
      CurrentLasts(own, s, s.links[id], s');
    }
  }

  // what a connection takes from the book holds of the book it took it from
  lemma NewLinkOK(own: seq<Key>, s: State, k: Key, last: Stamp, s': State)
    requires Inv2(own, s) && Next(own, s, Connect(k, last), s')
    ensures CurrentOK(own, s', s'.links[s.next])
  {
    assert EntryOK(s, k);
    BaseIsLow(own, s, k, last);
    assert s.book.HoldOf(k).Held() ==> Low(own, s) <= s.book.HoldOf(k).floor;
  }

  // an entry's new connection leaves the others' last ones as they are
  lemma CurrentElsewhere(s: State, l: Link, s': State, id: nat)
    requires s'.links == s.links[s.next := l] && s'.first == s.first && s.next !in s.links
    requires Current(s', id) && id != s.next
    ensures Current(s, id)
  {
    assert forall j :: j in s.links ==> j in s'.links && s'.links[j] == s.links[j];
  }

  lemma ConnectKeeps2(own: seq<Key>, s: State, k: Key, last: Stamp, s': State)
    requires Inv2(own, s) && Next(own, s, Connect(k, last), s')
    ensures Inv2(own, s')
  {
    OtherStepKeeps(own, s, Connect(k, last), s');
    forall j | j in own ensures EntryOK(s', j) { assert EntryOK(s, j); }
    forall id | Current(s', id) ensures CurrentOK(own, s', s'.links[id]) {
      if id == s.next {
        NewLinkOK(own, s, k, last, s');
      } else {
        CurrentElsewhere(s, s'.links[s.next], s', id);
        CurrentLasts(own, s, s.links[id], s');
      }
    }
  }

  // a step that changes one link alone
  lemma LinkStepKeeps2(own: seq<Key>, s: State, id: nat, l: Link, s': State)
    requires Inv2(own, s) && Inv(own, s') && id in s.links && s' == s.(links := s.links[id := l])
    requires l.conn == s.links[id].conn && (Current(s, id) ==> CurrentOK(own, s', l))
    ensures Inv2(own, s')
  {
    forall k | k in own ensures EntryOK(s', k) { assert EntryOK(s, k); }
    forall j | Current(s', j) ensures CurrentOK(own, s', s'.links[j]) {
      SameCurrent(s, id, l, s', j);
      if j != id { CurrentLasts(own, s, s.links[j], s'); }
    }
  }

  lemma SameCurrent(s: State, id: nat, l: Link, s': State, j: nat)
    requires id in s.links && s'.links == s.links[id := l] && l.conn == s.links[id].conn && s'.first == s.first
    ensures Current(s', j) == Current(s, j)
  {
    assert forall i :: i in s.links ==> s'.links[i].conn == s.links[i].conn;
    assert s'.links.Keys == s.links.Keys;
  }

  lemma SubscribeKeeps2(own: seq<Key>, s: State, id: nat, s': State)
    requires Inv2(own, s) && Next(own, s, Subscribe(id), s')
    ensures Inv2(own, s')
  {
    OtherStepKeeps(own, s, Subscribe(id), s');
    LinkStepKeeps2(own, s, id, s'.links[id], s');
  }

  lemma BeginWalkKeeps2(own: seq<Key>, s: State, id: nat, s': State)
    requires Inv2(own, s) && Next(own, s, BeginWalk(id), s')
    ensures Inv2(own, s')
  {
    OtherStepKeeps(own, s, BeginWalk(id), s');
    assert EntryOK(s, s.links[id].conn.key);
    LinkStepKeeps2(own, s, id, s'.links[id], s');
  }

  lemma DropKeeps2(own: seq<Key>, s: State, id: nat, s': State)
    requires Inv2(own, s) && Next(own, s, Drop(id), s')
    ensures Inv2(own, s')
  {
    OtherStepKeeps(own, s, Drop(id), s');
    LinkStepKeeps2(own, s, id, s'.links[id], s');
  }

  lemma SaveKeeps2(own: seq<Key>, s: State, disk: Stamp, s': State)
    requires Inv2(own, s) && Next(own, s, Save(disk), s')
    ensures Inv2(own, s')
  {
    OtherStepKeeps(own, s, Save(disk), s');
    forall k | k in own ensures EntryOK(s', k) { assert EntryOK(s, k); }
    forall id | Current(s', id) ensures CurrentOK(own, s', s'.links[id]) {
      assert Current(s, id);
      CurrentLasts(own, s, s.links[id], s');
    }
  }

  // a runner's start makes every connection an old one
  lemma StartKeeps2(own: seq<Key>, s: State, s': State)
    requires Inv2(own, s) && Next(own, s, Start, s')
    ensures Inv2(own, s')
  {
    OtherStepKeeps(own, s, Start, s');
    forall k | k in own ensures EntryOK(s', k) {
      StartHolds(s.book, own, Min(s.disk, s.now), s.now, k);
      assert EntryOK(s, k);
    }
  }

  lemma RestartKeeps2(own: seq<Key>, s: State, s': State)
    requires Inv2(own, s) && Next(own, s, Restart, s')
    ensures Inv2(own, s')
  {
    OtherStepKeeps(own, s, Restart, s');
    forall k | k in own ensures EntryOK(s', k) {
      StartHolds(EMPTY, own, s'.anchor, s.now, k);
    }
  }

  // ---- bookings that put the entry's hold where it was or lower ----

  ghost predicate OnlyEntry(b: Ledger, k: Key, b': Ledger) {
    && b'.freed == b.freed
    && (forall j :: j != k ==> b'.HoldOf(j) == b.HoldOf(j) && b'.MarkOf(j) == b.MarkOf(j))
    && (b.HoldOf(k).Held() ==> b'.HoldOf(k).Held() && b'.HoldOf(k).floor <= b.HoldOf(k).floor)
  }

  predicate SetsHold(what: Booking) { what.KeepFirst? || what.AnswerFull? || what.WalkCut? }

  lemma SetsOnlyEntry(own: seq<Key>, s: State, l: Link, what: Booking)
    requires Fits(l.phase, what) && SetsHold(what) && CurrentOK(own, s, l)
    ensures OnlyEntry(s.book, l.conn.key, Booked(s.book, l, s.now, what))
  {
  }

  // a hold put back or lowered keeps under it all that was
  lemma StillHeld(own: seq<Key>, b: Ledger, k: Key, b': Ledger, at: Stamp)
    requires OnlyEntry(b, k, b') && HeldUnder(own, b, at)
    ensures HeldUnder(own, b', at)
  {
    var j :| j in own && b.HoldOf(j).Held() && at >= b.HoldOf(j).floor - WINDOW;
    assert b'.HoldOf(j).Held() && at >= b'.HoldOf(j).floor - WINDOW;
  }

  lemma OtherLinkKeeps(own: seq<Key>, s: State, k: Key, s': State, l: Link)
    requires CurrentOK(own, s, l) && l.conn.key != k && k in own
    requires OnlyEntry(s.book, k, s'.book) && s'.missing <= s.missing
    ensures CurrentOK(own, s', l)
  {
    forall w | w in s'.missing && HeldUnder(own, s.book, w.ev.at) ensures HeldUnder(own, s'.book, w.ev.at) {
      StillHeld(own, s.book, k, s'.book, w.ev.at);
    }
  }

  lemma DueLeft(own: seq<Key>, s: State, id: nat, what: Booking, s': State, w: Wrap)
    requires Inv(own, s) && Next(own, s, Book(id, what), s') && w in s'.missing && w in s.links[id].due
    ensures Left(s.links[id], what, w.ev.at)
  {
    LeftMayBe(own, s, id, what, s', w);
  }

  // the book's side of a booking, with the entry's mark in mind
  ghost predicate BookOK(own: seq<Key>, b: Ledger, missing: set<Wrap>, l: Link) {
    && ConnOK(own, l) && HoldOK(b, l) && WalkOK(own, b, missing, l)
    && (b.MarkOf(l.conn.key).Started() ==> b.HoldOf(l.conn.key).Held())
  }

  lemma KeepFirstOK(own: seq<Key>, b: Ledger, missing: set<Wrap>, l: Link, oldest: Stamp, top: Stamp)
    requires BookOK(own, b, missing, l) && l.phase.Asking?
    requires forall w :: w in missing && w in l.due ==> w.ev.at <= oldest
    ensures var b' := b.KeepFirst(l.conn, oldest, top);
            HoldOK(b', l) && WalkOK(own, b', missing, l)
  {
  }

  lemma AnswerFullOK(own: seq<Key>, b: Ledger, missing: set<Wrap>, l: Link, from: Stamp)
    requires BookOK(own, b, missing, l) && l.phase.Asking?
    ensures var b', l' := b.Owe(l.conn), l.(phase := Full(from));
            HoldOK(b', l') && WalkOK(own, b', missing, l')
  {
  }

  lemma WalkCutOK(own: seq<Key>, b: Ledger, missing: set<Wrap>, l: Link, until: Stamp)
    requires BookOK(own, b, missing, l) && l.phase.Walking?
    requires forall w :: w in missing && w in l.due ==> w.ev.at <= until || l.phase.skip.Ground(w.ev.at)
    ensures var b', l' := b.Cut(l.conn, CutMark(l.phase, until)), l.(phase := Stopped);
            HoldOK(b', l') && WalkOK(own, b', missing, l')
  {
  }

  lemma FewerMissing(own: seq<Key>, b: Ledger, missing: set<Wrap>, l: Link, missing': set<Wrap>)
    requires WalkOK(own, b, missing, l) && missing' <= missing
    ensures WalkOK(own, b, missing', l)
  {
  }

  lemma SetHoldLink(own: seq<Key>, s: State, id: nat, what: Booking, s': State)
    requires Inv2(own, s) && Next(own, s, Book(id, what), s') && Current(s, id) && SetsHold(what)
    ensures CurrentOK(own, s', s'.links[id])
  {
    var l := s.links[id];
    assert l.conn.key in own && EntryOK(s, l.conn.key) by { assert LinkOK(own, s.now, s.store, s.missing, l); }
    FewerMissing(own, s.book, s.missing, l, s'.missing);
    forall w | w in s'.missing && w in l.due ensures Left(l, what, w.ev.at) {
      DueLeft(own, s, id, what, s', w);
    }
    match what
    case KeepFirst(oldest) => KeepFirstOK(own, s.book, s'.missing, l, oldest, s.now + SLACK);
    case AnswerFull(limit, from) => AnswerFullOK(own, s.book, s'.missing, l, from);
    case WalkCut(until) =>
      assert FirstTook(s'.missing, l, l.phase.from) by { assert LinkOK(own, s.now, s.store, s.missing, l); }
      WalkCutOK(own, s.book, s'.missing, l, until);
  }

  // a mark is left with the hold of the walk that made it, which began no later than
  // anything came that is missing on its ground
  lemma SetHoldEntry(own: seq<Key>, s: State, l: Link, what: Booking, s': State)
    requires LinkOK(own, s.now, s.store, s.missing, l) && CurrentOK(own, s, l) && EntryOK(s, l.conn.key)
    requires Fits(l.phase, what) && SetsHold(what)
    requires s'.book == Booked(s.book, l, s.now, what) && s'.ages == AgesAfter(s, l, what) && s'.now == s.now
    ensures EntryOK(s', l.conn.key)
  {
  }

  lemma SetHoldCovers(own: seq<Key>, s: State, id: nat, what: Booking, s': State)
    requires Inv2(own, s) && Next(own, s, Book(id, what), s') && Current(s, id) && SetsHold(what)
    ensures Inv(own, s')
  {
    SetsOnlyEntry(own, s, s.links[id], what);
    LowFalls(own, s.book, s.anchor, s'.book, s'.anchor);
    forall w | w in s'.missing ensures w.ev.at >= Low(own, s') - WINDOW {
      assert WrapOK(own, s, w);
    }
    BookKeeps(own, s, id, what, s');
  }

  lemma SetHoldEntries(own: seq<Key>, s: State, id: nat, what: Booking, s': State, j: Key)
    requires Inv2(own, s) && Next(own, s, Book(id, what), s') && Current(s, id) && SetsHold(what) && j in own
    ensures EntryOK(s', j)
  {
    var l := s.links[id];
    assert LinkOK(own, s.now, s.store, s.missing, l) && EntryOK(s, j);
    if j == l.conn.key { SetHoldEntry(own, s, l, what, s'); } else { SetsOnlyEntry(own, s, l, what); }
  }

  lemma SetHoldOthers(own: seq<Key>, s: State, id: nat, what: Booking, s': State, j: nat)
    requires Inv2(own, s) && Next(own, s, Book(id, what), s') && Current(s, id) && SetsHold(what)
    requires Current(s, j) && j != id
    ensures CurrentOK(own, s', s'.links[j])
  {
    var l := s.links[id];
    assert l.conn.key in own by { assert LinkOK(own, s.now, s.store, s.missing, l); }
    SetsOnlyEntry(own, s, l, what);
    OtherLinkKeeps(own, s, l.conn.key, s', s.links[j]);
  }

  lemma SetHoldKeeps2(own: seq<Key>, s: State, id: nat, what: Booking, s': State)
    requires Inv2(own, s) && Next(own, s, Book(id, what), s') && Current(s, id) && SetsHold(what)
    ensures Inv2(own, s')
  {
    SetHoldCovers(own, s, id, what, s');
    forall j | j in own ensures EntryOK(s', j) {
      SetHoldEntries(own, s, id, what, s', j);
    }
    forall j | Current(s', j) ensures CurrentOK(own, s', s'.links[j]) {
      SameCurrent(s, id, s'.links[id], s', j);
      if j == id { SetHoldLink(own, s, id, what, s'); } else { SetHoldOthers(own, s, id, what, s', j); }
    }
  }

  // ---- passes ----

  // what a pass leaves of each entry
  lemma AfterDone(b: Ledger, c: Conn, stepped: bool, j: Key)
    requires c.own && c.key !in c.twins
    ensures var b', h := b.Done(c, stepped), b.HoldOf(j);
      if j == c.key then b'.HoldOf(j) == h.Done(stepped) && b'.MarkOf(j) == NO_MARK && b'.FreedOf(j) == b.FreedOf(j)
      else if j in c.twins then
        && b'.FreedOf(j).n > b.FreedOf(j).n && b'.FreedOf(j).from == c.base
        && (if h.Held() && h.floor >= c.base then b'.HoldOf(j) == NO_HOLD && b'.MarkOf(j) == NO_MARK
            else b'.HoldOf(j) == h && b'.MarkOf(j) == b.MarkOf(j))
      else b'.HoldOf(j) == h && b'.MarkOf(j) == b.MarkOf(j) && b'.FreedOf(j) == b.FreedOf(j)
  {
    var b0 := b.(marks := b.marks - {c.key});
    var b1 := b0.SetHold(c.key, b0.HoldOf(c.key).Done(stepped));
    FreeAllHolds(b1, c.twins, c.base, j);
    FreeAllCounts(b1, c.twins, c.base, j);
  }

  // what a walk that reached the bottom leaves of the due lies on ground it stepped
  // over, came after its walk began, and stays under a hold
  lemma WalkDoneHolds(own: seq<Key>, s: State, id: nat, how: Move, s': State, w: Wrap)
    requires Inv2(own, s) && Next(own, s, Book(id, WalkDone(how)), s') && Timely(own, s, Book(id, WalkDone(how)))
    requires w in s'.missing && w in s.links[id].due
    ensures HeldUnder(own, s'.book, w.ev.at)
  {
    var l := s.links[id];
    var c := l.conn;
    LeftMayBe(own, s, id, WalkDone(how), s', w);
    assert l.phase.skip.Ground(w.ev.at) && w.arrived >= l.phase.age;
    AfterDone(s.book, c, true, c.key);
    assert c.key in own && w.ev.at >= c.base - WINDOW by { assert LinkOK(own, s.now, s.store, s.missing, l); }
    if !s.book.HoldOf(c.key).Held() {
      var i :| i in own && s.book.HoldOf(i).Held() && w.ev.at >= s.book.HoldOf(i).floor - WINDOW;
      assert i in c.twins;
      var j :| j in c.twins && s.book.HoldOf(j).Held() && s.book.HoldOf(j).floor < c.base;
      AfterDone(s.book, c, true, j);
    } else {
      assert EntryOK(s, c.key);
    }
  }

  lemma PassHolds(own: seq<Key>, s: State, id: nat, what: Booking, s': State, w: Wrap)
    requires Inv2(own, s) && Next(own, s, Book(id, what), s') && Timely(own, s, Book(id, what)) && MovesAnchor(what)
    requires w in s'.missing && w in s.links[id].due
    ensures HeldUnder(own, s'.book, w.ev.at)
  {
    LeftMayBe(own, s, id, what, s', w);
    if what.WalkDone? {
      WalkDoneHolds(own, s, id, what.how, s', w);
    }
  }

  lemma PassCovers(own: seq<Key>, s: State, id: nat, what: Booking, s': State, w: Wrap)
    requires Inv2(own, s) && Next(own, s, Book(id, what), s') && Timely(own, s, Book(id, what)) && MovesAnchor(what)
    requires w in s'.missing
    ensures w.ev.at >= Low(own, s') - WINDOW
  {
    if w in s.links[id].due {
      PassHolds(own, s, id, what, s', w);
    } else {
      LeftMayBe(own, s, id, what, s', w);
      assert s'.anchor <= s.links[id].heard + SLACK;
    }
  }

  // the links of the other entries, when all that is missing is under a hold
  lemma OtherLinkPasses(own: seq<Key>, s: State, c: Conn, stepped: bool, s': State, l: Link)
    requires CurrentOK(own, s, l) && l.conn.key in own && l.conn.key != c.key && c.own && c.twins == Others(own, c.key)
    requires c.key in own && s'.book == s.book.Done(c, stepped) && s'.missing <= s.missing
    requires forall w :: w in s'.missing ==> HeldUnder(own, s'.book, w.ev.at)
    ensures CurrentOK(own, s', l)
  {
    AfterDone(s.book, c, stepped, l.conn.key);
  }

  // while the socket is up all that is missing was due
  lemma AllHeldAfter(own: seq<Key>, s: State, id: nat, what: Booking, s': State)
    requires Inv2(own, s) && Next(own, s, Book(id, what), s') && Timely(own, s, Book(id, what)) && MovesAnchor(what)
    requires s.links[id].up
    ensures forall w :: w in s'.missing ==> HeldUnder(own, s'.book, w.ev.at)
  {
    assert LinkOK(own, s.now, s.store, s.missing, s.links[id]);
    forall w | w in s'.missing ensures HeldUnder(own, s'.book, w.ev.at) {
      PassHolds(own, s, id, what, s', w);
    }
  }

  lemma OwnEntryPasses(own: seq<Key>, s: State, id: nat, what: Booking, s': State)
    requires Inv2(own, s) && Next(own, s, Book(id, what), s') && Timely(own, s, Book(id, what)) && MovesAnchor(what)
    ensures CurrentOK(own, s', s'.links[id])
  {
    var l := s.links[id];
    var c := l.conn;
    assert LinkOK(own, s.now, s.store, s.missing, l) && EntryOK(s, c.key);
    if !what.LiveMove? {
      AfterDone(s.book, c, what.WalkDone? && l.phase.skip.Started(), c.key);
    }
    forall w | w in s'.missing && w in l.due ensures HeldUnder(own, s'.book, w.ev.at) {
      PassHolds(own, s, id, what, s', w);
    }
  }

  lemma EntryPasses(own: seq<Key>, s: State, id: nat, what: Booking, s': State, j: Key)
    requires Inv2(own, s) && Next(own, s, Book(id, what), s') && Current(s, id) && MovesAnchor(what) && j in own
    ensures EntryOK(s', j)
  {
    var l := s.links[id];
    assert EntryOK(s, j);
    if !what.LiveMove? {
      AfterDone(s.book, l.conn, what.WalkDone? && l.phase.skip.Started(), j);
    }
  }

  lemma PassKeeps2(own: seq<Key>, s: State, id: nat, what: Booking, s': State)
    requires Inv2(own, s) && Next(own, s, Book(id, what), s') && Timely(own, s, Book(id, what)) && MovesAnchor(what)
    ensures Inv2(own, s')
  {
    var l := s.links[id];
    forall w | w in s'.missing ensures w.ev.at >= Low(own, s') - WINDOW {
      PassCovers(own, s, id, what, s', w);
    }
    BookKeeps(own, s, id, what, s');
    forall j | j in own ensures EntryOK(s', j) {
      EntryPasses(own, s, id, what, s', j);
    }
    forall j | Current(s', j) ensures CurrentOK(own, s', s'.links[j]) {
      SameCurrent(s, id, s'.links[id], s', j);
      if j == id {
        OwnEntryPasses(own, s, id, what, s');
      } else {
        OtherCurrentPasses(own, s, id, what, s', j);
      }
    }
  }

  lemma OtherCurrentPasses(own: seq<Key>, s: State, id: nat, what: Booking, s': State, j: nat)
    requires Inv2(own, s) && Next(own, s, Book(id, what), s') && Timely(own, s, Book(id, what)) && MovesAnchor(what)
    requires Current(s, j) && j != id
    ensures CurrentOK(own, s', s'.links[j])
  {
    var l, m := s.links[id], s.links[j];
    assert LinkOK(own, s.now, s.store, s.missing, l) && LinkOK(own, s.now, s.store, s.missing, m);
    assert m.conn.key != l.conn.key && !Alone(own, l.conn.key) && !Alone(own, m.conn.key);
    AllHeldAfter(own, s, id, what, s');
    if !what.LiveMove? {
      OtherLinkPasses(own, s, l.conn, what.WalkDone? && l.phase.skip.Started(), s', m);
    }
  }

  // ---- runs ----

  lemma InitHolds2(own: seq<Key>, s: State)
    requires Init(own, s)
    ensures Inv2(own, s)
  {
    InitHolds(own, s);
    forall k | k in own ensures EntryOK(s, k) {
      StartHolds(EMPTY, own, 0, s.now, k);
    }
  }

  lemma StepKeeps2(own: seq<Key>, s: State, step: Step, s': State)
    requires Inv2(own, s) && Next(own, s, step, s') && Timely(own, s, step)
    ensures Inv2(own, s')
  {
    match step
    case Tick(to) => TickKeeps2(own, s, to, s');
    case Arrive(w) => ArriveKeeps2(own, s, w, s');
    case Connect(k, last) => ConnectKeeps2(own, s, k, last, s');
    case Subscribe(id) => SubscribeKeeps2(own, s, id, s');
    case BeginWalk(id) => BeginWalkKeeps2(own, s, id, s');
    case Book(id, what) =>
      if SetsHold(what) { SetHoldKeeps2(own, s, id, what, s'); } else { PassKeeps2(own, s, id, what, s'); }
    case Drop(id) => DropKeeps2(own, s, id, s');
    case Save(disk) => SaveKeeps2(own, s, disk, s');
    case Start => StartKeeps2(own, s, s');
    case Restart => RestartKeeps2(own, s, s');
  }

  /** Any interleaving of connections on our relay's entries: as long as each books
      before its entry's next one connects and no stepped pass lets the last hold go,
      nothing missing is ever under a next window. */
  lemma {:induction false} EntriesKeepBound(own: seq<Key>, states: seq<State>, steps: seq<Step>, n: nat)
    requires IsRun(own, states, steps) && n < |states|
    requires forall i :: 0 <= i < n ==> Timely(own, states[i], steps[i])
    ensures Inv2(own, states[n]) && Bound(own, states[n])
  {
    if n == 0 {
      InitHolds2(own, states[0]);
    } else {
      EntriesKeepBound(own, states, steps, n - 1);
      StepKeeps2(own, states[n - 1], steps[n - 1], states[n]);
    }
    InvGivesBound(own, states[n]);
  }

  // booked before the next connection on the entry, and nothing read off a dead socket
  // moves the anchor past when it was last heard
  ghost predicate InOrder(s: State, step: Step) {
    step.Book? && CanBook(s, step.id, step.what) ==>
      && Current(s, step.id) && !step.what.Refused?
      && (s.links[step.id].up || MoveOf(step.what).To() <= s.links[step.id].heard + SLACK)
  }

  /** On a single entry every run in that order keeps the bound: there is no
      other entry whose pass could take a hold, and a pass booked after its socket died
      leaves only wraps stamped inside the window from when it was last heard. */
  lemma {:induction false} OneEntryKeepsBound(key: Key, states: seq<State>, steps: seq<Step>, n: nat)
    requires IsRun([key], states, steps) && n < |states|
    requires forall i :: 0 <= i < n ==> InOrder(states[i], steps[i])
    ensures Inv2([key], states[n]) && Bound([key], states[n])
  {
    if n == 0 {
      InitHolds2([key], states[0]);
    } else {
      OneEntryKeepsBound(key, states, steps, n - 1);
      var s, step := states[n - 1], steps[n - 1];
      assert Next([key], s, step, states[n]) && InOrder(s, step);
      if step.Book? {
        assert LinkOK([key], s.now, s.store, s.missing, s.links[step.id]);
        assert !s.book.AnyHeld(s.links[step.id].conn.twins);
      }
      StepKeeps2([key], s, step, states[n]);
    }
    InvGivesBound([key], states[n]);
  }
}
