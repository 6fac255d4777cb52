/**
 The condition of CatchupRun is exact: a booking that is not safe does lose a wrap, in
 some state with the same holds, clock, anchor, file and connection.
 */
module CatchupGap {
  import opened Stamps
  import opened Walk
  import opened Book
  import opened CatchupRun
  import opened CatchupProof

  // all a caller knows as it books: everything but the wraps and the other connections
  ghost predicate Alike(s: State, t: State, id: nat) {
    && t.now == s.now && t.anchor == s.anchor && t.disk == s.disk
    && t.book.holds == s.book.holds && t.book.freed == s.book.freed
    && id in s.links && id in t.links && t.links[id] == s.links[id].(due := t.links[id].due)
  }

  ghost predicate Loses(own: seq<Key>, s: State, id: nat, what: Booking, t: State, t': State) {
    Alike(s, t, id) && Inv(own, t) && Next(own, t, Book(id, what), t') && !Bound(own, t')
  }

  ghost predicate CanLose(own: seq<Key>, s: State, id: nat, what: Booking) {
    exists t, t' :: Loses(own, s, id, what, t, t')
  }

  // ---- what is booked of the holds does not look at the marks ----

  lemma {:induction false} FreeAllHoldsAlike(b: Ledger, c: Ledger, ks: seq<Key>, base: Stamp)
    requires b.holds == c.holds
    ensures b.FreeAll(ks, base).holds == c.FreeAll(ks, base).holds
  {
    if ks != [] { FreeAllHoldsAlike(b, c, ks[..|ks| - 1], base); }
  }

  lemma BookedAlike(b: Ledger, c: Ledger, l: Link, m: Link, now: Stamp, what: Booking)
    requires b.holds == c.holds && b.freed == c.freed && m == l.(due := m.due) && Fits(l.phase, what)
    ensures Booked(b, l, now, what).holds == Booked(c, m, now, what).holds
  {
    if what.AnswerShort? || what.WalkDone? {
      var k, stepped := l.conn.key, what.WalkDone? && l.phase.skip.Started();
      FreeAllHoldsAlike(b.(marks := b.marks - {k}).SetHold(k, b.HoldOf(k).Done(stepped)),
                        c.(marks := c.marks - {k}).SetHold(k, c.HoldOf(k).Done(stepped)), l.conn.twins, l.conn.base);
    }
  }

  lemma LowAlike(own: seq<Key>, b: Ledger, c: Ledger, anchor: Stamp)
    requires b.holds == c.holds
    ensures b.LowestFrom(own, anchor) == c.LowestFrom(own, anchor)
  {
    assert forall k :: b.HoldOf(k) == c.HoldOf(k);
  }

  lemma LowAfterAlike(own: seq<Key>, s: State, t: State, id: nat, what: Booking)
    requires Alike(s, t, id) && Fits(s.links[id].phase, what)
    ensures LowAfter(own, s, s.links[id], what) == LowAfter(own, t, t.links[id], what)
  {
    var b, c := Booked(s.book, s.links[id], s.now, what), Booked(t.book, t.links[id], t.now, what);
    assert b.holds == c.holds by { BookedAlike(s.book, t.book, s.links[id], t.links[id], s.now, what); }
    LowAlike(own, b, c, Raise(s.anchor, MoveOf(what).To()));
  }

  lemma CoversAlike(l: Link, m: Link, what: Booking, least: Stamp, low: Stamp)
    requires m == l.(due := m.due) && Fits(l.phase, what)
    ensures Covers(l, what, least, low) == Covers(m, what, least, low)
  {
  }

  lemma SafeAlike(own: seq<Key>, s: State, t: State, id: nat, what: Booking)
    requires Alike(s, t, id) && Fits(s.links[id].phase, what)
    ensures Safe(own, s, s.links[id], what) == Safe(own, t, t.links[id], what)
  {
    var l, m := s.links[id], t.links[id];
    assert Least(own, s, l) == Least(own, t, m) by { LowAlike(own, s.book, t.book, s.anchor); }
    assert LowAfter(own, s, l, what) == LowAfter(own, t, m, what) by { LowAfterAlike(own, s, t, id, what); }
    CoversAlike(l, m, what, Least(own, s, l), LowAfter(own, s, l, what));
  }

  // ---- a state with one wrap left ----

  // s with w alone missing, due on the connection or come since
  ghost function OneLeft(s: State, id: nat, w: Wrap, due: bool): State
    requires id in s.links
  {
    var l := s.links[id].(due := if due then {w} else {});
    s.(book := s.book.(marks := map[]), ages := map[], links := map[id := l], store := s.store + {w}, missing := {w})
  }

  // a wrap the connection's booking can leave here
  ghost predicate CanBeLeft(own: seq<Key>, s: State, id: nat, what: Booking, w: Wrap, due: bool) {
    && CanBook(s, id, what) && MayLeave(s.links[id], what, w, due)
    && w.arrived <= s.now && w.ev.at >= Least(own, s, s.links[id])
    && (MoveOf(what).By? ==> w != MoveOf(what).w)
  }

  lemma OneLeftLink(own: seq<Key>, s: State, id: nat, what: Booking, w: Wrap, due: bool)
    requires id in s.links && LinkOK(own, s.now, s.store, s.missing, s.links[id]) && CanBeLeft(own, s, id, what, w, due)
    ensures var t := OneLeft(s, id, w, due); LinkOK(own, t.now, t.store, t.missing, t.links[id])
  {
  }

  lemma OneLeftHolds(own: seq<Key>, s: State, id: nat, what: Booking, w: Wrap, due: bool)
    requires Inv(own, s) && CanBeLeft(own, s, id, what, w, due)
    ensures Inv(own, OneLeft(s, id, w, due))
  {
    var t := OneLeft(s, id, w, due);
    assert Low(own, t) == Low(own, s) by { LowAlike(own, s.book, t.book, s.anchor); }
    assert WrapOK(own, t, w);
    OneLeftLink(own, s, id, what, w, due);
  }

  lemma {:induction false} FewerIn<T>(a: set<T>, b: set<T>)
    requires a <= b
    ensures |a| <= |b|
  {
    if a != {} {
      var x :| x in a;
      FewerIn(a - {x}, b - {x});
    }
  }

  lemma OneLeftBooks(own: seq<Key>, s: State, id: nat, what: Booking, w: Wrap, due: bool) returns (t': State)
    requires CanBeLeft(own, s, id, what, w, due)
    ensures Next(own, OneLeft(s, id, w, due), Book(id, what), t') && t'.missing == {w}
  {
    var t := OneLeft(s, id, w, due);
    var l := t.links[id];
    if what.AnswerFull? {
      FewerIn(InWindow(s.store, l.conn.base, what.from), InWindow(t.store, l.conn.base, what.from));
    }
    t' := t.(book := Booked(t.book, l, t.now, what), ages := AgesAfter(t, l, what),
             anchor := Raise(t.anchor, MoveOf(what).To()), links := t.links[id := l.(phase := PhaseAfter(l.phase, what))]);
  }

  // a wrap missing under the lowest base breaks the bound
  lemma UnderBreaks(own: seq<Key>, s: State, k: Key, w: Wrap)
    requires k in own && w in s.missing && 0 < w.ev.at < Low(own, s) - WINDOW
    ensures !Bound(own, s)
  {
    BaseIsLow(own, s, k, s.anchor);
    assert w.ev.at < Since(s.book.Connect(k, own, s.anchor, s.now).base);
  }

  lemma LeftUnderLoses(own: seq<Key>, s: State, id: nat, what: Booking, w: Wrap, due: bool)
    requires Inv(own, s) && CanBeLeft(own, s, id, what, w, due)
    requires w.ev.at < LowAfter(own, s, s.links[id], what)
    ensures CanLose(own, s, id, what)
  {
    var t := OneLeft(s, id, w, due);
    OneLeftHolds(own, s, id, what, w, due);
    var t' := OneLeftBooks(own, s, id, what, w, due);
    assert LowAfter(own, t, t.links[id], what) == Low(own, t') - WINDOW;
    assert w.ev.at < Low(own, t') - WINDOW by { LowAfterAlike(own, s, t, id, what); }
    assert s.links[id].conn.key in own by { assert LinkOK(own, s.now, s.store, s.missing, s.links[id]); }
    UnderBreaks(own, t', s.links[id].conn.key, w);
    assert Loses(own, s, id, what, t, t');
  }

  // ---- each way of not being safe leaves such a wrap ----

  // a wrap stamped at that is not the one the anchor moves by
  function Fresh(what: Booking, at: Stamp, arrived: Stamp): (w: Wrap)
    ensures w.ev.at == at && w.arrived == arrived && (MoveOf(what).By? ==> w != MoveOf(what).w)
  {
    Wrap(Event(if MoveOf(what).By? then MoveOf(what).w.ev.id + 1 else 0, at), arrived)
  }

  lemma NotCovered(l: Link, what: Booking, least: Stamp, low: Stamp) returns (w: Wrap, due: bool)
    requires Fits(l.phase, what) && !Covers(l, what, least, low) && least > 0
    ensures MayLeave(l, what, w, due) && least <= w.ev.at < low && (MoveOf(what).By? ==> w != MoveOf(what).w)
    ensures w.arrived <= l.asked || w.arrived == l.heard
  {
    var unfetched := if StepsOver(l, what) && l.phase.skip.Ground(least) then l.phase.skip.top + 1 else least;
    if unfetched <= LeftTo(l, what, least) && low > unfetched {
      w, due := Fresh(what, unfetched, Min(l.asked, unfetched + JITTER)), true;
    } else if !l.up && low > MaxStamp(least, l.heard - JITTER) {
      w, due := Fresh(what, MaxStamp(least, l.heard - JITTER), l.heard), false;
    } else {
      w, due := Fresh(what, LeastOver(l, least), l.phase.age), true;
    }
  }

  lemma UnsafeLoses(own: seq<Key>, s: State, id: nat, what: Booking)
    requires Inv(own, s) && CanBook(s, id, what) && !Safe(own, s, s.links[id], what)
    ensures CanLose(own, s, id, what)
  {
    var l := s.links[id];
    assert LinkOK(own, s.now, s.store, s.missing, l);
    var w, due := NotCovered(l, what, Least(own, s, l), LowAfter(own, s, l, what));
    LeftUnderLoses(own, s, id, what, w, due);
  }

  /** The condition is exact. Whatever a connection books or moves the anchor by, some
      state with the same holds, anchor, file, clock and connection loses a wrap by it if
      and only if the booking is not safe. */
  lemma LosesExactlyWhen(own: seq<Key>, s: State, id: nat, what: Booking)
    requires Inv(own, s) && CanBook(s, id, what)
    ensures CanLose(own, s, id, what) <==> !Safe(own, s, s.links[id], what)
  {
    if !Safe(own, s, s.links[id], what) {
      UnsafeLoses(own, s, id, what);
    } else if CanLose(own, s, id, what) {
      var t, t' :| Loses(own, s, id, what, t, t');
      SafeAlike(own, s, t, id, what);
      StepKeeps(own, t, Book(id, what), t');
      InvGivesBound(own, t');
      assert false;
    }
  }
}
