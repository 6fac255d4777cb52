/** Every run of take, poll and ack keeps exactly one line for each claimed id. */
module DeliveryProof {
  import opened Stamps
  import opened SeenSet
  import opened Delivery

  function Claimed(w: World, r: nat, id: ID): nat { if r in w.sets && id in w.sets[r].queued then 1 else 0 }

  // an id is claimed exactly when it has a line in the inbox or in other, and then
  // exactly one
  ghost predicate Balanced(w: World, other: seq<Line>) {
    forall r: nat, id: ID :: Count(w.inbox, r, id) + Count(other, r, id) == Claimed(w, r, id)
  }

  // tries is how often a waiting line was offered, and a line that is out was
  // offered once more
  ghost predicate TriesOK(w: World) {
    && (forall l :: l in w.inbox ==> (l.set_, l.id) in w.offers && w.offers[(l.set_, l.id)] == l.tries < POLL_MAX_TRIES)
    && (forall l :: l in Batch(w) ==> (l.set_, l.id) in w.offers && w.offers[(l.set_, l.id)] == l.tries + 1 <= POLL_MAX_TRIES)
  }

  ghost predicate Inv(w: World) {
    w.inflight.Keys <= {w.token} && Balanced(w, Batch(w)) && TriesOK(w)
  }

  // ---- the line count ----

  // ending the first of the lines that are out, and some already finished
  lemma EndBalanced(w: World, lines: seq<Line>, extra: seq<Line>, other: seq<Line>, how: Ending)
    requires Balanced(w, lines + other)
    requires forall l :: l in extra ==> Claimed(w, l.set_, l.id) == 0
    ensures Balanced(w.(sets := EndAll(w.sets, lines + extra, how)), other)
  {
    var w' := w.(sets := EndAll(w.sets, lines + extra, how));
    forall r: nat, id: ID ensures Count(w'.inbox, r, id) + Count(other, r, id) == Claimed(w', r, id) {
      CountConcat(lines, other, r, id);
      CountIsIn(lines, r, id);
      assert Count(w.inbox, r, id) + Count(lines + other, r, id) == Claimed(w, r, id);
      if r in w.sets {
        EndAllQueued(w.sets, lines + extra, how, r);
        assert IdsOf(lines + extra, r) == IdsOf(lines, r) + IdsOf(extra, r);
        if id in IdsOf(extra, r) {
          var l :| l in extra && l.set_ == r && l.id == id;
        }
      }
    }
  }

  lemma RequeueBalanced(w: World, lines: seq<Line>, other: seq<Line>)
    requires Balanced(w, lines + other)
    ensures Balanced(Requeue(w, lines), other)
  {
    var w1 := w.(inbox := Retried(lines) + w.inbox);
    forall r: nat, id: ID ensures Count(w1.inbox, r, id) + Count(Released(lines) + other, r, id) == Claimed(w1, r, id) {
      RequeueCounts(lines, r, id);
      CountConcat(Retried(lines), w.inbox, r, id);
      CountConcat(Released(lines), other, r, id);
      CountConcat(lines, other, r, id);
      assert Count(w.inbox, r, id) + Count(lines + other, r, id) == Claimed(w, r, id);
    }
    EndBalanced(w1, Released(lines), [], other, ReleaseIt);
    assert Released(lines) + [] == Released(lines);
  }

  lemma HoldBalanced(w: World, wants: seq<Want>, other: seq<Line>, now: Stamp)
    requires Balanced(w, LinesOf(wants) + other)
    ensures var w' := w.(sets := HoldAll(w.sets, wants, now).sets);
            Balanced(w', other) && forall l :: l in HoldAll(w.sets, wants, now).took ==> Claimed(w', l.set_, l.id) == 0
  {
    var w' := w.(sets := HoldAll(w.sets, wants, now).sets);
    forall r: nat, id: ID ensures Count(w'.inbox, r, id) + Count(other, r, id) == Claimed(w', r, id) {
      CountConcat(LinesOf(wants), other, r, id);
      CountIsIn(LinesOf(wants), r, id);
      assert Count(w.inbox, r, id) + Count(LinesOf(wants) + other, r, id) == Claimed(w, r, id);
      if r in w.sets { HoldAllQueued(w.sets, wants, now, r); }
    }
    forall l | l in HoldAll(w.sets, wants, now).took ensures Claimed(w', l.set_, l.id) == 0 {
      CountFound(HoldAll(w.sets, wants, now).took, l);
      HoldAllCounts(w.sets, wants, now, l.set_, l.id);
      CountIsIn(LinesOf(wants), l.set_, l.id);
      if l.set_ in w.sets { HoldAllQueued(w.sets, wants, now, l.set_); }
    }
  }

  // ---- take ----

  lemma TakeBalanced(w: World, mine: bool, unwraps: bool, l: Line)
    requires Balanced(w, Batch(w))
    ensures Balanced(Take(w, mine, unwraps, l), Batch(w))
  {
    var w' := Take(w, mine, unwraps, l);
    forall r: nat, id: ID ensures Count(w'.inbox, r, id) + Count(Batch(w), r, id) == Claimed(w', r, id) {
      CountConcat(w.inbox, [l.(tries := 0, freed := 0)], r, id);
      assert Count(w.inbox, r, id) + Count(Batch(w), r, id) == Claimed(w, r, id);
    }
  }

  // ---- poll ----

  // the inbox split: what stays, what never can go and the batch make it up
  lemma SplitBalanced(w: World, back: set<string>)
    requires Balanced(w, [])
    ensures
      var go := Tagged(w.inbox, back, false);
      Balanced(w.(inbox := Tagged(w.inbox, back, true)), Going(go, false) + Stamped(w, Going(go, true)))
  {
    var go := Tagged(w.inbox, back, false);
    var ok, gone := Going(go, true), Going(go, false);
    var batch, w2 := Stamped(w, ok), w.(inbox := Tagged(w.inbox, back, true));
    forall r: nat, id: ID ensures Count(w2.inbox, r, id) + Count(gone + batch, r, id) == Claimed(w2, r, id) {
      TaggedCounts(w.inbox, back, r, id);
      GoingCounts(go, r, id);
      StampedCounts(w, ok, r, id);
      CountConcat(gone, batch, r, id);
      assert Count(w.inbox, r, id) + Count([], r, id) == Claimed(w, r, id);
    }
  }

  lemma HandOutBalanced(w: World, back: set<string>)
    requires Balanced(w, []) && w.inflight == map[]
    ensures Balanced(HandOut(w, back), Batch(HandOut(w, back)))
  {
    SplitBalanced(w, back);
    var go := Tagged(w.inbox, back, false);
    var batch, gone := Stamped(w, Going(go, true)), Going(go, false);
    var w2 := w.(inbox := Tagged(w.inbox, back, true));
    EndBalanced(w2, gone, [], batch, KeepIt);
    assert gone + [] == gone;
    var w' := HandOut(w, back);
    assert Batch(w') == batch;
    forall r: nat, id: ID ensures Count(w'.inbox, r, id) + Count(batch, r, id) == Claimed(w', r, id) {
      assert Claimed(w', r, id) == Claimed(w2.(sets := EndAll(w2.sets, gone + [], KeepIt)), r, id);
    }
  }

  lemma PollBalanced(w: World, back: set<string>)
    requires Balanced(w, Batch(w)) && w.inflight.Keys <= {w.token}
    ensures Balanced(Poll(w, back), Batch(Poll(w, back)))
  {
    var w0 := w.(inflight := map[]);
    assert Batch(w) + [] == Batch(w);
    assert Balanced(w0, Batch(w) + []);
    RequeueBalanced(w0, Batch(w), []);
    HandOutBalanced(Requeue(w0, Batch(w)), back);
  }

  // ---- ack ----

  lemma LetGoBalanced(w: World, paths: set<string>, other: seq<Line>)
    requires Balanced(w, other)
    ensures Balanced(LetGo(w, paths), other)
  {
    forall r: nat, id: ID ensures Claimed(LetGo(w, paths), r, id) == Claimed(w, r, id) {
    }
  }

  lemma AckBalanced(w: World, token: nat, again: set<nat>, left: map<nat, string>, letGo: set<string>, now: Stamp)
    requires Balanced(w, Batch(w)) && w.inflight.Keys <= {w.token}
    ensures var w' := Ack(w, token, again, left, letGo, now); Balanced(w', Batch(w'))
  {
    if token in w.inflight {
      var s := SortOut(w, w.inflight[token], again, left);
      var w0 := w.(inflight := w.inflight - {token});
      var wants := LinesOf(s.wants);
      forall r: nat, id: ID ensures Count(w0.inbox, r, id) + Count(s.back + (wants + s.kept), r, id) == Claimed(w0, r, id) {
        var sorted := SortOutCounts(w, w.inflight[token], again, left, r, id);
        CountConcat(s.back, wants + s.kept, r, id);
        CountConcat(wants, s.kept, r, id);
        assert Count(w.inbox, r, id) + Count(Batch(w), r, id) == Claimed(w, r, id);
      }
      RequeueBalanced(w0, s.back, wants + s.kept);
      var w1 := LetGo(Requeue(w0, s.back), letGo);
      LetGoBalanced(Requeue(w0, s.back), letGo, wants + s.kept);
      AckHeldBalanced(w1, s, now);
    }
  }

  // the holds, then what is kept, then what came too late to be held
  lemma AckHeldBalanced(w1: World, s: SortedOut, now: Stamp)
    requires Balanced(w1, LinesOf(s.wants) + s.kept)
    ensures var fit, late := Wanted(w1, s.wants, true), LinesOf(Wanted(w1, s.wants, false));
            var e := HoldAll(w1.sets, fit, now);
            Balanced(Requeue(w1.(sets := EndAll(e.sets, s.kept + e.took, KeepIt)), late), [])
  {
    var fit, late := Wanted(w1, s.wants, true), LinesOf(Wanted(w1, s.wants, false));
    forall r: nat, id: ID ensures Count(w1.inbox, r, id) + Count(LinesOf(fit) + (s.kept + late), r, id) == Claimed(w1, r, id) {
      WantedCounts(w1, s.wants, r, id);
      CountConcat(LinesOf(s.wants), s.kept, r, id);
      CountConcat(LinesOf(fit), s.kept + late, r, id);
      CountConcat(s.kept, late, r, id);
      assert Count(w1.inbox, r, id) + Count(LinesOf(s.wants) + s.kept, r, id) == Claimed(w1, r, id);
    }
    HoldBalanced(w1, fit, s.kept + late, now);
    var e := HoldAll(w1.sets, fit, now);
    EndBalanced(w1.(sets := e.sets), s.kept, e.took, late, KeepIt);
    var w2 := w1.(sets := EndAll(e.sets, s.kept + e.took, KeepIt));
    assert late + [] == late;
    RequeueBalanced(w2, late, []);
  }

  // ---- offers ----

  lemma {:induction false} RetriedFrom(lines: seq<Line>, l: Line)
    requires l in Retried(lines)
    ensures exists l0 :: l0 in lines && l == l0.(tries := l0.tries + 1) && l.tries < POLL_MAX_TRIES
  {
    var front, last := lines[..|lines| - 1], lines[|lines| - 1];
    assert lines == front + [last];
    if l in Retried(front) { RetriedFrom(front, l); }
  }

  lemma {:induction false} ReleasedFrom(lines: seq<Line>, l: Line)
    requires l in Released(lines)
    ensures l in lines && l.tries + 1 >= POLL_MAX_TRIES
  {
    var front, last := lines[..|lines| - 1], lines[|lines| - 1];
    assert lines == front + [last];
    if l in Released(front) { ReleasedFrom(front, l); }
  }

  lemma {:induction false} TaggedFrom(lines: seq<Line>, back: set<string>, isIn: bool, l: Line)
    requires l in Tagged(lines, back, isIn)
    ensures l in lines
  {
    var front, last := lines[..|lines| - 1], lines[|lines| - 1];
    assert lines == front + [last];
    if l in Tagged(front, back, isIn) { TaggedFrom(front, back, isIn, l); }
  }

  lemma {:induction false} GoingFrom(lines: seq<Line>, ok: bool, l: Line)
    requires l in Going(lines, ok)
    ensures l in lines && Sendable(l) == ok
  {
    var front, last := lines[..|lines| - 1], lines[|lines| - 1];
    assert lines == front + [last];
    if l in Going(front, ok) { GoingFrom(front, ok, l); }
  }

  lemma {:induction false} SortOutFrom(w: World, lines: seq<Line>, again: set<nat>, left: map<nat, string>, l: Line)
    ensures l in SortOut(w, lines, again, left).back ==> l in lines
    ensures l in LinesOf(SortOut(w, lines, again, left).wants) ==> l in lines
  {
    if lines != [] {
      var i := |lines| - 1;
      SortOutFrom(w, lines[..i], again, left, l);
      assert lines == lines[..i] + [lines[i]];
      var s := SortOut(w, lines[..i], again, left);
      if i in left { assert LinesOf(s.wants + [Want(lines[i], left[i])]) == LinesOf(s.wants) + [lines[i]]; }
    }
  }

  lemma {:induction false} WantedFrom(w: World, wants: seq<Want>, fit: bool, l: Line)
    requires l in LinesOf(Wanted(w, wants, fit))
    ensures l in LinesOf(wants)
  {
    if wants != [] {
      var front, last := wants[..|wants| - 1], wants[|wants| - 1];
      assert LinesOf(wants) == LinesOf(front) + [last.line];
      assert LinesOf(Wanted(w, front, fit) + [last]) == LinesOf(Wanted(w, front, fit)) + [last.line];
      assert Wanted(w, front, fit) + [] == Wanted(w, front, fit);
      if l in LinesOf(Wanted(w, front, fit)) { WantedFrom(w, front, fit, l); }
    }
  }

  // a batch counts one more offer for each of its lines
  lemma {:induction false} OfferCounts(offers: map<(nat, ID), nat>, lines: seq<Line>, r: nat, id: ID)
    requires (r, id) in offers
    ensures (r, id) in Offer(offers, lines) && Offer(offers, lines)[(r, id)] == offers[(r, id)] + Count(lines, r, id)
  {
    if lines != [] { OfferCounts(offers, lines[..|lines| - 1], r, id); }
  }

  // the lines of a batch that comes back, wherever they go
  ghost predicate OutOnce(w: World, lines: seq<Line>) {
    forall l :: l in lines ==> (l.set_, l.id) in w.offers && w.offers[(l.set_, l.id)] == l.tries + 1 <= POLL_MAX_TRIES
  }

  ghost predicate Waiting(w: World, lines: seq<Line>) {
    forall l :: l in lines ==> (l.set_, l.id) in w.offers && w.offers[(l.set_, l.id)] == l.tries < POLL_MAX_TRIES
  }

  lemma RequeueTries(w: World, lines: seq<Line>)
    requires OutOnce(w, lines) && Waiting(w, w.inbox)
    ensures Waiting(w, Requeue(w, lines).inbox)
    ensures forall l :: l in Released(lines) ==> (l.set_, l.id) in w.offers && w.offers[(l.set_, l.id)] == POLL_MAX_TRIES
  {
    forall l | l in Requeue(w, lines).inbox
      ensures (l.set_, l.id) in w.offers && w.offers[(l.set_, l.id)] == l.tries < POLL_MAX_TRIES
    {
      if l in Retried(lines) { RetriedFrom(lines, l); }
    }
    forall l | l in Released(lines)
      ensures (l.set_, l.id) in w.offers && w.offers[(l.set_, l.id)] == POLL_MAX_TRIES
    {
      ReleasedFrom(lines, l);
    }
  }

  lemma TakeTries(w: World, mine: bool, unwraps: bool, l: Line)
    requires Inv(w)
    ensures TriesOK(Take(w, mine, unwraps, l))
  {
    var w' := Take(w, mine, unwraps, l);
    if w'.inbox != w.inbox {
      assert Count(w.inbox, l.set_, l.id) + Count(Batch(w), l.set_, l.id) == Claimed(w, l.set_, l.id) == 0;
      forall x | x in w.inbox || x in Batch(w) ensures (x.set_, x.id) != (l.set_, l.id) {
        if x in w.inbox { CountFound(w.inbox, x); } else { CountFound(Batch(w), x); }
      }
    }
  }

  // lines that wait, one for each id: those that go out were offered once more, and
  // the others not
  lemma OfferTries(w: World, w': World)
    requires Waiting(w, w'.inbox) && Waiting(w, Batch(w')) && Balanced(w', Batch(w'))
    requires w'.offers == Offer(w.offers, Batch(w'))
    ensures TriesOK(w')
  {
    forall l | l in w'.inbox ensures (l.set_, l.id) in w'.offers && w'.offers[(l.set_, l.id)] == l.tries < POLL_MAX_TRIES {
      CountFound(w'.inbox, l);
      assert Count(w'.inbox, l.set_, l.id) + Count(Batch(w'), l.set_, l.id) == Claimed(w', l.set_, l.id);
      OfferCounts(w.offers, Batch(w'), l.set_, l.id);
    }
    forall l | l in Batch(w') ensures (l.set_, l.id) in w'.offers && w'.offers[(l.set_, l.id)] == l.tries + 1 <= POLL_MAX_TRIES {
      CountFound(Batch(w'), l);
      assert Count(w'.inbox, l.set_, l.id) + Count(Batch(w'), l.set_, l.id) == Claimed(w', l.set_, l.id);
      OfferCounts(w.offers, Batch(w'), l.set_, l.id);
    }
  }

  lemma PollTries(w: World, back: set<string>)
    requires Inv(w)
    ensures TriesOK(Poll(w, back))
  {
    PollBalanced(w, back);
    var w', w1 := Poll(w, back), Requeue(w.(inflight := map[]), Batch(w));
    RequeueTries(w.(inflight := map[]), Batch(w));
    var go := Tagged(w1.inbox, back, false);
    var batch := Stamped(w1, Going(go, true));
    assert Batch(w') == batch;
    forall l | l in w'.inbox ensures l in w1.inbox {
      TaggedFrom(w1.inbox, back, true, l);
    }
    forall l | l in batch ensures (l.set_, l.id) in w.offers && w.offers[(l.set_, l.id)] == l.tries < POLL_MAX_TRIES {
      var l0 := BatchFrom(w1, back, l);
    }
    OfferTries(w, w');
  }

  // a line handed out is one of the inbox, stamped
  lemma BatchFrom(w: World, back: set<string>, l: Line) returns (l0: Line)
    requires l in Stamped(w, Going(Tagged(w.inbox, back, false), true))
    ensures l0 in w.inbox && l == l0.(freed := l.freed)
  {
    var go := Tagged(w.inbox, back, false);
    var i :| 0 <= i < |Going(go, true)| && Stamped(w, Going(go, true))[i] == l;
    l0 := Going(go, true)[i];
    GoingFrom(go, true, l0);
    TaggedFrom(w.inbox, back, false, l0);
  }

  lemma AckTries(w: World, token: nat, again: set<nat>, left: map<nat, string>, letGo: set<string>, now: Stamp)
    requires Inv(w)
    ensures TriesOK(Ack(w, token, again, left, letGo, now))
    ensures token in w.inflight ==> OutOnce(w, AckBack(w, token, again, left)) && OutOnce(w, AckLate(w, token, again, left, letGo))
  {
    if token in w.inflight {
      assert Batch(w) == w.inflight[token];
      var s := SortOut(w, Batch(w), again, left);
      var w1 := LetGo(Requeue(w.(inflight := w.inflight - {token}), s.back), letGo);
      var late := LinesOf(Wanted(w1, s.wants, false));
      forall l | l in s.back ensures l in Batch(w) { SortOutFrom(w, Batch(w), again, left, l); }
      forall l | l in late ensures l in Batch(w) {
        WantedFrom(w1, s.wants, false, l);
        SortOutFrom(w, Batch(w), again, left, l);
      }
      RequeueTries(w.(inflight := w.inflight - {token}), s.back);
      RequeueTries(w1, late);
    }
  }

  // ---- where a line goes ----

  function AckBack(w: World, token: nat, again: set<nat>, left: map<nat, string>): seq<Line>
    requires token in w.inflight
  {
    SortOut(w, w.inflight[token], again, left).back
  }

  // as the holds are booked, the batch's own lines put back
  function AtHolds(w: World, token: nat, again: set<nat>, left: map<nat, string>, letGo: set<string>): World
    requires token in w.inflight
  {
    LetGo(Requeue(w.(inflight := w.inflight - {token}), AckBack(w, token, again, left)), letGo)
  }

  function AckLate(w: World, token: nat, again: set<nat>, left: map<nat, string>, letGo: set<string>): seq<Line>
    requires token in w.inflight
  {
    LinesOf(Wanted(AtHolds(w, token, again, left, letGo), SortOut(w, w.inflight[token], again, left).wants, false))
  }

  function AckHolds(w: World, token: nat, again: set<nat>, left: map<nat, string>, letGo: set<string>, now: Stamp): HoldEnd
    requires token in w.inflight
  {
    var w1 := AtHolds(w, token, again, left, letGo);
    HoldAll(w1.sets, Wanted(w1, SortOut(w, w.inflight[token], again, left).wants, true), now)
  }

  function AckKept(w: World, token: nat, again: set<nat>, left: map<nat, string>, letGo: set<string>, now: Stamp): seq<Line>
    requires token in w.inflight
  {
    SortOut(w, w.inflight[token], again, left).kept + AckHolds(w, token, again, left, letGo, now).took
  }

  function AckReleased(w: World, token: nat, again: set<nat>, left: map<nat, string>, letGo: set<string>): seq<Line>
    requires token in w.inflight
  {
    Released(AckBack(w, token, again, left)) + Released(AckLate(w, token, again, left, letGo))
  }

  /** After an ack every line of the batch is back in the inbox, kept, held or released,
      each in one way only, and what is released was offered five times. */
  lemma AckAccounts(w: World, token: nat, again: set<nat>, left: map<nat, string>, letGo: set<string>, now: Stamp, r: nat, id: ID)
    requires Inv(w) && token in w.inflight
    ensures Claimed(w, r, id) == Claimed(Ack(w, token, again, left, letGo, now), r, id)
              + Count(AckKept(w, token, again, left, letGo, now), r, id)
              + Count(AckHolds(w, token, again, left, letGo, now).held, r, id)
              + Count(AckReleased(w, token, again, left, letGo), r, id)
    ensures forall l :: l in AckReleased(w, token, again, left, letGo) ==>
              (l.set_, l.id) in w.offers && w.offers[(l.set_, l.id)] == POLL_MAX_TRIES
  {
    var w' := Ack(w, token, again, left, letGo, now);
    AckBalanced(w, token, again, left, letGo, now);
    AckTries(w, token, again, left, letGo, now);
    var s := SortOut(w, w.inflight[token], again, left);
    var w1, late, back := AtHolds(w, token, again, left, letGo), AckLate(w, token, again, left, letGo), s.back;
    var e := AckHolds(w, token, again, left, letGo, now);
    assert Count(w.inbox, r, id) + Count(Batch(w), r, id) == Claimed(w, r, id);
    assert Count(w'.inbox, r, id) + Count(Batch(w'), r, id) == Claimed(w', r, id);
    assert w'.inbox == Retried(late) + (Retried(back) + w.inbox);
    var sorted := SortOutCounts(w, w.inflight[token], again, left, r, id);
    WantedCounts(w1, s.wants, r, id);
    HoldAllCounts(w1.sets, Wanted(w1, s.wants, true), now, r, id);
    RequeueCounts(back, r, id);
    RequeueCounts(late, r, id);
    CountConcat(Retried(late), Retried(back) + w.inbox, r, id);
    CountConcat(Retried(back), w.inbox, r, id);
    CountConcat(Released(back), Released(late), r, id);
    CountConcat(s.kept, e.took, r, id);
    RequeueTries(w.(inflight := w.inflight - {token}), back);
    assert OutOnce(w, late) && OutOnce(w1, late);
    RequeueTries(w1, late);
  }

  /** A poll lets a line go only after its fifth offer, or as kept when it can never go
      over. */
  lemma PollAccounts(w: World, back: set<string>, r: nat, id: ID)
    requires Inv(w)
    ensures var w1 := Requeue(w.(inflight := map[]), Batch(w));
            Claimed(w, r, id) == Claimed(Poll(w, back), r, id) + Count(Released(Batch(w)), r, id)
                                 + Count(Going(Tagged(w1.inbox, back, false), false), r, id)
    ensures forall l :: l in Released(Batch(w)) ==> (l.set_, l.id) in w.offers && w.offers[(l.set_, l.id)] == POLL_MAX_TRIES
  {
    var w', w1 := Poll(w, back), Requeue(w.(inflight := map[]), Batch(w));
    PollBalanced(w, back);
    assert Count(w.inbox, r, id) + Count(Batch(w), r, id) == Claimed(w, r, id);
    assert Count(w'.inbox, r, id) + Count(Batch(w'), r, id) == Claimed(w', r, id);
    RequeueCounts(Batch(w), r, id);
    CountConcat(Retried(Batch(w)), w.inbox, r, id);
    TaggedCounts(w1.inbox, back, r, id);
    GoingCounts(Tagged(w1.inbox, back, false), r, id);
    StampedCounts(w1, Going(Tagged(w1.inbox, back, false), true), r, id);
    RequeueTries(w.(inflight := map[]), Batch(w));
  }

  // ---- runs ----

  datatype Call =
    | DoTake(mine: bool, unwraps: bool, line: Line)
    | DoPoll(back: set<string>)
    | DoAck(token: nat, again: set<nat>, left: map<nat, string>, letGo: set<string>, now: Stamp)
    | DoLetGo(paths: set<string>)
    | DoStart(set_: nat, path: string)

  function Step(w: World, c: Call): World {
    match c
    case DoTake(mine, unwraps, l) => Take(w, mine, unwraps, l)
    case DoPoll(back) => Poll(w, back)
    case DoAck(token, again, left, letGo, now) => Ack(w, token, again, left, letGo, now)
    case DoLetGo(paths) => LetGo(w, paths)
    case DoStart(r, path) => if r in w.sets then w else w.(sets := w.sets[r := Seen(path, [], [], {}, map[])])
  }

  function Run(w: World, calls: seq<Call>): World {
    if calls == [] then w else Step(Run(w, calls[..|calls| - 1]), calls[|calls| - 1])
  }

  lemma StepKeeps(w: World, c: Call)
    requires Inv(w)
    ensures Inv(Step(w, c))
  {
    match c
    case DoTake(mine, unwraps, l) => TakeBalanced(w, mine, unwraps, l); TakeTries(w, mine, unwraps, l);
    case DoPoll(back) => PollBalanced(w, back); PollTries(w, back);
    case DoAck(token, again, left, letGo, now) =>
      AckBalanced(w, token, again, left, letGo, now);
      AckTries(w, token, again, left, letGo, now);
    case DoLetGo(paths) => LetGoBalanced(w, paths, Batch(w));
    case DoStart(r, path) =>
      var w' := Step(w, c);
      forall q: nat, id: ID ensures Claimed(w', q, id) == Claimed(w, q, id) { }
  }

  /** Over every run, each id a runner's set has claimed and not finished with has
      exactly one line, in the inbox or in the one batch that may be unconfirmed, and
      no line was offered more than five times. */
  lemma {:induction false} RunKeeps(calls: seq<Call>)
    ensures Inv(Run(START, calls))
  {
    if calls != [] {
      RunKeeps(calls[..|calls| - 1]);
      StepKeeps(Run(START, calls[..|calls| - 1]), calls[|calls| - 1]);
    }
  }

  /** An ack of any token but the newest changes nothing, and neither does a second
      ack of the newest. */
  lemma LateAckChangesNothing(calls: seq<Call>, token: nat, again: set<nat>, left: map<nat, string>, letGo: set<string>, now: Stamp,
                              again': set<nat>, left': map<nat, string>, letGo': set<string>, now': Stamp)
    ensures var w := Run(START, calls);
            && (token != w.token ==> Ack(w, token, again, left, letGo, now) == w)
            && (var w' := Ack(w, token, again, left, letGo, now); Ack(w', token, again', left', letGo', now') == w')
  {
    RunKeeps(calls);
  }
}
