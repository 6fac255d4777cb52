/** Where each line of a batch is after its ack or the next poll, place by place. */
module DeliveryPlaces {
  import opened Stamps
  import opened SeenSet
  import opened Delivery
  import opened DeliveryProof

  // ---- no id is waited on and remembered at once ----

  // what a set has claimed it does not remember, and does not hold unless it is to be
  // fetched again
  ghost predicate Unseen(s: Seen) {
    forall id :: id in s.queued ==> id !in s.openedIds && id !in s.unopenedIds && (id in s.held ==> s.held[id].free)
  }

  ghost predicate AllUnseen(sets: map<nat, Seen>) { forall r :: r in sets ==> Unseen(sets[r]) }

  lemma HoldUnseen(s: Seen, id: ID, at: Stamp, name: string, now: Stamp, from: int, until: int)
    requires Unseen(s)
    ensures Unseen(s.Hold(id, at, name, now, from, until))
  {
  }

  lemma EndOneUnseen(s: Seen, id: ID, how: Ending)
    requires Unseen(s)
    ensures Unseen(EndOne(s, id, how)) && Unseen(s.NotOpened(id))
  {
  }

  lemma {:induction false} EndAllUnseen(sets: map<nat, Seen>, lines: seq<Line>, how: Ending)
    requires AllUnseen(sets)
    ensures AllUnseen(EndAll(sets, lines, how))
  {
    if lines != [] {
      var s, l := EndAll(sets, lines[..|lines| - 1], how), lines[|lines| - 1];
      EndAllUnseen(sets, lines[..|lines| - 1], how);
      if l.set_ in s { EndOneUnseen(s[l.set_], l.id, how); }
    }
  }

  lemma {:induction false} HoldAllUnseen(sets: map<nat, Seen>, wants: seq<Want>, now: Stamp)
    requires AllUnseen(sets)
    ensures AllUnseen(HoldAll(sets, wants, now).sets)
  {
    if wants != [] {
      var s := HoldAll(sets, wants[..|wants| - 1], now).sets;
      var Want(l, name) := wants[|wants| - 1];
      HoldAllUnseen(sets, wants[..|wants| - 1], now);
      if l.set_ in s { HoldUnseen(s[l.set_], l.id, l.at, name, now, l.from, l.until); }
    }
  }

  lemma LetGoUnseen(w: World, paths: set<string>)
    requires AllUnseen(w.sets)
    ensures AllUnseen(LetGo(w, paths).sets)
  {
    forall r | r in w.sets ensures Unseen(LetGo(w, paths).sets[r]) { assert Unseen(w.sets[r]); }
  }

  lemma TakeUnseen(w: World, mine: bool, unwraps: bool, l: Line)
    requires AllUnseen(w.sets)
    ensures AllUnseen(Take(w, mine, unwraps, l).sets)
  {
    if l.set_ in w.sets {
      var s := w.sets[l.set_];
      assert Unseen(s) && Unseen(s.Claim(l.id));
      EndOneUnseen(s.Claim(l.id), l.id, KeepIt);
    }
  }

  lemma AckUnseen(w: World, token: nat, again: set<nat>, left: map<nat, string>, letGo: set<string>, now: Stamp)
    requires AllUnseen(w.sets)
    ensures AllUnseen(Ack(w, token, again, left, letGo, now).sets)
  {
    if token in w.inflight {
      var s := SortOut(w, w.inflight[token], again, left);
      EndAllUnseen(w.sets, Released(s.back), ReleaseIt);
      LetGoUnseen(Requeue(w.(inflight := w.inflight - {token}), s.back), letGo);
      var w1 := AtHolds(w, token, again, left, letGo);
      var e := HoldAll(w1.sets, Wanted(w1, s.wants, true), now);
      HoldAllUnseen(w1.sets, Wanted(w1, s.wants, true), now);
      EndAllUnseen(e.sets, s.kept + e.took, KeepIt);
      EndAllUnseen(EndAll(e.sets, s.kept + e.took, KeepIt), Released(LinesOf(Wanted(w1, s.wants, false))), ReleaseIt);
    }
  }

  lemma StepUnseen(w: World, c: Call)
    requires AllUnseen(w.sets)
    ensures AllUnseen(Step(w, c).sets)
  {
    match c
    case DoTake(mine, unwraps, l) => TakeUnseen(w, mine, unwraps, l);
    case DoPoll(back) =>
      var w1 := Requeue(w.(inflight := map[]), Batch(w));
      EndAllUnseen(w.sets, Released(Batch(w)), ReleaseIt);
      EndAllUnseen(w1.sets, Going(Tagged(w1.inbox, back, false), false), KeepIt);
    case DoAck(token, again, left, letGo, now) => AckUnseen(w, token, again, left, letGo, now);
    case DoLetGo(paths) => LetGoUnseen(w, paths);
    case DoStart(r, path) =>
  }

  /** Over every run, no line that waits or is out has an id its set remembers as handed
      over or as not opening, or holds: nothing the app has kept is offered again. */
  lemma {:induction false} RunUnseen(calls: seq<Call>)
    ensures var w := Run(START, calls);
            && AllUnseen(w.sets)
            && forall l :: l in w.inbox || l in Batch(w) ==>
                 && l.set_ in w.sets && l.id !in w.sets[l.set_].openedIds && l.id !in w.sets[l.set_].unopenedIds
                 && (l.id in w.sets[l.set_].held ==> w.sets[l.set_].held[l.id].free)
  {
    if calls != [] {
      RunUnseen(calls[..|calls| - 1]);
      StepUnseen(Run(START, calls[..|calls| - 1]), calls[|calls| - 1]);
    }
    var w := Run(START, calls);
    RunKeeps(calls);
    forall l | l in w.inbox || l in Batch(w) ensures l.set_ in w.sets && l.id in w.sets[l.set_].queued { LineIsClaimed(w, l); }
  }

  /** A wrap joins the inbox, behind all that waits, exactly when it is a peer's for a
      runner there is, opens, and its id is neither claimed nor remembered nor held; one
      that does not open is remembered as such, and every other wrap changes nothing. */
  lemma TakeExactlyWhen(calls: seq<Call>, mine: bool, unwraps: bool, l: Line)
    ensures
      var w := Run(START, calls);
      var w' := Step(w, DoTake(mine, unwraps, l));
      var isNew := !mine && l.set_ in w.sets && (forall x :: x in w.inbox || x in Batch(w) ==> (x.set_, x.id) != (l.set_, l.id))
                   && l.id !in w.sets[l.set_].openedIds && l.id !in w.sets[l.set_].unopenedIds
                   && (l.id in w.sets[l.set_].held ==> w.sets[l.set_].held[l.id].free);
      && w'.inbox == w.inbox + (if isNew && unwraps then [l.(tries := 0, freed := 0)] else [])
      && (isNew && !unwraps ==> l.id in w'.sets[l.set_].unopenedIds)
      && (!isNew ==> w' == w)
  {
    var w := Run(START, calls);
    RunKeeps(calls);
    if l.set_ in w.sets {
      assert Count(w.inbox, l.set_, l.id) + Count(Batch(w), l.set_, l.id) == Claimed(w, l.set_, l.id);
      CountIsIn(w.inbox, l.set_, l.id);
      CountIsIn(Batch(w), l.set_, l.id);
    }
  }

  lemma LineIsClaimed(w: World, l: Line)
    requires Inv(w) && (l in w.inbox || l in Batch(w))
    ensures l.set_ in w.sets && l.id in w.sets[l.set_].queued
    ensures Count(w.inbox, l.set_, l.id) + Count(Batch(w), l.set_, l.id) == 1
  {
    if l in w.inbox { CountFound(w.inbox, l); } else { CountFound(Batch(w), l); }
    assert Count(w.inbox, l.set_, l.id) + Count(Batch(w), l.set_, l.id) == Claimed(w, l.set_, l.id);
  }

  // ---- what the folds do to one id ----

  // the ids of r's lines, in order
  function IdSeq(lines: seq<Line>, r: nat): (ids: seq<ID>)
    ensures |ids| <= |lines|
  {
    if lines == [] then []
    else IdSeq(lines[..|lines| - 1], r) + (if lines[|lines| - 1].set_ == r then [lines[|lines| - 1].id] else [])
  }

  lemma {:induction false} IdSeqHas(lines: seq<Line>, r: nat, id: ID)
    ensures id in IdSeq(lines, r) <==> Count(lines, r, id) >= 1
  {
    if lines != [] { IdSeqHas(lines[..|lines| - 1], r, id); }
  }

  lemma {:induction false} IdSeqDistinct(lines: seq<Line>, r: nat)
    requires forall id :: Count(lines, r, id) <= 1
    ensures Distinct(IdSeq(lines, r))
  {
    if lines != [] {
      var front, last := lines[..|lines| - 1], lines[|lines| - 1];
      forall id ensures Count(front, r, id) <= 1 { assert Count(lines, r, id) <= 1; }
      IdSeqDistinct(front, r);
      assert Count(lines, r, last.id) <= 1;
      IdSeqHas(front, r, last.id);
    }
  }

  // what is kept joins the ring of opened ids in order, and nothing else is touched
  lemma {:induction false} EndAllSet(sets: map<nat, Seen>, lines: seq<Line>, how: Ending, r: nat)
    requires r in sets
    ensures EndAll(sets, lines, how)[r].openedIds
         == if how == KeepIt then RingAddAll(sets[r].openedIds, SEEN_KEEP, IdSeq(lines, r)) else sets[r].openedIds
  {
    if lines != [] {
      var front, last := lines[..|lines| - 1], lines[|lines| - 1];
      EndAllSet(sets, front, how, r);
      if last.set_ == r { assert (IdSeq(front, r) + [last.id])[..|IdSeq(front, r)|] == IdSeq(front, r); } else { assert IdSeq(front, r) + [] == IdSeq(front, r); }
    }
  }

  // a new id joins the ring with the lines it is among, and stays there unless they
  // alone fill it
  lemma RingOf(ring: seq<ID>, lines: seq<Line>, r: nat, id: ID)
    requires id !in ring && forall j :: Count(lines, r, j) <= 1
    ensures Count(lines, r, id) == 0 ==> id !in RingAddAll(ring, SEEN_KEEP, IdSeq(lines, r))
    ensures Count(lines, r, id) >= 1 && |lines| <= SEEN_KEEP ==> id in RingAddAll(ring, SEEN_KEEP, IdSeq(lines, r))
  {
    var ids := IdSeq(lines, r);
    IdSeqHas(lines, r, id);
    if Count(lines, r, id) == 0 {
      if id in RingAddAll(ring, SEEN_KEEP, ids) { RingAddAllFrom(ring, SEEN_KEEP, ids, id); }
    } else if |lines| <= SEEN_KEEP {
      IdSeqDistinct(lines, r);
      var k :| 0 <= k < |ids| && ids[k] == id;
      RingAddAllHas(ring, SEEN_KEEP, ids, k);
    }
  }

  // a hold of none of the lines' ids stays as it was; a release touches no hold
  lemma {:induction false} EndAllHeld(sets: map<nat, Seen>, lines: seq<Line>, how: Ending, r: nat, id: ID)
    requires r in sets && (how == ReleaseIt || Count(lines, r, id) == 0)
    ensures var a, b := sets[r].held, EndAll(sets, lines, how)[r].held;
            (id in a <==> id in b) && (id in a ==> a[id] == b[id])
    ensures how == ReleaseIt ==> EndAll(sets, lines, how)[r].held == sets[r].held
  {
    if lines != [] { EndAllHeld(sets, lines[..|lines| - 1], how, r, id); }
  }

  lemma {:induction false} HoldAllOpened(sets: map<nat, Seen>, wants: seq<Want>, now: Stamp, r: nat)
    requires r in sets
    ensures HoldAll(sets, wants, now).sets[r].openedIds == sets[r].openedIds
    ensures |HoldAll(sets, wants, now).sets[r].held| <= |sets[r].held| + |wants|
    ensures |HoldAll(sets, wants, now).took| <= |wants|
  {
    if wants != [] {
      var front := wants[..|wants| - 1];
      var Want(l, name) := wants[|wants| - 1];
      HoldAllOpened(sets, front, now, r);
      var s := HoldAll(sets, front, now).sets;
      if l.set_ == r { HoldAddsOne(s[r], l.id, l.at, name, now, l.from, l.until); }
    }
  }

  lemma HoldAddsOne(s: Seen, id: ID, at: Stamp, name: string, now: Stamp, from: int, until: int)
    ensures |s.Hold(id, at, name, now, from, until).held| <= |s.held| + 1
  {
    var kept, held := PruneHeld(s.held, now), s.Hold(id, at, name, now, from, until).held;
    assert kept.Keys <= s.held.Keys;
    CardinalityOf(kept.Keys, s.held.Keys);
    assert held.Keys <= kept.Keys + {id};
    CardinalityOf(held.Keys, kept.Keys + {id});
  }

  lemma {:induction false} CardinalityOf<T>(a: set<T>, b: set<T>)
    requires a <= b
    ensures |a| <= |b|
  {
    assert b == a + (b - a);
  }

  // fewer than the number of groups allowed always leave room
  lemma FewHaveRoom(held: map<ID, HeldAt>, g: Group)
    requires |held| < SEEN_HELD_KEEP
    ensures HeldRoom(held, g)
  {
    CardinalityOf(InGroup(held, g), held.Keys);
    GroupsAtMost(held, held.Keys);
  }

  lemma {:induction false} GroupsAtMost(held: map<ID, HeldAt>, ids: set<ID>)
    requires ids <= held.Keys
    ensures |set id | id in ids :: held[id].group| <= |ids|
    decreases ids
  {
    if ids != {} {
      var id :| id in ids;
      GroupsAtMost(held, ids - {id});
      var rest := set j | j in ids - {id} :: held[j].group;
      assert (set j | j in ids :: held[j].group) == rest + {held[id].group};
    }
  }

  ghost predicate HeldAs(sets: map<nat, Seen>, x: Want) {
    && x.line.set_ in sets && x.line.id in sets[x.line.set_].held
    && sets[x.line.set_].held[x.line.id] == HeldAt(x.line.at, false, GroupOf(x.line.id, x.name), x.line.from, x.line.until)
  }

  // x is held as asked
  ghost predicate Stays(e: HoldEnd, x: Want, now: Stamp) { HeldAs(e.sets, x) && x.line in e.held && !HeldGone(x.line.at, now) }

  // a hold of another id leaves x where it is
  lemma HoldAllPast(sets: map<nat, Seen>, wants: seq<Want>, now: Stamp, x: Want, y: Want)
    requires x.line.set_ != y.line.set_ || x.line.id != y.line.id
    ensures Stays(HoldAll(sets, wants, now), x, now) ==> Stays(HoldAll(sets, wants + [y], now), x, now)
    ensures x.line in HoldAll(sets, wants, now).took ==> x.line in HoldAll(sets, wants + [y], now).took
  {
    assert (wants + [y])[..|wants|] == wants;
  }

  lemma HoldAllLast(sets: map<nat, Seen>, wants: seq<Want>, now: Stamp, x: Want)
    requires x.line.set_ in sets
    ensures var e, s := HoldAll(sets, wants + [x], now), HoldAll(sets, wants, now).sets[x.line.set_];
            if s.Holds(x.line.id, x.line.at, x.name, now) then Stays(e, x, now) else x.line in e.took
  {
    assert (wants + [x])[..|wants|] == wants;
  }

  // with few held there is room
  lemma FewHold(s: Seen, id: ID, at: Stamp, name: string, now: Stamp)
    requires |s.held| < SEEN_HELD_KEEP && !HeldGone(at, now)
    ensures s.Holds(id, at, name, now)
  {
    var kept := PruneHeld(s.held, now);
    CardinalityOf(kept.Keys, s.held.Keys);
    FewHaveRoom(kept, GroupOf(id, name));
  }

  // a wanted hold is in place afterwards, or its line is among those without room; with
  // few held already there is room
  lemma {:induction false} HoldAllPlace(sets: map<nat, Seen>, wants: seq<Want>, now: Stamp, x: Want)
    requires x in wants && x.line.set_ in sets && Count(LinesOf(wants), x.line.set_, x.line.id) <= 1
    ensures var e := HoldAll(sets, wants, now); Stays(e, x, now) || x.line in e.took
    ensures !HeldGone(x.line.at, now) && |sets[x.line.set_].held| + |wants| <= SEEN_HELD_KEEP ==> Stays(HoldAll(sets, wants, now), x, now)
  {
    var front, last := wants[..|wants| - 1], wants[|wants| - 1];
    assert wants == front + [last] && LinesOf(wants) == LinesOf(front) + [last.line];
    CountConcat(LinesOf(front), [last.line], x.line.set_, x.line.id);
    if x in front {
      var k :| 0 <= k < |front| && front[k] == x;
      assert LinesOf(front)[k] == x.line;
      CountFound(LinesOf(front), x.line);
      HoldAllPlace(sets, front, now, x);
      HoldAllPast(sets, front, now, x, last);
    } else {
      HoldAllLast(sets, front, now, x);
      HoldAllOpened(sets, front, now, x.line.set_);
      var s := HoldAll(sets, front, now).sets[x.line.set_];
      if !HeldGone(x.line.at, now) && |s.held| < SEEN_HELD_KEEP { FewHold(s, x.line.id, x.line.at, x.name, now); }
    }
  }

  // ---- where the parts of an answer go ----

  lemma {:induction false} SortOutPlace(w: World, lines: seq<Line>, again: set<nat>, left: map<nat, string>, i: nat)
    requires i < |lines|
    ensures var s, l := SortOut(w, lines, again, left), lines[i];
            && (i in again ==> l in s.back)
            && (i !in again && i in left && GenOfLine(w, l) != l.freed ==> l in s.back)
            && (i !in again && i in left && GenOfLine(w, l) == l.freed ==> Want(l, left[i]) in s.wants)
            && (i !in again && i !in left ==> l in s.kept)
  {
    var n := |lines| - 1;
    if i < n { SortOutPlace(w, lines[..n], again, left, i); }
  }

  lemma {:induction false} SortOutSizes(w: World, lines: seq<Line>, again: set<nat>, left: map<nat, string>)
    ensures var s := SortOut(w, lines, again, left); |s.wants| + |s.kept| <= |lines|
  {
    if lines != [] { SortOutSizes(w, lines[..|lines| - 1], again, left); }
  }

  lemma {:induction false} WantedPlace(w: World, wants: seq<Want>, x: Want)
    requires x in wants
    ensures x in Wanted(w, wants, GenOfLine(w, x.line) == x.line.freed)
    ensures |Wanted(w, wants, true)| <= |wants|
  {
    var front, last := wants[..|wants| - 1], wants[|wants| - 1];
    assert wants == front + [last];
    if x in front {
      WantedPlace(w, front, x);
    } else {
      WantedSizes(w, front);
    }
  }

  lemma {:induction false} WantedSizes(w: World, wants: seq<Want>)
    ensures |Wanted(w, wants, true)| <= |wants|
  {
    if wants != [] { WantedSizes(w, wants[..|wants| - 1]); }
  }

  lemma {:induction false} RequeuePlace(lines: seq<Line>, l: Line)
    requires l in lines
    ensures if l.tries + 1 < POLL_MAX_TRIES then l.(tries := l.tries + 1) in Retried(lines) else l in Released(lines)
  {
    var front, last := lines[..|lines| - 1], lines[|lines| - 1];
    assert lines == front + [last];
    if l in front { RequeuePlace(front, l); }
  }

  // ---- an answer, place by place ----

  // as the holds are booked nothing is opened or held anew, and only the files let go
  // of meanwhile have moved on
  lemma AtHoldsSets(w: World, token: nat, again: set<nat>, left: map<nat, string>, letGo: set<string>, l: Line)
    requires token in w.inflight && l.set_ in w.sets
    ensures var w1, s := AtHolds(w, token, again, left, letGo), w.sets[l.set_];
            && l.set_ in w1.sets && w1.sets[l.set_].openedIds == s.openedIds && |w1.sets[l.set_].held| == |s.held|
            && GenOfLine(w1, l) == GenOfLine(w, l) + if s.path in letGo then 1 else 0
  {
    var out := Released(AckBack(w, token, again, left));
    EndAllSet(w.sets, out, ReleaseIt, l.set_);
    EndAllHeld(w.sets, out, ReleaseIt, l.set_, l.id);
    EndAllQueued(w.sets, out, ReleaseIt, l.set_);
    var w0, w1 := Requeue(w.(inflight := w.inflight - {token}), AckBack(w, token, again, left)), AtHolds(w, token, again, left, letGo);
    assert w1.sets[l.set_].held.Keys == w0.sets[l.set_].held.Keys;
  }

  // the ring of opened ids and the holds after an ack
  lemma AckSet(w: World, token: nat, again: set<nat>, left: map<nat, string>, letGo: set<string>, now: Stamp, l: Line)
    requires token in w.inflight && l.set_ in w.sets
    ensures var w', kept := Ack(w, token, again, left, letGo, now), AckKept(w, token, again, left, letGo, now);
            && l.set_ in w'.sets
            && w'.sets[l.set_].openedIds == RingAddAll(w.sets[l.set_].openedIds, SEEN_KEEP, IdSeq(kept, l.set_))
            && (Count(kept, l.set_, l.id) == 0 ==>
                  var a, b := AckHolds(w, token, again, left, letGo, now).sets[l.set_].held, w'.sets[l.set_].held;
                  (l.id in a <==> l.id in b) && (l.id in a ==> a[l.id] == b[l.id]))
  {
    var r := l.set_;
    AtHoldsSets(w, token, again, left, letGo, l);
    var w1, e, kept := AtHolds(w, token, again, left, letGo), AckHolds(w, token, again, left, letGo, now), AckKept(w, token, again, left, letGo, now);
    HoldAllOpened(w1.sets, Wanted(w1, SortOut(w, w.inflight[token], again, left).wants, true), now, r);
    EndAllSet(e.sets, kept, KeepIt, r);
    var ended, out := EndAll(e.sets, kept, KeepIt), Released(AckLate(w, token, again, left, letGo));
    EndAllSet(ended, out, ReleaseIt, r);
    if Count(kept, r, l.id) == 0 { EndAllHeld(e.sets, kept, KeepIt, r, l.id); }
    EndAllHeld(ended, out, ReleaseIt, r, l.id);
  }

  // what is kept is remembered while the batch is no longer than the ring, and nothing
  // else is remembered
  lemma AckOpens(w: World, token: nat, again: set<nat>, left: map<nat, string>, letGo: set<string>, now: Stamp, l: Line)
    requires Inv(w) && AllUnseen(w.sets) && token in w.inflight && l in w.inflight[token]
    ensures var w', kept := Ack(w, token, again, left, letGo, now), AckKept(w, token, again, left, letGo, now);
            && l.set_ in w'.sets
            && (Count(kept, l.set_, l.id) == 0 ==> l.id !in w'.sets[l.set_].openedIds)
            && (Count(kept, l.set_, l.id) >= 1 && |w.inflight[token]| <= SEEN_KEEP ==> l.id in w'.sets[l.set_].openedIds)
  {
    var r, kept := l.set_, AckKept(w, token, again, left, letGo, now);
    LineIsClaimed(w, l);
    AckSet(w, token, again, left, letGo, now, l);
    assert Unseen(w.sets[r]);
    AckKeptSize(w, token, again, left, letGo, now, r);
    forall id ensures Count(kept, r, id) <= 1 { AckAccounts(w, token, again, left, letGo, now, r, id); }
    RingOf(w.sets[r].openedIds, kept, r, l.id);
  }

  lemma AckKeptSize(w: World, token: nat, again: set<nat>, left: map<nat, string>, letGo: set<string>, now: Stamp, r: nat)
    requires token in w.inflight && r in w.sets
    ensures |AckKept(w, token, again, left, letGo, now)| <= |w.inflight[token]|
  {
    var w1, wants := AtHolds(w, token, again, left, letGo), SortOut(w, w.inflight[token], again, left).wants;
    SortOutSizes(w, w.inflight[token], again, left);
    WantedSizes(w1, wants);
    HoldAllOpened(w1.sets, Wanted(w1, wants, true), now, r);
  }

  // whether l's file has had its holds let go of after the poll that handed l over
  predicate FileFreed(w: World, l: Line, letGo: set<string>) {
    GenOfLine(w, l) != l.freed || (l.set_ in w.sets && w.sets[l.set_].path in letGo)
  }

  // l's id waits for nothing more in w
  ghost predicate Settled(w: World, l: Line) {
    && l.set_ in w.sets && l.id !in w.sets[l.set_].queued
    && forall x :: x in w.inbox || x in Batch(w) ==> (x.set_, x.id) != (l.set_, l.id)
  }

  lemma IsSettled(w: World, l: Line)
    requires Inv(w) && l.set_ in w.sets && Claimed(w, l.set_, l.id) == 0
    ensures Settled(w, l)
  {
    forall x | x in w.inbox || x in Batch(w) ensures (x.set_, x.id) != (l.set_, l.id) { LineIsClaimed(w, x); }
  }

  // l, one offer further on, waits again; or it had its fifth offer and is let go of
  // without being remembered
  ghost predicate ComesAgain(w': World, l: Line) {
    && l.set_ in w'.sets && l.id !in w'.sets[l.set_].openedIds
    && if l.tries + 1 < POLL_MAX_TRIES then l.(tries := l.tries + 1) in w'.inbox && l.id in w'.sets[l.set_].queued else Settled(w', l)
  }

  lemma AckOffersAgain(w: World, token: nat, again: set<nat>, left: map<nat, string>, letGo: set<string>, now: Stamp, l: Line)
    requires Inv(w) && AllUnseen(w.sets) && token in w.inflight && l in w.inflight[token]
    requires l in AckBack(w, token, again, left) || l in AckLate(w, token, again, left, letGo)
    ensures ComesAgain(Ack(w, token, again, left, letGo, now), l)
  {
    var w', r := Ack(w, token, again, left, letGo, now), l.set_;
    var back, late := AckBack(w, token, again, left), AckLate(w, token, again, left, letGo);
    LineIsClaimed(w, l);
    AckAccounts(w, token, again, left, letGo, now, r, l.id);
    AckOpens(w, token, again, left, letGo, now, l);
    AckInv(w, token, again, left, letGo, now);
    if l in back { RequeuePlace(back, l); } else { RequeuePlace(late, l); }
    assert w'.inbox == Retried(late) + (Retried(back) + w.inbox);
    if l.tries + 1 < POLL_MAX_TRIES {
      LineIsClaimed(w', l.(tries := l.tries + 1));
    } else {
      CountFound(AckReleased(w, token, again, left, letGo), l);
      IsSettled(w', l);
    }
  }

  lemma AckInv(w: World, token: nat, again: set<nat>, left: map<nat, string>, letGo: set<string>, now: Stamp)
    requires Inv(w)
    ensures Inv(Ack(w, token, again, left, letGo, now))
  {
    AckBalanced(w, token, again, left, letGo, now);
    AckTries(w, token, again, left, letGo, now);
  }

  // what is kept or held is claimed no more, and is one or the other
  lemma AckEnds(w: World, token: nat, again: set<nat>, left: map<nat, string>, letGo: set<string>, now: Stamp, l: Line)
    requires Inv(w) && token in w.inflight && l in w.inflight[token]
    requires l in AckKept(w, token, again, left, letGo, now) || l in AckHolds(w, token, again, left, letGo, now).held
    ensures Claimed(Ack(w, token, again, left, letGo, now), l.set_, l.id) == 0
    ensures l in AckHolds(w, token, again, left, letGo, now).held ==> Count(AckKept(w, token, again, left, letGo, now), l.set_, l.id) == 0
  {
    var kept, held := AckKept(w, token, again, left, letGo, now), AckHolds(w, token, again, left, letGo, now).held;
    AckAccounts(w, token, again, left, letGo, now, l.set_, l.id);
    if l in held { CountFound(held, l); } else { CountFound(kept, l); }
  }

  lemma AckSettles(w: World, token: nat, again: set<nat>, left: map<nat, string>, letGo: set<string>, now: Stamp, l: Line)
    requires Inv(w) && token in w.inflight && l in w.inflight[token]
    requires l in AckKept(w, token, again, left, letGo, now) || l in AckHolds(w, token, again, left, letGo, now).held
    ensures Settled(Ack(w, token, again, left, letGo, now), l)
  {
    AckEnds(w, token, again, left, letGo, now, l);
    LineIsClaimed(w, l);
    AckSet(w, token, again, left, letGo, now, l);
    AckInv(w, token, again, left, letGo, now);
    IsSettled(Ack(w, token, again, left, letGo, now), l);
  }

  // a hold asked for, its file not let go of
  lemma AckHoldPlace(w: World, token: nat, again: set<nat>, left: map<nat, string>, letGo: set<string>, now: Stamp, x: Want)
    requires Inv(w) && token in w.inflight && x.line in w.inflight[token]
    requires x in SortOut(w, w.inflight[token], again, left).wants
    requires GenOfLine(AtHolds(w, token, again, left, letGo), x.line) == x.line.freed
    ensures var e := AckHolds(w, token, again, left, letGo, now);
            Stays(e, x, now) || (x.line in e.took && !RoomToHold(w, x.line, now, |w.inflight[token]|))
  {
    var l, w1, s := x.line, AtHolds(w, token, again, left, letGo), SortOut(w, w.inflight[token], again, left);
    LineIsClaimed(w, l);
    WantedPlace(w1, s.wants, x);
    var sorted := SortOutCounts(w, w.inflight[token], again, left, l.set_, l.id);
    WantedCounts(w1, s.wants, l.set_, l.id);
    AtHoldsSets(w, token, again, left, letGo, l);
    SortOutSizes(w, w.inflight[token], again, left);
    HoldAllPlace(w1.sets, Wanted(w1, s.wants, true), now, x);
  }

  lemma AckLeaves(w: World, token: nat, again: set<nat>, left: map<nat, string>, letGo: set<string>, now: Stamp, x: Want)
    requires Inv(w) && token in w.inflight && x.line in w.inflight[token]
    requires x in SortOut(w, w.inflight[token], again, left).wants
    requires GenOfLine(AtHolds(w, token, again, left, letGo), x.line) == x.line.freed
    ensures Settled(Ack(w, token, again, left, letGo, now), x.line)
    ensures var kept := AckKept(w, token, again, left, letGo, now);
            || (HeldAs(Ack(w, token, again, left, letGo, now).sets, x) && Count(kept, x.line.set_, x.line.id) == 0)
            || (x.line in kept && !RoomToHold(w, x.line, now, |w.inflight[token]|))
  {
    AckHoldPlace(w, token, again, left, letGo, now, x);
    LineIsClaimed(w, x.line);
    AckSettles(w, token, again, left, letGo, now, x.line);
    AckEnds(w, token, again, left, letGo, now, x.line);
    AckSet(w, token, again, left, letGo, now, x.line);
  }

  // nothing waits for l any more, and its id is remembered unless the batch of n lines
  // alone would fill the ring
  ghost predicate HandedOn(w': World, l: Line, n: nat) { Settled(w', l) && (n <= SEEN_KEEP ==> l.id in w'.sets[l.set_].openedIds) }

  // nothing waits for x's line any more, and its id is held and not remembered
  ghost predicate LeftThere(w': World, x: Want) {
    Settled(w', x.line) && HeldAs(w'.sets, x) && x.line.id !in w'.sets[x.line.set_].openedIds
  }

  // l is young enough, and few enough ids are held, for n more to fit
  ghost predicate RoomToHold(w: World, l: Line, now: Stamp, n: nat) {
    l.set_ in w.sets && !HeldGone(l.at, now) && |w.sets[l.set_].held| + n <= SEEN_HELD_KEEP
  }

  lemma IsLate(w: World, token: nat, again: set<nat>, left: map<nat, string>, letGo: set<string>, x: Want)
    requires token in w.inflight && x in SortOut(w, w.inflight[token], again, left).wants
    requires GenOfLine(AtHolds(w, token, again, left, letGo), x.line) != x.line.freed
    ensures x.line in AckLate(w, token, again, left, letGo)
  {
    var w1, wants := AtHolds(w, token, again, left, letGo), SortOut(w, w.inflight[token], again, left).wants;
    WantedPlace(w1, wants, x);
    var k :| 0 <= k < |Wanted(w1, wants, false)| && Wanted(w1, wants, false)[k] == x;
    assert AckLate(w, token, again, left, letGo)[k] == x.line;
  }

  lemma AckStays(w: World, token: nat, again: set<nat>, left: map<nat, string>, letGo: set<string>, now: Stamp, x: Want)
    requires Inv(w) && AllUnseen(w.sets) && token in w.inflight && x.line in w.inflight[token]
    requires x in SortOut(w, w.inflight[token], again, left).wants
    requires GenOfLine(AtHolds(w, token, again, left, letGo), x.line) == x.line.freed
    ensures var w', n := Ack(w, token, again, left, letGo, now), |w.inflight[token]|;
            LeftThere(w', x) || (HandedOn(w', x.line, n) && !RoomToHold(w, x.line, now, n))
  {
    AckLeaves(w, token, again, left, letGo, now, x);
    AckOpens(w, token, again, left, letGo, now, x.line);
    if x.line in AckKept(w, token, again, left, letGo, now) { CountFound(AckKept(w, token, again, left, letGo, now), x.line); }
  }

  lemma AckLeftPlace(w: World, token: nat, again: set<nat>, left: map<nat, string>, letGo: set<string>, now: Stamp, x: Want)
    requires Inv(w) && AllUnseen(w.sets) && token in w.inflight && x.line in w.inflight[token]
    requires x in SortOut(w, w.inflight[token], again, left).wants && GenOfLine(w, x.line) == x.line.freed
    ensures
      var w', n, l := Ack(w, token, again, left, letGo, now), |w.inflight[token]|, x.line;
      && (FileFreed(w, l, letGo) ==> ComesAgain(w', l))
      && (!FileFreed(w, l, letGo) ==> LeftThere(w', x) || (HandedOn(w', l, n) && !RoomToHold(w, l, now, n)))
  {
    LineIsClaimed(w, x.line);
    AtHoldsSets(w, token, again, left, letGo, x.line);
    if FileFreed(w, x.line, letGo) {
      IsLate(w, token, again, left, letGo, x);
      AckOffersAgain(w, token, again, left, letGo, now, x.line);
    } else {
      AckStays(w, token, again, left, letGo, now, x);
    }
  }

  lemma AckPlace(w: World, token: nat, again: set<nat>, left: map<nat, string>, letGo: set<string>, now: Stamp, i: nat)
    requires Inv(w) && AllUnseen(w.sets) && token in w.inflight && i < |w.inflight[token]|
    ensures
      var w', n, l := Ack(w, token, again, left, letGo, now), |w.inflight[token]|, w.inflight[token][i];
      && (i in again || (i in left && FileFreed(w, l, letGo)) ==> ComesAgain(w', l))
      && (i !in again && i !in left ==> HandedOn(w', l, n))
      && (i !in again && i in left && !FileFreed(w, l, letGo) ==>
            LeftThere(w', Want(l, left[i])) || (HandedOn(w', l, n) && !RoomToHold(w, l, now, n)))
  {
    var w', l := Ack(w, token, again, left, letGo, now), w.inflight[token][i];
    SortOutPlace(w, w.inflight[token], again, left, i);
    if i in again || (i in left && GenOfLine(w, l) != l.freed) {
      AckOffersAgain(w, token, again, left, letGo, now, l);
    } else if i !in left {
      AckSettles(w, token, again, left, letGo, now, l);
      CountFound(AckKept(w, token, again, left, letGo, now), l);
      AckOpens(w, token, again, left, letGo, now, l);
    } else {
      AckLeftPlace(w, token, again, left, letGo, now, Want(l, left[i]));
    }
  }

  lemma AckInboxIs(w: World, token: nat, again: set<nat>, left: map<nat, string>, letGo: set<string>, now: Stamp)
    requires token in w.inflight
    ensures Ack(w, token, again, left, letGo, now).inbox
         == Retried(AckLate(w, token, again, left, letGo)) + (Retried(AckBack(w, token, again, left)) + w.inbox)
  {
  }

  lemma EndsIn(a: seq<Line>, b: seq<Line>, c: seq<Line>)
    ensures var s := a + (b + c); |s| >= |c| && s[|s| - |c|..] == c
  {
  }

  lemma AckInboxTail(w: World, token: nat, again: set<nat>, left: map<nat, string>, letGo: set<string>, now: Stamp)
    requires token in w.inflight
    ensures var w' := Ack(w, token, again, left, letGo, now);
            |w'.inbox| >= |w.inbox| && w'.inbox[|w'.inbox| - |w.inbox|..] == w.inbox
  {
    AckInboxIs(w, token, again, left, letGo, now);
    EndsIn(Retried(AckLate(w, token, again, left, letGo)), Retried(AckBack(w, token, again, left)), w.inbox);
  }

  /** Where an ack leaves the line at place i of its batch, in any world a run reaches.
      Refused by the app, or to be left on the relay with its file let go of since: it
      comes again, unless that was its fifth offer. Neither refused nor left: it is
      handed over, nothing waits for it and its id is remembered. Left: it is held with
      its own stamp, group and bounds, or counts as handed over where it is too old or
      too many are held. What waited already waits unmoved behind what comes again. */
  lemma AckPlaces(calls: seq<Call>, token: nat, again: set<nat>, left: map<nat, string>, letGo: set<string>, now: Stamp, i: nat)
    requires var w := Run(START, calls); token in w.inflight && i < |w.inflight[token]|
    ensures
      var w := Run(START, calls);
      var w', n, l := Ack(w, token, again, left, letGo, now), |w.inflight[token]|, w.inflight[token][i];
      && (i in again || (i in left && FileFreed(w, l, letGo)) ==> ComesAgain(w', l))
      && (i !in again && i !in left ==> HandedOn(w', l, n))
      && (i !in again && i in left && !FileFreed(w, l, letGo) ==>
            LeftThere(w', Want(l, left[i])) || (HandedOn(w', l, n) && !RoomToHold(w, l, now, n)))
    ensures
      var w := Run(START, calls);
      var w' := Ack(w, token, again, left, letGo, now);
      |w'.inbox| >= |w.inbox| && w'.inbox[|w'.inbox| - |w.inbox|..] == w.inbox
  {
    var w := Run(START, calls);
    RunKeeps(calls);
    RunUnseen(calls);
    AckPlace(w, token, again, left, letGo, now, i);
    AckInboxTail(w, token, again, left, letGo, now);
  }

  // ---- a poll, line by line ----

  lemma {:induction false} TaggedPlace(lines: seq<Line>, back: set<string>, l: Line)
    requires l in lines
    ensures l in Tagged(lines, back, l.tag in back)
  {
    var front, last := lines[..|lines| - 1], lines[|lines| - 1];
    assert lines == front + [last];
    if l in front { TaggedPlace(front, back, l); }
  }

  lemma {:induction false} GoingPlace(lines: seq<Line>, l: Line)
    requires l in lines
    ensures l in Going(lines, Sendable(l))
  {
    var front, last := lines[..|lines| - 1], lines[|lines| - 1];
    assert lines == front + [last];
    if l in front { GoingPlace(front, l); }
  }

  // l waited as the poll went out: it still does when its address is being walked, and
  // is otherwise in the batch with its file's generation, or cannot go over at all and
  // counts as handed over
  ghost predicate Polled(w': World, back: set<string>, l: Line, n: nat) {
    && (l.tag in back ==> l in w'.inbox)
    && (l.tag !in back && Sendable(l) ==> l.(freed := GenOfLine(w', l)) in Batch(w'))
    && (l.tag !in back && !Sendable(l) ==> HandedOn(w', l, n))
  }

  lemma HandOutGens(w: World, back: set<string>, l: Line)
    ensures GenOfLine(HandOut(w, back), l) == GenOfLine(w, l)
  {
    if l.set_ in w.sets { EndAllQueued(w.sets, Going(Tagged(w.inbox, back, false), false), KeepIt, l.set_); }
  }

  lemma HandOutPlace(w: World, back: set<string>, l: Line)
    requires Balanced(w, []) && AllUnseen(w.sets) && w.inflight == map[] && Inv(HandOut(w, back)) && l in w.inbox
    ensures Polled(HandOut(w, back), back, l, |w.inbox|)
  {
    var w', go := HandOut(w, back), Tagged(w.inbox, back, false);
    TaggedPlace(w.inbox, back, l);
    HandOutGens(w, back, l);
    if l.tag !in back {
      GoingPlace(go, l);
      if Sendable(l) {
        var k :| 0 <= k < |Going(go, true)| && Going(go, true)[k] == l;
        assert Stamped(w, Going(go, true))[k] == l.(freed := GenOfLine(w, l));
      } else {
        HandOutEnds(w, back, l);
        HandOutOpens(w, back, l);
        IsSettled(w', l);
      }
    }
  }

  lemma GoneOnce(w: World, back: set<string>, r: nat, id: ID)
    requires Balanced(w, [])
    ensures Count(Going(Tagged(w.inbox, back, false), false), r, id) <= Claimed(w, r, id) <= 1
  {
    assert Count(w.inbox, r, id) + Count([], r, id) == Claimed(w, r, id);
    TaggedCounts(w.inbox, back, r, id);
    GoingCounts(Tagged(w.inbox, back, false), r, id);
  }

  lemma HandOutEnds(w: World, back: set<string>, l: Line)
    requires Balanced(w, []) && l in Going(Tagged(w.inbox, back, false), false)
    ensures l.set_ in HandOut(w, back).sets && Claimed(HandOut(w, back), l.set_, l.id) == 0
  {
    var r, gone := l.set_, Going(Tagged(w.inbox, back, false), false);
    CountFound(gone, l);
    GoneOnce(w, back, r, l.id);
    EndAllQueued(w.sets, gone, KeepIt, r);
  }

  lemma HandOutOpens(w: World, back: set<string>, l: Line)
    requires Balanced(w, []) && AllUnseen(w.sets) && l in Going(Tagged(w.inbox, back, false), false)
    ensures l.set_ in w.sets && (|w.inbox| <= SEEN_KEEP ==> l.id in HandOut(w, back).sets[l.set_].openedIds)
  {
    var r, gone := l.set_, Going(Tagged(w.inbox, back, false), false);
    CountFound(gone, l);
    forall id ensures Count(gone, r, id) <= Claimed(w, r, id) <= 1 { GoneOnce(w, back, r, id); }
    assert r in w.sets && l.id in w.sets[r].queued;
    EndAllSet(w.sets, gone, KeepIt, r);
    PartSizes(w.inbox, back);
    RingOf(w.sets[r].openedIds, gone, r, l.id);
  }

  lemma {:induction false} PartSizes(lines: seq<Line>, back: set<string>)
    ensures |Going(Tagged(lines, back, false), false)| <= |Tagged(lines, back, false)| <= |lines|
    ensures |Retried(lines)| <= |lines|
  {
    if lines != [] { PartSizes(lines[..|lines| - 1], back); }
    GoingSizes(Tagged(lines, back, false));
  }

  lemma {:induction false} GoingSizes(lines: seq<Line>)
    ensures |Going(lines, false)| <= |lines|
  {
    if lines != [] { GoingSizes(lines[..|lines| - 1]); }
  }

  /** Where a poll leaves each line, in any world a run reaches: the lines that waited
      and those of the batch that was never confirmed, one offer further on, go out or
      are kept back by their address alone; one offered five times is let go of. */
  lemma PollPlaces(calls: seq<Call>, back: set<string>, l: Line)
    ensures
      var w := Run(START, calls);
      var w' := Poll(w, back);
      var n := |Batch(w)| + |w.inbox|;
      && (l in w.inbox ==> Polled(w', back, l, n))
      && (l in Batch(w) && l.tries + 1 < POLL_MAX_TRIES ==> Polled(w', back, l.(tries := l.tries + 1), n))
      && (l in Batch(w) && l.tries + 1 >= POLL_MAX_TRIES ==> Settled(w', l) && l.id !in w'.sets[l.set_].openedIds)
  {
    var w := Run(START, calls);
    RunKeeps(calls);
    RunUnseen(calls);
    StepKeeps(w, DoPoll(back));
    EndAllUnseen(w.sets, Released(Batch(w)), ReleaseIt);
    PartSizes(Batch(w), back);
    var w1 := Requeue(w.(inflight := map[]), Batch(w));
    assert Batch(w) + [] == Batch(w);
    RequeueBalanced(w.(inflight := map[]), Batch(w), []);
    if l in w.inbox { HandOutPlace(w1, back, l); }
    if l in Batch(w) {
      RequeuePlace(Batch(w), l);
      if l.tries + 1 < POLL_MAX_TRIES {
        HandOutPlace(w1, back, l.(tries := l.tries + 1));
      } else {
        PollEnds(w, back, l);
        IsSettled(Poll(w, back), l);
      }
    }
  }

  lemma PollEnds(w: World, back: set<string>, l: Line)
    requires Inv(w) && AllUnseen(w.sets) && l in Batch(w) && l in Released(Batch(w))
    ensures l.set_ in Poll(w, back).sets && Claimed(Poll(w, back), l.set_, l.id) == 0
    ensures l.id !in Poll(w, back).sets[l.set_].openedIds
  {
    var r, w1 := l.set_, Requeue(w.(inflight := map[]), Batch(w));
    var gone := Going(Tagged(w1.inbox, back, false), false);
    LineIsClaimed(w, l);
    assert Unseen(w.sets[r]);
    CountFound(Released(Batch(w)), l);
    forall id ensures Count(gone, r, id) <= 1 { PollAccounts(w, back, r, id); }
    PollAccounts(w, back, r, l.id);
    EndAllSet(w.sets, Released(Batch(w)), ReleaseIt, r);
    EndAllSet(w1.sets, gone, KeepIt, r);
    RingOf(w1.sets[r].openedIds, gone, r, l.id);
  }

  /** Letting a file's holds go: every id held there is to be fetched again, and a copy of
      it that opens is delivered; the file's generation has moved on, so no hold asked for
      before it is booked after. Other files are left alone. */
  lemma LetGoWantsAgain(calls: seq<Call>, paths: set<string>, l: Line)
    requires l.set_ in Run(START, calls).sets
    ensures
      var w := Run(START, calls);
      var w', s := LetGo(w, paths), w.sets[l.set_];
      && w'.inbox == w.inbox && w'.inflight == w.inflight
      && l.set_ in w'.sets && GenOfLine(w', l) == GenOfLine(w, l) + (if s.path in paths then 1 else 0)
      && (s.path !in paths ==> w'.sets[l.set_] == s)
      && (s.path in paths && l.id in s.held ==>
            && l.id in w'.sets[l.set_].held && w'.sets[l.set_].held[l.id] == s.held[l.id].(free := true)
            && (l.id !in s.openedIds && l.id !in s.unopenedIds && l.id !in s.queued ==> l.(tries := 0, freed := 0) in Take(w', false, true, l).inbox))
  {
  }

  // ---- a batch's token is its own ----

  // no batch of token t or before is out, and none will be
  ghost predicate Past(w: World, t: nat) { w.token >= t && forall k :: k in w.inflight ==> k > t }

  lemma PollPast(w: World, back: set<string>, t: nat)
    requires w.token >= t
    ensures Past(Poll(w, back), t)
  {
  }

  lemma {:induction false} RunPast(w: World, calls: seq<Call>, t: nat)
    requires Past(w, t)
    ensures Past(Run(w, calls), t)
  {
    if calls != [] {
      var w1, c := Run(w, calls[..|calls| - 1]), calls[|calls| - 1];
      RunPast(w, calls[..|calls| - 1], t);
      if c.DoPoll? { PollPast(w1, c.back, t); }
    }
  }

  /** Once another poll has gone out, an answer to any batch from before it changes nothing,
      however late it comes: no token is used twice. */
  lemma OldAckChangesNothing(calls: seq<Call>, back: set<string>, more: seq<Call>, token: nat,
                             again: set<nat>, left: map<nat, string>, letGo: set<string>, now: Stamp)
    requires token <= Run(START, calls).token
    ensures var w := Run(Poll(Run(START, calls), back), more); Ack(w, token, again, left, letGo, now) == w
  {
    var w := Run(START, calls);
    PollPast(w, back, w.token);
    RunPast(Poll(w, back), more, w.token);
  }

  // ---- nothing is made up ----

  // the same delivery, whatever its offers and generation
  predicate Same(a: Line, b: Line) { a == b.(tries := a.tries, freed := a.freed) }

  ghost predicate Known(w: World, l: Line) { exists l0 :: (l0 in w.inbox || l0 in Batch(w)) && Same(l, l0) }

  lemma RequeueFrom(w: World, lines: seq<Line>, l: Line)
    requires l in Requeue(w, lines).inbox
    ensures l in w.inbox || exists l0 :: l0 in lines && Same(l, l0)
  {
    if l in Retried(lines) { RetriedFrom(lines, l); }
  }

  lemma PollFrom(w: World, back: set<string>, l: Line)
    requires l in Poll(w, back).inbox || l in Batch(Poll(w, back))
    ensures Known(w, l)
  {
    var w1 := Requeue(w.(inflight := map[]), Batch(w));
    var l1 := l;
    if l in Poll(w, back).inbox {
      TaggedFrom(w1.inbox, back, true, l);
    } else {
      l1 := BatchFrom(w1, back, l);
    }
    assert Same(l, l1);
    RequeueFrom(w.(inflight := map[]), Batch(w), l1);
    if l1 in w.inbox { assert Same(l, l1); } else { var l0 :| l0 in Batch(w) && Same(l1, l0); assert Same(l, l0); }
  }

  lemma AckFrom(w: World, token: nat, again: set<nat>, left: map<nat, string>, letGo: set<string>, now: Stamp, l: Line)
    requires w.inflight.Keys <= {w.token} && l in Ack(w, token, again, left, letGo, now).inbox
    ensures Known(w, l)
  {
    if token !in w.inflight || l in w.inbox {
      assert Same(l, l);
    } else {
      var back, late := AckBack(w, token, again, left), AckLate(w, token, again, left, letGo);
      assert Ack(w, token, again, left, letGo, now).inbox == Retried(late) + (Retried(back) + w.inbox);
      var l0: Line;
      if l in Retried(back) {
        RetriedFrom(back, l);
        l0 :| l0 in back && l == l0.(tries := l0.tries + 1);
      } else {
        RetriedFrom(late, l);
        l0 :| l0 in late && l == l0.(tries := l0.tries + 1);
        WantedFrom(AtHolds(w, token, again, left, letGo), SortOut(w, w.inflight[token], again, left).wants, false, l0);
      }
      SortOutFrom(w, w.inflight[token], again, left, l0);
      assert l0 in Batch(w) && Same(l, l0);
    }
  }

  // one of the calls took this very delivery, and it was the peer's and opened
  ghost predicate TakenIn(calls: seq<Call>, l: Line) {
    exists k :: 0 <= k < |calls| && calls[k].DoTake? && calls[k].unwraps && !calls[k].mine && Same(l, calls[k].line)
  }

  lemma TakenLater(calls: seq<Call>, c: Call, l: Line, l0: Line)
    requires TakenIn(calls, l0) && Same(l, l0)
    ensures TakenIn(calls + [c], l)
  {
    var k :| 0 <= k < |calls| && calls[k].DoTake? && calls[k].unwraps && !calls[k].mine && Same(l0, calls[k].line);
    assert (calls + [c])[k] == calls[k] && Same(l, calls[k].line);
  }

  lemma StepFrom(w: World, c: Call, l: Line)
    requires Inv(w) && (l in Step(w, c).inbox || l in Batch(Step(w, c)))
    ensures Known(w, l) || (c.DoTake? && c.unwraps && !c.mine && Same(l, c.line))
  {
    match c
    case DoTake(mine, unwraps, x) => if l in w.inbox || l in Batch(w) { assert Same(l, l); } else { assert Same(l, x); }
    case DoPoll(back) => PollFrom(w, back, l);
    case DoAck(token, again, left, letGo, now) =>
      if l in Step(w, c).inbox { AckFrom(w, token, again, left, letGo, now, l); } else { assert Same(l, l); }
    case DoLetGo(paths) => assert Same(l, l);
    case DoStart(r, path) => assert Same(l, l);
  }

  /** Over every run, each line that waits or is out is a wrap some take let in, opened
      and not ours, unchanged but for its offers. */
  lemma {:induction false} RunGenuine(calls: seq<Call>, l: Line)
    requires var w := Run(START, calls); l in w.inbox || l in Batch(w)
    ensures TakenIn(calls, l)
  {
    var front, c := calls[..|calls| - 1], calls[|calls| - 1];
    var w := Run(START, front);
    RunKeeps(front);
    StepFrom(w, c, l);
    assert calls == front + [c];
    if Known(w, l) {
      var l0 :| (l0 in w.inbox || l0 in Batch(w)) && Same(l, l0);
      RunGenuine(front, l0);
      TakenLater(front, c, l, l0);
    } else {
      assert calls[|front|] == c;
    }
  }
}
