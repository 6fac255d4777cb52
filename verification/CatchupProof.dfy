/**
 Every step keeps the invariant of CatchupRun, as long as what is booked keeps the
 window over all it may leave behind: so every such run keeps the bound.
 */
module CatchupProof {
  import opened Stamps
  import opened Walk
  import opened Book
  import opened CatchupRun

  // ---- what the invariant says of the next window ----

  // no base is above the anchor it was taken from or a hold, and one that is taken
  // from the anchor as it stands is the lowest there is
  lemma BaseIsLow(own: seq<Key>, s: State, k: Key, last: Stamp)
    requires k in own && last <= s.anchor
    ensures s.book.Connect(k, own, last, s.now).base <= Low(own, s)
    ensures last == s.anchor ==> s.book.Connect(k, own, last, s.now).base == Low(own, s)
  {
    var base := s.book.Connect(k, own, last, s.now).base;
    forall j | j in own && s.book.HoldOf(j).Held() ensures base <= s.book.HoldOf(j).floor {
      assert j != k ==> j in Others(own, k);
    }
    assert base <= Low(own, s);
  }

  lemma InvGivesBound(own: seq<Key>, s: State)
    requires Inv(own, s)
    ensures Bound(own, s)
  {
    forall w, k, last | w in s.missing && k in own && last <= s.anchor
      ensures w.ev.at >= Since(s.book.Connect(k, own, last, s.now).base)
    {
      assert WrapOK(own, s, w);
      BaseIsLow(own, s, k, last);
    }
    forall w | w in s.missing ensures w.ev.at >= Since(s.disk) {
      assert WrapOK(own, s, w);
    }
  }

  // the lowest base goes down with the anchor and the holds
  lemma LowFalls(own: seq<Key>, b: Ledger, anchor: Stamp, b': Ledger, anchor': Stamp)
    requires anchor' <= anchor
    requires forall k :: k in own && b.HoldOf(k).Held() ==> b'.HoldOf(k).Held() && b'.HoldOf(k).floor <= b.HoldOf(k).floor
    ensures b'.LowestFrom(own, anchor') <= b.LowestFrom(own, anchor)
  {
  }

  // ---- links ----

  // time passing and wraps handed over take nothing from what is known of a link
  lemma LinkLasts(own: seq<Key>, now: Stamp, store: set<Wrap>, missing: set<Wrap>, l: Link,
                  now': Stamp, missing': set<Wrap>)
    requires LinkOK(own, now, store, missing, l) && now' >= now && missing' <= missing
    ensures LinkOK(own, now', store, missing', l)
  {
  }

  // nor does a wrap that arrives while the link does not listen
  lemma LinkSeesArrival(own: seq<Key>, now: Stamp, store: set<Wrap>, missing: set<Wrap>, l: Link, w: Wrap)
    requires LinkOK(own, now, store, missing, l) && !l.Listening() && w !in store
    requires w.arrived == now && w.ev.at >= now - JITTER
    ensures LinkOK(own, now, store + {w}, missing + {w}, l)
  {
  }

  lemma LinkSeesStore(own: seq<Key>, now: Stamp, store: set<Wrap>, missing: set<Wrap>, l: Link, w: Wrap)
    requires LinkOK(own, now, store, missing, l)
    ensures LinkOK(own, now, store + {w}, missing, l)
  {
  }

  // every stamp still missing is in the window the link asked for
  lemma InLinksWindow(own: seq<Key>, s: State, l: Link, w: Wrap)
    requires LinkOK(own, s.now, s.store, s.missing, l) && w in s.missing && w.ev.at > 0
    ensures w.ev.at >= Since(l.conn.base)
  {
  }

  lemma LinkBooks(own: seq<Key>, s: State, id: nat, what: Booking, s': State)
    requires Inv(own, s) && Next(own, s, Book(id, what), s')
    ensures LinkOK(own, s'.now, s'.store, s'.missing, s'.links[id])
  {
    var l := s.links[id];
    LinkLasts(own, s.now, s.store, s.missing, l, s.now, s'.missing);
    forall w | w in s'.missing && w in l.due ensures Left(l, what, w.ev.at) {
      assert WrapOK(own, s, w);
      InLinksWindow(own, s, l, w);
    }
  }

  // ---- marks ----

  // only a kept first answer and a walk cut short make a mark
  lemma OtherMarks(own: seq<Key>, s: State, id: nat, what: Booking, s': State, k: Key)
    requires Inv(own, s) && Next(own, s, Book(id, what), s')
    requires k != s.links[id].conn.key || !(what.KeepFirst? || what.WalkCut?)
    ensures s'.book.MarkOf(k) == s.book.MarkOf(k) || !s'.book.MarkOf(k).Started()
    ensures s'.AgeOf(k) == s.AgeOf(k)
  {
    var l := s.links[id];
    if what.AnswerShort? || what.WalkDone? {
      var stepped := what.WalkDone? && l.phase.skip.Started();
      var b := s.book.(marks := s.book.marks - {l.conn.key});
      if l.conn.own {
        FreeAllHolds(b.SetHold(l.conn.key, b.HoldOf(l.conn.key).Done(stepped)), l.conn.twins, l.conn.base, k);
      }
    }
  }

  lemma KeptMark(own: seq<Key>, s: State, id: nat, oldest: Stamp, s': State)
    requires Inv(own, s) && Next(own, s, Book(id, KeepFirst(oldest)), s')
    ensures MarkOK(s', s.links[id].conn.key)
  {
    var l := s.links[id];
    var k := l.conn.key;
    assert MarkOK(s, k);
    forall w | w in s'.missing ensures w in l.due ==> w.ev.at <= oldest {
      assert WrapOK(own, s, w);
      InLinksWindow(own, s, l, w);
      assert w in l.due ==> Left(l, KeepFirst(oldest), w.ev.at);
    }
  }

  lemma CutShortMark(own: seq<Key>, s: State, id: nat, until: Stamp, s': State)
    requires Inv(own, s) && Next(own, s, Book(id, WalkCut(until)), s')
    ensures MarkOK(s', s.links[id].conn.key)
  {
    var l := s.links[id];
    var k := l.conn.key;
    assert MarkOK(s, k);
    forall w | w in s'.missing ensures w in l.due ==> w.ev.at <= until || l.phase.skip.Ground(w.ev.at) {
      assert WrapOK(own, s, w);
      InLinksWindow(own, s, l, w);
      assert w in l.due ==> Left(l, WalkCut(until), w.ev.at);
    }
  }

  lemma MarksBook(own: seq<Key>, s: State, id: nat, what: Booking, s': State, k: Key)
    requires Inv(own, s) && Next(own, s, Book(id, what), s')
    ensures MarkOK(s', k)
  {
    assert MarkOK(s, k);
    if k == s.links[id].conn.key && what.KeepFirst? {
      KeptMark(own, s, id, what.oldest, s');
    } else if k == s.links[id].conn.key && what.WalkCut? {
      CutShortMark(own, s, id, what.until, s');
    } else {
      OtherMarks(own, s, id, what, s', k);
    }
  }

  // ---- what a booking leaves ----

  // a wrap left behind was due and not fetched, or came after the socket was last
  // heard, or lies on the ground stepped over; Covers has an answer to each
  lemma CoversLeft(l: Link, what: Booking, least: Stamp, low: Stamp, w: Wrap, due: bool)
    requires Fits(l.phase, what) && Covers(l, what, least, low) && MayLeave(l, what, w, due) && w.ev.at >= least
    ensures w.ev.at >= low
  {
  }

  lemma LeftMayBe(own: seq<Key>, s: State, id: nat, what: Booking, s': State, w: Wrap)
    requires Inv(own, s) && Next(own, s, Book(id, what), s') && w in s'.missing
    ensures MayLeave(s.links[id], what, w, w in s.links[id].due)
    ensures w.ev.at >= Least(own, s, s.links[id])
  {
    var l := s.links[id];
    assert WrapOK(own, s, w) && LinkOK(own, s.now, s.store, s.missing, l);
    if w in l.due {
      InLinksWindow(own, s, l, w);
      assert Left(l, what, w.ev.at);
    }
  }

  lemma SafeKeepsWindow(own: seq<Key>, s: State, id: nat, what: Booking, s': State, w: Wrap)
    requires Inv(own, s) && Next(own, s, Book(id, what), s') && w in s'.missing
    requires Safe(own, s, s.links[id], what)
    ensures w.ev.at >= Low(own, s') - WINDOW
  {
    var l := s.links[id];
    LeftMayBe(own, s, id, what, s', w);
    CoversLeft(l, what, Least(own, s, l), LowAfter(own, s, l, what), w, w in l.due);
  }

  // all but the window, whatever is booked
  lemma BookKeeps(own: seq<Key>, s: State, id: nat, what: Booking, s': State)
    requires Inv(own, s) && Next(own, s, Book(id, what), s')
    requires forall w :: w in s'.missing ==> w.ev.at >= Low(own, s') - WINDOW
    ensures Inv(own, s')
  {
    forall w | w in s'.missing ensures WrapOK(own, s', w) {
      assert WrapOK(own, s, w);
    }
    forall k ensures MarkOK(s', k) {
      MarksBook(own, s, id, what, s', k);
    }
    forall j | j in s'.links ensures j < s'.next && LinkOK(own, s'.now, s'.store, s'.missing, s'.links[j]) {
      if j == id { LinkBooks(own, s, id, what, s'); } else { LinkLasts(own, s.now, s.store, s.missing, s.links[j], s.now, s'.missing); }
    }
  }

  // ---- the other steps ----

  lemma TickKeeps(own: seq<Key>, s: State, to: Stamp, s': State)
    requires Inv(own, s) && Next(own, s, Tick(to), s')
    ensures Inv(own, s')
  {
    forall w | w in s'.missing ensures WrapOK(own, s', w) {
      assert WrapOK(own, s, w);
    }
    forall k ensures MarkOK(s', k) {
      assert MarkOK(s, k);
    }
    forall j | j in s'.links ensures LinkOK(own, s'.now, s'.store, s'.missing, s'.links[j]) {
      LinkLasts(own, s.now, s.store, s.missing, s.links[j], to, s.missing);
    }
  }

  // a wrap that arrives now is stamped inside every window there is
  lemma ArriveKeeps(own: seq<Key>, s: State, w: Wrap, s': State)
    requires Inv(own, s) && Next(own, s, Arrive(w), s')
    ensures Inv(own, s')
  {
    forall v | v in s'.missing ensures WrapOK(own, s', v) {
      assert v != w ==> WrapOK(own, s, v);
    }
    forall k ensures MarkOK(s', k) {
      assert MarkOK(s, k);
    }
    forall j | j in s'.links ensures LinkOK(own, s'.now, s'.store, s'.missing, s'.links[j]) {
      if SomeoneListens(s) {
        LinkSeesStore(own, s.now, s.store, s.missing, s.links[j], w);
      } else {
        LinkSeesArrival(own, s.now, s.store, s.missing, s.links[j], w);
      }
    }
  }

  lemma ConnectKeeps(own: seq<Key>, s: State, k: Key, last: Stamp, s': State)
    requires Inv(own, s) && Next(own, s, Connect(k, last), s')
    ensures Inv(own, s')
  {
    var l := s'.links[s.next];
    BaseIsLow(own, s, k, last);
    forall w | w in s.missing ensures WrapOK(own, s', w) && w.ev.at >= l.conn.base - WINDOW {
      assert WrapOK(own, s, w);
    }
    forall j ensures MarkOK(s', j) {
      assert MarkOK(s, j);
    }
  }

  // the steps that change one link alone
  lemma LinkStepKeeps(own: seq<Key>, s: State, id: nat, l: Link, s': State)
    requires Inv(own, s) && id in s.links && s' == s.(links := s.links[id := l])
    requires LinkOK(own, s.now, s.store, s.missing, l)
    ensures Inv(own, s')
  {
    forall w | w in s'.missing ensures WrapOK(own, s', w) {
      assert WrapOK(own, s, w);
    }
    forall k ensures MarkOK(s', k) {
      assert MarkOK(s, k);
    }
  }

  lemma SubscribeKeeps(own: seq<Key>, s: State, id: nat, s': State)
    requires Inv(own, s) && Next(own, s, Subscribe(id), s')
    ensures Inv(own, s')
  {
    forall w | w in s.missing ensures WrapOK(own, s, w) {}
    LinkStepKeeps(own, s, id, s'.links[id], s');
  }

  lemma BeginWalkKeeps(own: seq<Key>, s: State, id: nat, s': State)
    requires Inv(own, s) && Next(own, s, BeginWalk(id), s')
    ensures Inv(own, s')
  {
    var l := s'.links[id];
    assert MarkOK(s, l.conn.key);
    LinkStepKeeps(own, s, id, l, s');
  }

  lemma DropKeeps(own: seq<Key>, s: State, id: nat, s': State)
    requires Inv(own, s) && Next(own, s, Drop(id), s')
    ensures Inv(own, s')
  {
    LinkStepKeeps(own, s, id, s'.links[id], s');
  }

  // a save never passes the lowest base
  lemma SaveKeeps(own: seq<Key>, s: State, disk: Stamp, s': State)
    requires Inv(own, s) && Next(own, s, Save(disk), s')
    ensures Inv(own, s')
  {
    forall w | w in s'.missing ensures WrapOK(own, s', w) {
      assert WrapOK(own, s, w);
    }
    forall k ensures MarkOK(s', k) {
      assert MarkOK(s, k);
    }
  }

  lemma StartKeeps(own: seq<Key>, s: State, s': State)
    requires Inv(own, s) && Next(own, s, Start, s')
    ensures Inv(own, s')
  {
    forall k | k in own { StartHolds(s.book, own, Min(s.disk, s.now), s.now, k); }
    LowFalls(own, s.book, s.anchor, s'.book, s'.anchor);
    forall w | w in s'.missing ensures WrapOK(own, s', w) {
      assert WrapOK(own, s, w);
    }
    forall k ensures MarkOK(s', k) {
      StartHolds(s.book, own, Min(s.disk, s.now), s.now, k);
      assert MarkOK(s, k);
    }
  }

  // after a restart only the file is known, and nothing missing is under its window
  lemma RestartKeeps(own: seq<Key>, s: State, s': State)
    requires Inv(own, s) && Next(own, s, Restart, s')
    ensures Inv(own, s')
  {
    forall w | w in s'.missing ensures WrapOK(own, s', w) {
      assert WrapOK(own, s, w);
    }
    forall k ensures MarkOK(s', k) {
      StartHolds(EMPTY, own, s'.anchor, s.now, k);
    }
  }

  lemma OtherStepKeeps(own: seq<Key>, s: State, step: Step, s': State)
    requires Inv(own, s) && Next(own, s, step, s') && !step.Book?
    ensures Inv(own, s')
  {
    match step
    case Tick(to) => TickKeeps(own, s, to, s');
    case Arrive(w) => ArriveKeeps(own, s, w, s');
    case Connect(k, last) => ConnectKeeps(own, s, k, last, s');
    case Subscribe(id) => SubscribeKeeps(own, s, id, s');
    case BeginWalk(id) => BeginWalkKeeps(own, s, id, s');
    case Drop(id) => DropKeeps(own, s, id, s');
    case Save(disk) => SaveKeeps(own, s, disk, s');
    case Start => StartKeeps(own, s, s');
    case Restart => RestartKeeps(own, s, s');
  }

  // ---- runs ----

  lemma InitHolds(own: seq<Key>, s: State)
    requires Init(own, s)
    ensures Inv(own, s)
  {
    forall k ensures MarkOK(s, k) {
      StartHolds(EMPTY, own, 0, s.now, k);
    }
  }

  ghost predicate SafeStep(own: seq<Key>, s: State, step: Step) {
    step.Book? && CanBook(s, step.id, step.what) ==> Safe(own, s, s.links[step.id], step.what)
  }

  /** A step keeps the invariant when, should it book or move the anchor, the new
      window covers all it may leave. */
  lemma StepKeeps(own: seq<Key>, s: State, step: Step, s': State)
    requires Inv(own, s) && Next(own, s, step, s') && SafeStep(own, s, step)
    ensures Inv(own, s')
  {
    if step.Book? {
      forall w | w in s'.missing ensures w.ev.at >= Low(own, s') - WINDOW {
        SafeKeepsWindow(own, s, step.id, step.what, s', w);
      }
      BookKeeps(own, s, step.id, step.what, s');
    } else {
      OtherStepKeeps(own, s, step, s');
    }
  }

  // a run: the states it goes through, and the step between each two
  ghost predicate IsRun(own: seq<Key>, states: seq<State>, steps: seq<Step>) {
    && |states| == |steps| + 1
    && Init(own, states[0])
    && forall i :: 0 <= i < |steps| ==> Next(own, states[i], steps[i], states[i + 1])
  }

  /** Any number of connections on any entries, late ones included: as long as every
      booking is safe, nothing missing is ever under a next window. */
  lemma {:induction false} SafeRunsKeepBound(own: seq<Key>, states: seq<State>, steps: seq<Step>, n: nat)
    requires IsRun(own, states, steps) && n < |states|
    requires forall i :: 0 <= i < n ==> SafeStep(own, states[i], steps[i])
    ensures Inv(own, states[n]) && Bound(own, states[n])
  {
    if n == 0 {
      InitHolds(own, states[0]);
    } else {
      SafeRunsKeepBound(own, states, steps, n - 1);
      StepKeeps(own, states[n - 1], steps[n - 1], states[n]);
    }
    InvGivesBound(own, states[n]);
  }
}
