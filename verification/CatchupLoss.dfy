/**
 Two runs that leave a stored wrap behind for good. With an onion and a clearnet name
 as entries: both connections step over walked ground, and the second pass lets the
 first one's hold go while its own is gone already (engine/catchup/book.go, Done). With
 one entry: the walk of a connection that is gone books its cut after the next one
 connected, which then steps over ground it knows nothing of and holds only from its own
 beginning.
 */
module CatchupLoss {
  import opened Stamps
  import opened Walk
  import opened Book
  import opened CatchupRun
  import opened CatchupProof
  import opened CatchupGap
  import opened CatchupTimely

  // ---- runs step by step ----

  // a run to s whose steps are timely, but for one: the cut booked late, if late
  ghost predicate RunTo(own: seq<Key>, s: State, late: bool) {
    exists states, steps, n :: IsRunTo(own, s, late, states, steps, n)
  }

  ghost predicate IsRunTo(own: seq<Key>, s: State, late: bool, states: seq<State>, steps: seq<Step>, n: nat) {
    && IsRun(own, states, steps) && states[|steps|] == s
    && (forall i :: 0 <= i < |steps| && i != n ==> Timely(own, states[i], steps[i]))
    && (if late then n < |steps| && steps[n].Book? && steps[n].what.WalkCut? else n == |steps|)
  }

  lemma RunFrom(own: seq<Key>, s: State)
    requires Init(own, s)
    ensures RunTo(own, s, false)
  {
    assert IsRunTo(own, s, false, [s], [], 0);
  }

  lemma Extend(own: seq<Key>, states: seq<State>, steps: seq<Step>, step: Step, s': State)
    requires IsRun(own, states, steps) && Next(own, states[|steps|], step, s')
    ensures IsRun(own, states + [s'], steps + [step])
  {
    var states', steps' := states + [s'], steps + [step];
    forall i | 0 <= i < |steps'| ensures Next(own, states'[i], steps'[i], states'[i + 1]) {
      if i < |steps| { assert Next(own, states[i], steps[i], states[i + 1]); }
    }
  }

  lemma ExtendTo(own: seq<Key>, s: State, late: bool, states: seq<State>, steps: seq<Step>, n: nat, step: Step, s': State)
    requires IsRunTo(own, s, late, states, steps, n) && Next(own, s, step, s') && Timely(own, s, step)
    ensures RunTo(own, s', late)
  {
    Extend(own, states, steps, step, s');
    var states', steps' := states + [s'], steps + [step];
    var n' := if late then n else |steps'|;
    forall i | 0 <= i < |steps'| && i != n' ensures Timely(own, states'[i], steps'[i]) {
      if i < |steps| { assert Timely(own, states[i], steps[i]); }
    }
    assert IsRunTo(own, s', late, states', steps', n');
  }

  lemma Then(own: seq<Key>, s: State, late: bool, step: Step, s': State)
    requires RunTo(own, s, late) && Next(own, s, step, s') && Timely(own, s, step)
    ensures RunTo(own, s', late)
  {
    var states, steps, n :| IsRunTo(own, s, late, states, steps, n);
    ExtendTo(own, s, late, states, steps, n, step, s');
  }

  lemma ThenLate(own: seq<Key>, s: State, id: nat, until: Stamp, s': State)
    requires RunTo(own, s, false) && Next(own, s, Book(id, WalkCut(until)), s')
    ensures RunTo(own, s', true)
  {
    var states, steps, n :| IsRunTo(own, s, false, states, steps, n);
    var step := Book(id, WalkCut(until));
    Extend(own, states, steps, step, s');
    var states', steps' := states + [s'], steps + [step];
    forall i | 0 <= i < |steps'| && i != |steps| ensures Timely(own, states'[i], steps'[i]) {
      assert Timely(own, states[i], steps[i]);
    }
    assert IsRunTo(own, s', true, states', steps', |steps|);
  }

  // ---- steps of the connection dialled last ----

  // nobody is listening, and ids are given out in order
  ghost predicate Quiet(s: State) {
    && s.first == 0 && (forall id :: id in s.links ==> id < s.next && !s.links[id].up)
  }

  lemma LastIsCurrent(s: State, id: nat)
    requires s.first == 0 && id in s.links && forall j :: j in s.links ==> j <= id
    ensures Current(s, id)
  {
  }

  // a connection on k that has subscribed
  ghost function Asked(own: seq<Key>, s: State, k: Key): State {
    var l := Link(s.book.Connect(k, own, 0, s.now), s.now, s.now, s.now, s.missing, true, Asking);
    s.(links := s.links[s.next := l], next := s.next + 1)
  }

  lemma Ask(own: seq<Key>, s: State, k: Key)
    requires RunTo(own, s, false) && k in own && 0 <= s.anchor && 0 <= s.now
    ensures RunTo(own, Asked(own, s, k), false)
  {
    var c := s.book.Connect(k, own, 0, s.now);
    var l0 := Link(c, s.now, 0, s.now, {}, true, Dialled);
    var s1 := s.(links := s.links[s.next := l0], next := s.next + 1);
    Then(own, s, false, Step.Connect(k, 0), s1);
    var s2 := Asked(own, s, k);
    assert s2.links == s1.links[s.next := l0.(due := s1.missing, asked := s1.now, phase := Asking)];
    Then(own, s1, false, Subscribe(s.next), s2);
  }

  lemma TickTo(own: seq<Key>, s: State, to: Stamp)
    requires RunTo(own, s, false) && to >= s.now
    ensures RunTo(own, s.(now := to), false)
  {
    Then(own, s, false, Tick(to), s.(now := to));
  }

  lemma Comes(own: seq<Key>, s: State, w: Wrap)
    requires RunTo(own, s, false) && Quiet(s) && w !in s.store && w.arrived == s.now && w.ev.at > 0 && w.ev.at >= s.now - JITTER
    ensures RunTo(own, s.(store := s.store + {w}, missing := s.missing + {w}), false)
  {
    Then(own, s, false, Arrive(w), s.(store := s.store + {w}, missing := s.missing + {w}));
  }

  // ---- many wraps at once ----

  function Nth(i: nat, at: Stamp, now: Stamp): Wrap { Wrap(Event(100 + i, at - i), now) }

  // n wraps that arrive at now, stamped from at down
  function Crowd(n: nat, at: Stamp, now: Stamp): set<Wrap> {
    set i | 0 <= i < n :: Nth(i, at, now)
  }

  lemma CrowdGrows(n: nat, at: Stamp, now: Stamp)
    ensures Crowd(n + 1, at, now) == Crowd(n, at, now) + {Nth(n, at, now)} && Nth(n, at, now) !in Crowd(n, at, now)
  {
    assert forall i :: 0 <= i < n ==> Nth(i, at, now) in Crowd(n + 1, at, now);
  }

  lemma {:induction false} CrowdSize(n: nat, at: Stamp, now: Stamp)
    ensures |Crowd(n, at, now)| == n
  {
    if n > 0 {
      CrowdSize(n - 1, at, now);
      CrowdGrows(n - 1, at, now);
    }
  }

  lemma {:induction false} CrowdComes(own: seq<Key>, s: State, n: nat, at: Stamp)
    requires RunTo(own, s, false) && Quiet(s) && at - n > 0 && at - n >= s.now - JITTER
    requires forall w :: w in s.store ==> w.ev.id < 100
    ensures var c := Crowd(n, at, s.now); RunTo(own, s.(store := s.store + c, missing := s.missing + c), false)
  {
    if n == 0 {
      var c := Crowd(0, at, s.now);
      assert c == {} && s.store + c == s.store && s.missing + c == s.missing;
      assert s.(store := s.store + c, missing := s.missing + c) == s;
    } else {
      CrowdComes(own, s, n - 1, at);
      var c, w := Crowd(n - 1, at, s.now), Nth(n - 1, at, s.now);
      CrowdGrows(n - 1, at, s.now);
      var s1 := s.(store := s.store + c, missing := s.missing + c);
      Comes(own, s1, w);
      assert s1.store + {w} == s.store + Crowd(n, at, s.now) && s1.missing + {w} == s.missing + Crowd(n, at, s.now);
    }
  }

  // an answer with the crowd in it is full
  lemma CrowdFills(store: set<Wrap>, n: nat, at: Stamp, now: Stamp)
    requires Crowd(n, at, now) <= store && at - n > 0
    ensures |InWindow(store, 0, at - n + 1)| >= n
  {
    CrowdSize(n, at, now);
    FewerIn(Crowd(n, at, now), InWindow(store, 0, at - n + 1));
  }

  // ---- two entries ----

  const ONION: Key := "onion"
  const CLEAR: Key := "clear"
  const OURS: seq<Key> := [ONION, CLEAR]
  const T0: Stamp := 1_000_000
  const T1: Stamp := T0 + 30_000
  const OLD := Wrap(Event(1, T0 - 30_000), T0)
  const LATE := Wrap(Event(2, T0 - 20_000), T0 + 100)
  const WALKED := Mark(T0 + SLACK, T0 - 30_000)

  lemma Names()
    ensures ONION != CLEAR && Others(OURS, ONION) == [CLEAR] && Others(OURS, CLEAR) == [ONION]
  {
    assert ONION != CLEAR by { assert ONION[0] != CLEAR[0]; }
    assert OURS[..1] == [ONION] && [ONION][..0] == [];
    assert Others([ONION], ONION) == [] && Others([ONION], CLEAR) == [ONION];
  }

  ghost predicate BothHeld(b: Ledger) {
    forall j :: j in OURS ==> b.HoldOf(j) == Hold(0, T0) && b.FreedOf(j) == Freed(0, 0)
  }

  // what a connection takes while both entries hold from 0
  lemma TakesHold(b: Ledger, k: Key, now: Stamp)
    requires BothHeld(b) && k in OURS
    ensures b.Connect(k, OURS, 0, now)
         == Conn(k, true, Others(OURS, k), b.MarkOf(k).Started(), 0, if b.MarkOf(k).Started() then Hold(0, T0) else Hold(0, now), 0)
  {
    Names();
  }

  // the book after a first answer of the entry was kept
  lemma KeptBook(b: Ledger, k: Key)
    requires BothHeld(b) && k in OURS && b.MarkOf(k) == NO_MARK
    ensures var c := b.Connect(k, OURS, 0, T0);
            var b' := b.KeepFirst(c, OLD.ev.at, T0 + SLACK);
            && !b.Covered(c) && BothHeld(b') && b'.MarkOf(k) == WALKED
            && forall j :: j != k ==> b'.MarkOf(j) == b.MarkOf(j)
  {
    TakesHold(b, k, T0);
  }

  ghost function FirstKept(s: State, k: Key): State {
    var s1 := Asked(OURS, s, k);
    var l := s1.links[s.next];
    s1.(book := s.book.KeepFirst(l.conn, OLD.ev.at, T0 + SLACK), ages := AgesAfter(s1, l, KeepFirst(OLD.ev.at)), missing := {})
  }

  lemma KeepFirstSpell(s: State, k: Key)
    requires RunTo(OURS, s, false) && Quiet(s) && k in OURS
    requires s.now == T0 && s.anchor == 0 && OLD in s.store && s.missing <= {OLD}
    ensures RunTo(OURS, FirstKept(s, k), false)
  {
    Ask(OURS, s, k);
    var s1, id := Asked(OURS, s, k), s.next;
    LastIsCurrent(s1, id);
    assert s1.links[id := s1.links[id]] == s1.links;
    Then(OURS, s1, false, Book(id, KeepFirst(OLD.ev.at)), FirstKept(s, k));
  }

  // a first connection on k: part of its first answer is in when it is given up
  lemma FirstSpell(s: State, k: Key) returns (s': State)
    requires RunTo(OURS, s, false) && Quiet(s) && BothHeld(s.book) && k in OURS && s.book.MarkOf(k) == NO_MARK
    requires s.now == T0 && s.anchor == 0 && OLD in s.store && s.missing <= {OLD}
    ensures RunTo(OURS, s', false) && Quiet(s') && BothHeld(s'.book) && s'.book.MarkOf(k) == WALKED && s'.AgeOf(k) == T0
    ensures forall j :: j != k ==> s'.book.MarkOf(j) == s.book.MarkOf(j) && s'.AgeOf(j) == s.AgeOf(j)
    ensures s'.now == s.now && s'.anchor == s.anchor && s'.disk == s.disk && s'.store == s.store && s'.missing == {}
  {
    KeepFirstSpell(s, k);
    KeptBook(s.book, k);
    var s2, id := FirstKept(s, k), s.next;
    s' := s2.(links := s2.links[id := s2.links[id].(up := false, heard := T0)]);
    Then(OURS, s2, false, Drop(id), s');
  }

  // both entries have walked the same ground, from the start on
  ghost predicate BothWalked(s: State) {
    && BothHeld(s.book) && Quiet(s) && s.anchor == 0 && s.disk == 0
    && forall j :: j in OURS ==> s.book.MarkOf(j) == WALKED && s.AgeOf(j) == T0
  }

  lemma FirstSpells() returns (s: State)
    ensures RunTo(OURS, s, false) && BothWalked(s) && s.now == T0 && s.store == {OLD} && s.missing == {}
  {
    var s0 := State(T0, 0, 0, EMPTY.Start(OURS, 0, T0), map[], map[], 0, 0, {}, {});
    RunFrom(OURS, s0);
    assert BothHeld(s0.book) && s0.book.marks == map[] by {
      StartFrees(EMPTY, OURS, 0, T0);
      forall k | k in OURS { StartHolds(EMPTY, OURS, 0, T0, k); }
    }
    Comes(OURS, s0, OLD);
    Names();
    var s1 := s0.(store := s0.store + {OLD}, missing := s0.missing + {OLD});
    var s2 := FirstSpell(s1, ONION);
    s := FirstSpell(s2, CLEAR);
  }

  lemma {:induction false} StartFrees(b: Ledger, own: seq<Key>, anchor: Stamp, now: Stamp)
    ensures b.Start(own, anchor, now).freed == b.freed
  {
    if own != [] { StartFrees(b, own[..|own| - 1], anchor, now); }
  }

  // between the spells a wrap arrives, stamped into the walked ground, and hours later
  // five more
  lemma WrapsArrive() returns (s: State)
    ensures RunTo(OURS, s, false) && BothWalked(s) && s.now == T1
    ensures var c := Crowd(5, T1, T1); s.store == {OLD, LATE} + c && s.missing == {LATE} + c
  {
    var s0 := FirstSpells();
    TickTo(OURS, s0, T0 + 100);
    var s1 := s0.(now := T0 + 100);
    Comes(OURS, s1, LATE);
    var s2 := s1.(store := s1.store + {LATE}, missing := s1.missing + {LATE});
    TickTo(OURS, s2, T1);
    var s3 := s2.(now := T1);
    CrowdComes(OURS, s3, 5, T1);
    var c := Crowd(5, T1, T1);
    s := s3.(store := s3.store + c, missing := s3.missing + c);
    assert s3.store + c == {OLD, LATE} + c && s3.missing + c == {LATE} + c;
  }

  // what a second connection on k takes
  function Second(k: Key): Conn { Conn(k, true, Others(OURS, k), true, 0, Hold(0, T0), 0) }

  ghost predicate Marked(s: State) {
    && BothHeld(s.book) && s.now == T1 && s.anchor == 0 && s.first == 0
    && (forall id :: id in s.links ==> id < s.next)
    && (forall j :: j in OURS ==> s.book.MarkOf(j) == WALKED && s.AgeOf(j) == T0)
    && Crowd(5, T1, T1) <= s.store
  }

  // its first answer is full and its walk has begun
  ghost function SecondWalks(s: State, k: Key): State {
    var c := Second(k);
    s.(book := s.book.Owe(c), links := s.links[s.next := Link(c, T1, T1, T1, s.missing, true, Walking(T1 - 4, WALKED, T0))],
       next := s.next + 1, missing := {LATE})
  }

  lemma SecondAsks(s: State, k: Key)
    requires RunTo(OURS, s, false) && Marked(s) && k in OURS
    ensures RunTo(OURS, Asked(OURS, s, k), false)
    ensures Asked(OURS, s, k).links == s.links[s.next := Link(Second(k), T1, T1, T1, s.missing, true, Asking)]
  {
    TakesHold(s.book, k, T1);
    Ask(OURS, s, k);
  }

  lemma SecondFull(s: State, k: Key) returns (s': State)
    requires RunTo(OURS, s, false) && Marked(s) && k in OURS && LATE in s.missing && s.missing <= {LATE} + Crowd(5, T1, T1)
    ensures RunTo(OURS, s', false)
    ensures s' == s.(book := s.book.Owe(Second(k)), next := s.next + 1, missing := {LATE},
                     links := s.links[s.next := Link(Second(k), T1, T1, T1, s.missing, true, Full(T1 - 4))])
  {
    SecondAsks(s, k);
    var s1, id := Asked(OURS, s, k), s.next;
    var l := s1.links[id];
    s' := s1.(book := s.book.Owe(l.conn), links := s1.links[id := l.(phase := Full(T1 - 4))], missing := {LATE});
    assert s'.links == s.links[id := l.(phase := Full(T1 - 4))];
    assert Current(s1, id) by { LastIsCurrent(s1, id); }
    CrowdFills(s.store, 5, T1, T1);
    Then(OURS, s1, false, Book(id, AnswerFull(5, T1 - 4)), s');
  }

  lemma SecondSpell(s: State, k: Key)
    requires RunTo(OURS, s, false) && Marked(s) && k in OURS && LATE in s.missing && s.missing <= {LATE} + Crowd(5, T1, T1)
    ensures RunTo(OURS, SecondWalks(s, k), false) && Marked(SecondWalks(s, k))
  {
    var s1 := SecondFull(s, k);
    var s2 := SecondWalks(s, k);
    assert s1.book.MarkOf(k) == WALKED && s1.AgeOf(k) == T0;
    assert s2.links == s1.links[s.next := s1.links[s.next].(phase := Walking(T1 - 4, WALKED, T0))];
    Then(OURS, s1, false, BeginWalk(s.next), s2);
  }

  // both second connections walk, the clearnet name's last
  ghost predicate BothWalk(s: State, o: nat, c: nat) {
    && Marked(s) && s.missing == {LATE} && o in s.links && c in s.links && o < c
    && (forall id :: id in s.links ==> id < o || id == o || id == c)
    && (forall id :: id == o || id == c ==>
        var l := s.links[id];
        && l.conn == Second(if id == o then ONION else CLEAR) && l.up && LATE in l.due && l.asked == T1
        && l.phase == Walking(T1 - 4, WALKED, T0))
  }

  lemma SecondSpells() returns (s: State, o: nat, c: nat)
    ensures RunTo(OURS, s, false) && BothWalk(s, o, c)
  {
    var s0 := WrapsArrive();
    o, c := s0.next, s0.next + 1;
    SecondSpell(s0, ONION);
    var s1 := SecondWalks(s0, ONION);
    SecondSpell(s1, CLEAR);
    s := SecondWalks(s1, CLEAR);
  }

  // ---- the passes ----

  // the clearnet name's pass keeps its own hold, from T0, and lets the onion's go
  ghost function FirstPass(s: State, c: nat): State
    requires c in s.links && s.links[c].phase.Walking?
  {
    var l := s.links[c];
    s.(book := s.book.Done(l.conn, true), anchor := T1, links := s.links[c := l.(phase := Caught(T1 - 4, WALKED, T0))])
  }

  lemma ClearPasses(s: State, o: nat, c: nat)
    requires RunTo(OURS, s, false) && BothWalk(s, o, c)
    ensures RunTo(OURS, FirstPass(s, c), false)
    ensures var b := FirstPass(s, c).book; b.HoldOf(CLEAR) == Hold(T0, T0) && !b.HoldOf(ONION).Held()
  {
    Names();
    var l, newest := s.links[c], Nth(0, T1, T1);
    AfterDone(s.book, l.conn, true, CLEAR);
    AfterDone(s.book, l.conn, true, ONION);
    assert newest in s.store by { assert newest in Crowd(5, T1, T1); }
    LastIsCurrent(s, c);
    Then(OURS, s, false, Book(c, WalkDone(By(newest, T1))), FirstPass(s, c));
  }

  // the onion's pass, its own hold gone, lets that one go as well
  ghost function SecondPass(s: State, o: nat): State
    requires o in s.links && s.links[o].phase.Walking?
  {
    var l := s.links[o];
    s.(book := s.book.Done(l.conn, true), links := s.links[o := l.(phase := Caught(T1 - 4, WALKED, T0))])
  }

  lemma OnionIsCurrent(s: State, o: nat, c: nat)
    requires BothWalk(s, o, c)
    ensures Current(FirstPass(s, c), o) && FirstPass(s, c).links[o] == s.links[o]
  {
    Names();
  }

  lemma OnionPasses(s: State, o: nat)
    requires o in s.links && s.links[o].phase == Walking(T1 - 4, WALKED, T0) && s.missing == {LATE} && s.anchor >= 0
    ensures Next(OURS, s, Book(o, WalkDone(Still)), SecondPass(s, o))
  {
  }

  lemma NothingHeldThen(s: State, o: nat, c: nat)
    requires BothWalk(s, o, c)
    requires var b := FirstPass(s, c).book; b.HoldOf(CLEAR) == Hold(T0, T0) && !b.HoldOf(ONION).Held()
    ensures var t := SecondPass(FirstPass(s, c), o); !t.book.AnyHeld(OURS) && !Bound(OURS, t)
  {
    Names();
    var t := FirstPass(s, c);
    var t' := SecondPass(t, o);
    AfterDone(t.book, t.links[o].conn, true, CLEAR);
    AfterDone(t.book, t.links[o].conn, true, ONION);
    assert Low(OURS, t') == T1;
    UnderBreaks(OURS, t', ONION, LATE);
  }

  /** Two entries: a run, timely to its last step, after which the last step, a pass on
      a live connection that is its entry's last, leaves a stored wrap under the window
      of every next connection, and no hold to bring the window back to it. */
  lemma TwoEntriesCanLose()
    ensures exists s, id, what, s' ::
              && RunTo(OURS, s, false) && Next(OURS, s, Book(id, what), s') && Current(s, id) && s.links[id].up
              && !Bound(OURS, s') && !s'.book.AnyHeld(OURS)
  {
    var s, o, c := SecondSpells();
    ClearPasses(s, o, c);
    OnionIsCurrent(s, o, c);
    NothingHeldThen(s, o, c);
    var t := FirstPass(s, c);
    OnionPasses(t, o);
    assert Next(OURS, t, Book(o, WalkDone(Still)), SecondPass(t, o));
  }

  // ---- one entry, a cut booked late ----

  const ONE: seq<Key> := [ONION]
  const CUT := Mark(T0 - 99, T0 - 30_000)
  const NEW := Wrap(Event(3, T1), T1)

  lemma OneName()
    ensures Others(ONE, ONION) == []
  {
    assert ONE[..0] == [];
  }

  ghost predicate OneHeld(b: Ledger, h: Hold, m: Mark) {
    b.HoldOf(ONION) == h && b.FreedOf(ONION) == Freed(0, 0) && b.MarkOf(ONION) == m
  }

  // a connection that does not resume, while the entry holds from 0
  function Anew(now: Stamp): Conn { Conn(ONION, true, [], false, 0, Hold(0, now), 0) }

  lemma TakesAnew(b: Ledger, now: Stamp)
    requires OneHeld(b, Hold(0, T0), NO_MARK)
    ensures b.Connect(ONION, ONE, 0, now) == Anew(now)
  {
    OneName();
  }

  // a hundred wraps and an old one wait at the relay
  ghost function Waiting(): State {
    var c := Crowd(100, T0, T0);
    State(T0, 0, 0, EMPTY.Start(ONE, 0, T0), map[], map[], 0, 0, {OLD} + c, {OLD} + c)
  }

  lemma WaitingIsReached()
    ensures RunTo(ONE, Waiting(), false) && OneHeld(Waiting().book, Hold(0, T0), NO_MARK)
  {
    var s0 := State(T0, 0, 0, EMPTY.Start(ONE, 0, T0), map[], map[], 0, 0, {}, {});
    RunFrom(ONE, s0);
    Comes(ONE, s0, OLD);
    var s1 := s0.(store := s0.store + {OLD}, missing := s0.missing + {OLD});
    CrowdComes(ONE, s1, 100, T0);
    StartFrees(EMPTY, ONE, 0, T0);
    StartHolds(EMPTY, ONE, 0, T0, ONION);
    var c := Crowd(100, T0, T0);
    assert s1.(store := s1.store + c, missing := s1.missing + c) == Waiting();
  }

  // the first connection walks under its full answer when its socket dies
  ghost function Walked(b: Ledger, up: bool): State {
    var s := Waiting();
    s.(book := b, links := map[0 := Link(Anew(T0), T0, T0, T0, s.missing, up, Walking(T0 - 99, NO_MARK, 0))],
       next := 1, missing := {OLD})
  }

  // its full answer is in, and what it owes is booked
  ghost function Filled(b: Ledger): State {
    var s := Waiting();
    s.(book := b, links := map[0 := Link(Anew(T0), T0, T0, T0, s.missing, true, Full(T0 - 99))], next := 1, missing := {OLD})
  }

  lemma FirstFills() returns (b: Ledger)
    ensures RunTo(ONE, Filled(b), false) && OneHeld(b, Hold(0, T0), NO_MARK)
  {
    WaitingIsReached();
    var s := Waiting();
    TakesAnew(s.book, T0);
    Ask(ONE, s, ONION);
    var s1 := Asked(ONE, s, ONION);
    var l := s1.links[0];
    LastIsCurrent(s1, 0);
    CrowdFills(s.store, 100, T0, T0);
    b := s.book.Owe(l.conn);
    assert s1.links[0 := l.(phase := Full(T0 - 99))] == Filled(b).links;
    Then(ONE, s1, false, Book(0, AnswerFull(100, T0 - 99)), Filled(b));
  }

  lemma FirstWalk() returns (b: Ledger)
    ensures RunTo(ONE, Walked(b, false), false) && OneHeld(b, Hold(0, T0), NO_MARK)
  {
    b := FirstFills();
    var s2, s3, s4 := Filled(b), Walked(b, true), Walked(b, false);
    assert s3.links == s2.links[0 := s2.links[0].(phase := Walking(T0 - 99, NO_MARK, 0))];
    Then(ONE, s2, false, BeginWalk(0), s3);
    assert s4.links == s3.links[0 := s3.links[0].(up := false, heard := T0)];
    Then(ONE, s3, false, Drop(0), s4);
  }

  // eight hours on the entry connects again and asks; the first walk has not booked
  ghost function Again(b: Ledger): State {
    var s := Walked(b, false);
    var due := {OLD, LATE, NEW};
    s.(now := T1, links := s.links[1 := Link(Anew(T1), T1, T1, T1, due, true, Asking)], next := 2,
       store := s.store + {LATE, NEW}, missing := due)
  }

  lemma AgainIsReached() returns (b: Ledger)
    ensures RunTo(ONE, Again(b), false) && OneHeld(b, Hold(0, T0), NO_MARK)
  {
    b := FirstWalk();
    var s0 := Walked(b, false);
    TickTo(ONE, s0, T0 + 100);
    var s1 := s0.(now := T0 + 100);
    Comes(ONE, s1, LATE);
    var s2 := s1.(store := s1.store + {LATE}, missing := s1.missing + {LATE});
    TickTo(ONE, s2, T1);
    var s3 := s2.(now := T1);
    Comes(ONE, s3, NEW);
    var s4 := s3.(store := s3.store + {NEW}, missing := s3.missing + {NEW});
    TakesAnew(b, T1);
    Ask(ONE, s4, ONION);
    assert s4.missing == {OLD, LATE, NEW} && s4.store == s0.store + {LATE, NEW};
    assert Asked(ONE, s4, ONION) == Again(b);
  }

  // the first walk books its cut: a mark, and the hold of the first connection
  ghost function LateCut(b: Ledger): State {
    var s := Again(b);
    s.(book := b.Cut(Anew(T0), CUT), ages := map[ONION := T0], links := s.links[0 := s.links[0].(phase := Stopped)],
       missing := {LATE, NEW})
  }

  lemma CutComesLate() returns (b: Ledger)
    ensures RunTo(ONE, LateCut(b), true) && OneHeld(LateCut(b).book, Hold(0, T0), CUT)
  {
    b := AgainIsReached();
    ThenLate(ONE, Again(b), 0, OLD.ev.at, LateCut(b));
  }

  // the second connection's full answer puts its own hold beside that mark
  ghost function Stepping(b: Ledger, p: Phase): State {
    var s := LateCut(b);
    s.(book := s.book.Owe(Anew(T1)), links := s.links[1 := s.links[1].(phase := p)], missing := {LATE})
  }

  lemma NewFills(store: set<Wrap>)
    requires Crowd(99, T0, T0) <= store && NEW in store
    ensures |InWindow(store, 0, T0 - 98)| >= 100
  {
    var c := Crowd(99, T0, T0);
    assert |c + {NEW}| == 100 by { CrowdSize(99, T0, T0); }
    FewerIn(c + {NEW}, InWindow(store, 0, T0 - 98));
  }

  lemma SecondFills(b: Ledger)
    ensures |InWindow(LateCut(b).store, 0, T0 - 98)| >= 100
  {
    CrowdGrows(99, T0, T0);
    assert NEW in LateCut(b).store && Crowd(100, T0, T0) <= LateCut(b).store;
    NewFills(LateCut(b).store);
  }

  lemma SecondOwes() returns (b: Ledger)
    ensures var s := Stepping(b, Full(T0 - 98)); RunTo(ONE, s, true) && OneHeld(s.book, Hold(0, T1), CUT)
  {
    b := CutComesLate();
    var s := LateCut(b);
    SecondFills(b);
    LastIsCurrent(s, 1);
    Then(ONE, s, true, Book(1, AnswerFull(100, T0 - 98)), Stepping(b, Full(T0 - 98)));
  }

  lemma SecondSteps() returns (b: Ledger)
    ensures var s := Stepping(b, Walking(T0 - 98, CUT, T0)); RunTo(ONE, s, true) && OneHeld(s.book, Hold(0, T1), CUT)
  {
    b := SecondOwes();
    var s1, s2 := Stepping(b, Full(T0 - 98)), Stepping(b, Walking(T0 - 98, CUT, T0));
    assert s2.links == s1.links[1 := s1.links[1].(phase := Walking(T0 - 98, CUT, T0))];
    Then(ONE, s1, true, BeginWalk(1), s2);
  }

  // the second connection's pass holds from its own beginning
  ghost function Passed(s: State): State
    requires 1 in s.links
  {
    s.(book := s.book.Done(Anew(T1), true), anchor := T1, links := s.links[1 := s.links[1].(phase := Caught(T0 - 98, CUT, T0))])
  }

  lemma SecondPasses() returns (b: Ledger)
    ensures RunTo(ONE, Passed(Stepping(b, Walking(T0 - 98, CUT, T0))), true)
    ensures OneHeld(Stepping(b, Walking(T0 - 98, CUT, T0)).book, Hold(0, T1), CUT)
  {
    b := SecondSteps();
    var s := Stepping(b, Walking(T0 - 98, CUT, T0));
    LastIsCurrent(s, 1);
    Then(ONE, s, true, Book(1, WalkDone(By(NEW, T1))), Passed(s));
  }

  /** One entry: a run whose one untimely step is a cut booked after the entry connected
      again, after which a stored wrap lies under the window of every next connection. */
  lemma LateCutCanLose()
    ensures exists s :: RunTo(ONE, s, true) && !Bound(ONE, s)
  {
    var b := SecondPasses();
    var s := Stepping(b, Walking(T0 - 98, CUT, T0));
    AfterDone(s.book, Anew(T1), true, ONION);
    assert Passed(s).book.HoldOf(ONION) == Hold(T1, T1);
    UnderBreaks(ONE, Passed(s), ONION, LATE);
  }
}
