/**
 How what the relays delivered reaches the app (engine/nostr.go): take puts a line in
 the inbox, poll hands the lines over as one batch, ack says which the app kept, which
 it could not, and which it leaves on the relay. Each call is one step.
 */
module Delivery {
  import opened Stamps
  import opened SeenSet

  // after so many offers in vain a delivery is given up
  const POLL_MAX_TRIES := 5

  // one delivery: the runner's set it came for, its id, what goes to the app, how
  // often it was offered in vain, its stamp, and when it reached the relay; freed is
  // the generation of its file's holds as the poll handed it over
  datatype Line = Line(set_: nat, id: ID, tag: string, body: string, tries: nat, at: Stamp, freed: nat, from: int, until: int)

  // offers counts the batches a claimed id has been in, for the proofs
  datatype World = World(inbox: seq<Line>, inflight: map<nat, seq<Line>>, token: nat,
                         sets: map<nat, Seen>, gens: map<string, nat>, offers: map<(nat, ID), nat>)

  const START := World([], map[], 0, map[], map[], map[])

  function GenOf(gens: map<string, nat>, path: string): nat { if path in gens then gens[path] else 0 }

  function GenOfLine(w: World, l: Line): nat {
    if l.set_ in w.sets then GenOf(w.gens, w.sets[l.set_].path) else 0
  }

  // the batch handed over and not confirmed
  function Batch(w: World): seq<Line> { if w.token in w.inflight then w.inflight[w.token] else [] }

  // ---- counting lines ----

  function Count(lines: seq<Line>, r: nat, id: ID): nat {
    if lines == [] then 0
    else Count(lines[..|lines| - 1], r, id) + (if lines[|lines| - 1].set_ == r && lines[|lines| - 1].id == id then 1 else 0)
  }

  lemma {:induction false} CountConcat(a: seq<Line>, b: seq<Line>, r: nat, id: ID)
    ensures Count(a + b, r, id) == Count(a, r, id) + Count(b, r, id)
  {
    if b == [] {
      assert a + b == a;
    } else {
      CountConcat(a, b[..|b| - 1], r, id);
      assert (a + b)[..|a + b| - 1] == a + b[..|b| - 1];
    }
  }

  lemma {:induction false} CountFound(lines: seq<Line>, l: Line)
    requires l in lines
    ensures Count(lines, l.set_, l.id) >= 1
  {
    if lines[|lines| - 1] != l {
      assert lines == lines[..|lines| - 1] + [lines[|lines| - 1]];
      CountFound(lines[..|lines| - 1], l);
    }
  }

  function IdsOf(lines: seq<Line>, r: nat): set<ID> { set l | l in lines && l.set_ == r :: l.id }

  lemma {:induction false} CountIsIn(lines: seq<Line>, r: nat, id: ID)
    ensures id in IdsOf(lines, r) <==> Count(lines, r, id) >= 1
  {
    if lines != [] {
      var front, last := lines[..|lines| - 1], lines[|lines| - 1];
      CountIsIn(front, r, id);
      assert lines == front + [last];
      assert IdsOf(lines, r) == IdsOf(front, r) + (if last.set_ == r then {last.id} else {});
    }
  }

  // ---- the ways a line ends ----

  datatype Ending = ReleaseIt | KeepIt

  function EndOne(s: Seen, id: ID, how: Ending): Seen {
    match how
    case ReleaseIt => s.Release(id)
    case KeepIt => s.HandedOver(id)
  }

  function EndAll(sets: map<nat, Seen>, lines: seq<Line>, how: Ending): (sets': map<nat, Seen>)
    ensures sets'.Keys == sets.Keys
  {
    if lines == [] then sets
    else
      var s, l := EndAll(sets, lines[..|lines| - 1], how), lines[|lines| - 1];
      if l.set_ in s then s[l.set_ := EndOne(s[l.set_], l.id, how)] else s
  }

  // those whose turn it was leave the claimed ids, and no others
  lemma {:induction false} EndAllQueued(sets: map<nat, Seen>, lines: seq<Line>, how: Ending, r: nat)
    requires r in sets
    ensures EndAll(sets, lines, how)[r].queued == sets[r].queued - IdsOf(lines, r)
    ensures EndAll(sets, lines, how)[r].path == sets[r].path
  {
    if lines != [] {
      var front, last := lines[..|lines| - 1], lines[|lines| - 1];
      EndAllQueued(sets, front, how, r);
      assert lines == front + [last];
      assert IdsOf(lines, r) == IdsOf(front, r) + (if last.set_ == r then {last.id} else {});
    }
  }

  // a delivery to leave where it is, with the group the app names for it
  datatype Want = Want(line: Line, name: string)

  // sets: after the holds; took: what there was no room for; held: the rest
  datatype HoldEnd = HoldEnd(sets: map<nat, Seen>, took: seq<Line>, held: seq<Line>)

  function HoldAll(sets: map<nat, Seen>, wants: seq<Want>, now: Stamp): (r: HoldEnd)
    ensures r.sets.Keys == sets.Keys
  {
    if wants == [] then HoldEnd(sets, [], [])
    else
      var HoldEnd(s, took, held) := HoldAll(sets, wants[..|wants| - 1], now);
      var Want(l, name) := wants[|wants| - 1];
      if l.set_ !in s then HoldEnd(s, took + [l], held)
      else
        var s' := s[l.set_ := s[l.set_].Hold(l.id, l.at, name, now, l.from, l.until)];
        if s[l.set_].Holds(l.id, l.at, name, now) then HoldEnd(s', took, held + [l]) else HoldEnd(s', took + [l], held)
  }

  function LinesOf(wants: seq<Want>): seq<Line> { seq(|wants|, i requires 0 <= i < |wants| => wants[i].line) }

  lemma {:induction false} HoldAllQueued(sets: map<nat, Seen>, wants: seq<Want>, now: Stamp, r: nat)
    requires r in sets
    ensures HoldAll(sets, wants, now).sets[r].queued == sets[r].queued - IdsOf(LinesOf(wants), r)
    ensures HoldAll(sets, wants, now).sets[r].path == sets[r].path
  {
    if wants != [] {
      var front, last := wants[..|wants| - 1], wants[|wants| - 1].line;
      HoldAllQueued(sets, front, now, r);
      assert LinesOf(wants) == LinesOf(front) + [last];
      assert IdsOf(LinesOf(wants), r) == IdsOf(LinesOf(front), r) + (if last.set_ == r then {last.id} else {});
    }
  }

  // each is held or there was no room for it
  lemma {:induction false} HoldAllCounts(sets: map<nat, Seen>, wants: seq<Want>, now: Stamp, r: nat, id: ID)
    ensures var e := HoldAll(sets, wants, now);
            Count(e.took, r, id) + Count(e.held, r, id) == Count(LinesOf(wants), r, id)
  {
    if wants != [] {
      var front, last := wants[..|wants| - 1], wants[|wants| - 1].line;
      HoldAllCounts(sets, front, now, r, id);
      assert LinesOf(wants) == LinesOf(front) + [last];
      CountConcat(LinesOf(front), [last], r, id);
      CountConcat(HoldAll(sets, front, now).took, [last], r, id);
      CountConcat(HoldAll(sets, front, now).held, [last], r, id);
    }
  }

  // ---- take ----

  // a wrap from a relay: ours, a repeat, one that does not open, or a new line
  function Take(w: World, mine: bool, unwraps: bool, l: Line): World {
    if mine || l.set_ !in w.sets || !w.sets[l.set_].Claims(l.id) then w
    else if !unwraps then w.(sets := w.sets[l.set_ := w.sets[l.set_].Claim(l.id).NotOpened(l.id)])
    else w.(sets := w.sets[l.set_ := w.sets[l.set_].Claim(l.id)],
            inbox := w.inbox + [l.(tries := 0, freed := 0)],
            offers := w.offers[(l.set_, l.id) := 0])
  }

  // ---- poll ----

  // the lines of a batch that came back, each one try further on, and the ones let go
  function Retried(lines: seq<Line>): seq<Line> {
    if lines == [] then []
    else
      var l := lines[|lines| - 1];
      Retried(lines[..|lines| - 1]) + (if l.tries + 1 >= POLL_MAX_TRIES then [] else [l.(tries := l.tries + 1)])
  }

  function Released(lines: seq<Line>): seq<Line> {
    if lines == [] then []
    else
      var l := lines[|lines| - 1];
      Released(lines[..|lines| - 1]) + (if l.tries + 1 >= POLL_MAX_TRIES then [l] else [])
  }

  // offered again ahead of everything newer, the worn-out ones given up
  function Requeue(w: World, lines: seq<Line>): World {
    w.(inbox := Retried(lines) + w.inbox, sets := EndAll(w.sets, Released(lines), ReleaseIt))
  }

  lemma CountSnoc(lines: seq<Line>, l: Line, r: nat, id: ID)
    ensures Count(lines + [l], r, id) == Count(lines, r, id) + (if l.set_ == r && l.id == id then 1 else 0)
  {
    assert (lines + [l])[..|lines|] == lines;
  }

  lemma {:induction false} RequeueCounts(lines: seq<Line>, r: nat, id: ID)
    ensures Count(Retried(lines), r, id) + Count(Released(lines), r, id) == Count(lines, r, id)
  {
    if lines != [] {
      var front, l := lines[..|lines| - 1], lines[|lines| - 1];
      RequeueCounts(front, r, id);
      if l.tries + 1 >= POLL_MAX_TRIES {
        assert Retried(lines) == Retried(front);
        CountSnoc(Released(front), l, r, id);
      } else {
        assert Released(lines) == Released(front);
        CountSnoc(Retried(front), l.(tries := l.tries + 1), r, id);
      }
    }
  }

  // the lines with tag in back, or not
  function Tagged(lines: seq<Line>, back: set<string>, isIn: bool): seq<Line> {
    if lines == [] then []
    else
      var l := lines[|lines| - 1];
      Tagged(lines[..|lines| - 1], back, isIn) + (if (l.tag in back) == isIn then [l] else [])
  }

  predicate Sendable(l: Line) { '\n' !in l.body && '\r' !in l.body && '\0' !in l.body }

  function Going(lines: seq<Line>, ok: bool): seq<Line> {
    if lines == [] then []
    else
      var l := lines[|lines| - 1];
      Going(lines[..|lines| - 1], ok) + (if Sendable(l) == ok then [l] else [])
  }

  lemma {:induction false} TaggedCounts(lines: seq<Line>, back: set<string>, r: nat, id: ID)
    ensures Count(Tagged(lines, back, true), r, id) + Count(Tagged(lines, back, false), r, id) == Count(lines, r, id)
  {
    if lines != [] {
      var front, l := lines[..|lines| - 1], lines[|lines| - 1];
      TaggedCounts(front, back, r, id);
      var isIn := l.tag in back;
      CountConcat(Tagged(front, back, isIn), [l], r, id);
      assert Tagged(front, back, !isIn) + [] == Tagged(front, back, !isIn);
    }
  }

  lemma {:induction false} GoingCounts(lines: seq<Line>, r: nat, id: ID)
    ensures Count(Going(lines, true), r, id) + Count(Going(lines, false), r, id) == Count(lines, r, id)
  {
    if lines != [] {
      var front, l := lines[..|lines| - 1], lines[|lines| - 1];
      GoingCounts(front, r, id);
      CountConcat(Going(front, Sendable(l)), [l], r, id);
      assert Going(front, !Sendable(l)) + [] == Going(front, !Sendable(l));
    }
  }

  // the batch as it goes over: each line with its file's generation of holds
  function Stamped(w: World, lines: seq<Line>): seq<Line> {
    seq(|lines|, i requires 0 <= i < |lines| => lines[i].(freed := GenOfLine(w, lines[i])))
  }

  lemma {:induction false} StampedCounts(w: World, lines: seq<Line>, r: nat, id: ID)
    ensures Count(Stamped(w, lines), r, id) == Count(lines, r, id)
  {
    if lines != [] {
      StampedCounts(w, lines[..|lines| - 1], r, id);
      assert Stamped(w, lines)[..|lines| - 1] == Stamped(w, lines[..|lines| - 1]);
    }
  }

  // each line of a batch offered once more
  function Offer(offers: map<(nat, ID), nat>, lines: seq<Line>): map<(nat, ID), nat> {
    if lines == [] then offers
    else
      var o, k := Offer(offers, lines[..|lines| - 1]), (lines[|lines| - 1].set_, lines[|lines| - 1].id);
      o[k := (if k in o then o[k] else 0) + 1]
  }

  // the inbox handed out, the lines of walked addresses kept back
  function HandOut(w: World, back: set<string>): World {
    var go := Tagged(w.inbox, back, false);
    var batch := Stamped(w, Going(go, true));
    HandOver(w.(inbox := Tagged(w.inbox, back, true), sets := EndAll(w.sets, Going(go, false), KeepIt)), batch)
  }

  // a batch under a token of its own
  function HandOver(w: World, batch: seq<Line>): World {
    if batch == [] then w
    else w.(token := w.token + 1, inflight := map[w.token + 1 := batch], offers := Offer(w.offers, batch))
  }

  // what was not confirmed comes back first
  function Poll(w: World, back: set<string>): World { HandOut(Requeue(w.(inflight := map[]), Batch(w)), back) }

  // ---- ack ----

  // whether place i is offered again: the app refused it, or wants it left on the relay
  // although its file was freed in between
  predicate Back(w: World, lines: seq<Line>, again: set<nat>, left: map<nat, string>, i: nat)
    requires i < |lines|
  {
    i in again || (i in left && GenOfLine(w, lines[i]) != lines[i].freed)
  }

  datatype SortedOut = SortedOut(back: seq<Line>, wants: seq<Want>, kept: seq<Line>)

  function SortOut(w: World, lines: seq<Line>, again: set<nat>, left: map<nat, string>): SortedOut {
    if lines == [] then SortedOut([], [], [])
    else
      var i := |lines| - 1;
      var s, l := SortOut(w, lines[..i], again, left), lines[i];
      if Back(w, lines, again, left, i) then s.(back := s.back + [l])
      else if i in left then s.(wants := s.wants + [Want(l, left[i])])
      else s.(kept := s.kept + [l])
  }

  function Sorted(s: SortedOut, r: nat, id: ID): nat { Count(s.back, r, id) + Count(LinesOf(s.wants), r, id) + Count(s.kept, r, id) }

  // one more line in any of the three parts
  lemma SortedOneMore(s: SortedOut, l: Line, name: string, r: nat, id: ID)
    ensures Sorted(s.(back := s.back + [l]), r, id) == Sorted(s, r, id) + Count([l], r, id)
    ensures Sorted(s.(wants := s.wants + [Want(l, name)]), r, id) == Sorted(s, r, id) + Count([l], r, id)
    ensures Sorted(s.(kept := s.kept + [l]), r, id) == Sorted(s, r, id) + Count([l], r, id)
  {
    CountConcat(s.back, [l], r, id);
    CountConcat(LinesOf(s.wants), [l], r, id);
    assert LinesOf(s.wants + [Want(l, name)]) == LinesOf(s.wants) + [l];
    CountConcat(s.kept, [l], r, id);
  }

  lemma CountLast(lines: seq<Line>, r: nat, id: ID)
    requires lines != []
    ensures Count(lines, r, id) == Count(lines[..|lines| - 1], r, id) + Count([lines[|lines| - 1]], r, id)
  {
    assert Count([], r, id) == 0 && [lines[|lines| - 1]][..0] == [];
  }

  // one line goes to one of the three parts
  lemma SortOutLast(w: World, lines: seq<Line>, again: set<nat>, left: map<nat, string>, r: nat, id: ID)
    requires lines != []
    ensures var front, last := lines[..|lines| - 1], lines[|lines| - 1];
            Sorted(SortOut(w, lines, again, left), r, id) == Sorted(SortOut(w, front, again, left), r, id) + Count([last], r, id)
  {
    var i := |lines| - 1;
    SortedOneMore(SortOut(w, lines[..i], again, left), lines[i], if i in left then left[i] else "", r, id);
  }

  lemma {:induction false} SortOutCounts(w: World, lines: seq<Line>, again: set<nat>, left: map<nat, string>, r: nat, id: ID)
    returns (s: SortedOut)
    ensures s == SortOut(w, lines, again, left) && Sorted(s, r, id) == Count(lines, r, id)
  {
    s := SortOut(w, lines, again, left);
    if lines == [] {
      assert LinesOf([]) == [];
    } else {
      var s0 := SortOutCounts(w, lines[..|lines| - 1], again, left, r, id);
      SortOutLast(w, lines, again, left, r, id);
      CountLast(lines, r, id);
    }
  }

  // "!" on the files of paths: their held ids are wanted again
  function LetGo(w: World, paths: set<string>): World {
    w.(gens := map p | p in w.gens.Keys + paths :: GenOf(w.gens, p) + (if p in paths then 1 else 0),
       sets := map r | r in w.sets :: if w.sets[r].path in paths then w.sets[r].FreeHeld() else w.sets[r])
  }

  function Wanted(w: World, wants: seq<Want>, fit: bool): seq<Want> {
    if wants == [] then []
    else
      var x := wants[|wants| - 1];
      Wanted(w, wants[..|wants| - 1], fit) + (if (GenOfLine(w, x.line) == x.line.freed) == fit then [x] else [])
  }

  lemma WantedSnoc(w: World, wants: seq<Want>, i: nat)
    requires i < |wants|
    ensures
      var fits := GenOfLine(w, wants[i].line) == wants[i].line.freed;
      && Wanted(w, wants[..i + 1], true) == Wanted(w, wants[..i], true) + (if fits then [wants[i]] else [])
      && Wanted(w, wants[..i + 1], false) == Wanted(w, wants[..i], false) + (if fits then [] else [wants[i]])
  {
    assert wants[..i + 1][..i] == wants[..i] && wants[..i + 1][i] == wants[i];
  }

  // holding moves no set to another file
  lemma {:induction false} HoldAllPaths(sets: map<nat, Seen>, wants: seq<Want>, now: Stamp, r: nat)
    ensures r in sets ==> HoldAll(sets, wants, now).sets[r].path == sets[r].path
  {
    if wants != [] { HoldAllPaths(sets, wants[..|wants| - 1], now, r); }
  }

  lemma HoldAllSnoc(sets: map<nat, Seen>, wants: seq<Want>, x: Want, now: Stamp)
    ensures
      var was, r, l := HoldAll(sets, wants, now), HoldAll(sets, wants + [x], now), x.line;
      && r.sets == (if l.set_ in was.sets then was.sets[l.set_ := was.sets[l.set_].Hold(l.id, l.at, x.name, now, l.from, l.until)] else was.sets)
      && r.took == was.took + (if l.set_ in was.sets && was.sets[l.set_].Holds(l.id, l.at, x.name, now) then [] else [l])
  {
    assert (wants + [x])[..|wants|] == wants;
  }

  lemma {:induction false} WantedCounts(w: World, wants: seq<Want>, r: nat, id: ID)
    ensures Count(LinesOf(Wanted(w, wants, true)), r, id) + Count(LinesOf(Wanted(w, wants, false)), r, id) == Count(LinesOf(wants), r, id)
  {
    if wants != [] {
      var front, x := wants[..|wants| - 1], wants[|wants| - 1];
      WantedCounts(w, front, r, id);
      var fit := GenOfLine(w, x.line) == x.line.freed;
      assert LinesOf(wants) == LinesOf(front) + [x.line];
      assert LinesOf(Wanted(w, front, fit) + [x]) == LinesOf(Wanted(w, front, fit)) + [x.line];
      assert Wanted(w, front, !fit) + [] == Wanted(w, front, !fit);
      CountConcat(LinesOf(front), [x.line], r, id);
      CountConcat(LinesOf(Wanted(w, front, fit)), [x.line], r, id);
    }
  }

  /** The app's answer to the batch of token. letGo are the files whose holds are let
      go of while the answer is being booked: what was to be held there comes again. */
  function Ack(w: World, token: nat, again: set<nat>, left: map<nat, string>, letGo: set<string>, now: Stamp): World {
    if token !in w.inflight then w
    else
      var s := SortOut(w, w.inflight[token], again, left);
      AckRest(LetGo(Requeue(w.(inflight := w.inflight - {token}), s.back), letGo), s, now)
  }

  // what the app keeps or leaves, booked
  function AckRest(w: World, s: SortedOut, now: Stamp): World {
    var e := HoldAll(w.sets, Wanted(w, s.wants, true), now);
    var w1 := w.(sets := EndAll(e.sets, s.kept + e.took, KeepIt));
    Requeue(w1, LinesOf(Wanted(w, s.wants, false)))
  }
}
