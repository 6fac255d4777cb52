/** The inbox as the engine updates it in place (engine/nostr.go), tied to Delivery. */
module Desk {
  import opened Stamps
  import opened SeenSet
  import D = Delivery
  import opened Delivery

  // how long, and how much, a walked address keeps its lines back
  const POLL_HOLD_MAX := 20
  const POLL_HOLD_BYTES := 8 * 1024 * 1024

  function SizeOf(lines: seq<Line>): nat {
    if lines == [] then 0 else SizeOf(lines[..|lines| - 1]) + |lines[|lines| - 1].tag| + 1 + |lines[|lines| - 1].body|
  }

  // since when lines are kept back, should any be at now
  function Since(held: int, now: int): int { if held == 0 then now else held }

  // the tags kept back: the walked ones, until they have been for too long or too much
  function KeptBack(lines: seq<Line>, walked: set<string>, held: int, now: int): set<string> {
    var kept := Tagged(lines, walked, true);
    if kept == [] || (now - Since(held, now) < POLL_HOLD_MAX && SizeOf(kept) < POLL_HOLD_BYTES) then walked else {}
  }

  lemma {:induction false} NoneTagged(lines: seq<Line>)
    ensures Tagged(lines, {}, true) == []
  {
    if lines != [] { NoneTagged(lines[..|lines| - 1]); }
  }

  class Inbox {
    var inbox: seq<Line>
    var inflight: map<nat, seq<Line>>
    var token: nat
    var sets: map<nat, Seen>
    var gens: map<string, nat>
    ghost var offers: map<(nat, ID), nat>
    // walks in progress per address; addresses with a live delivery not polled yet; the
    // time of the first poll in a row that left deliveries behind, 0 for none
    var walking: map<string, nat>
    var live: set<string>
    var heldSince: int

    ghost function View(): World
      reads this
    {
      World(inbox, inflight, token, sets, gens, offers)
    }

    constructor ()
      ensures View() == START && walking == map[] && live == {}
    {
      inbox, inflight, token, sets, gens, offers := [], map[], 0, map[], map[], map[];
      walking, live, heldSince := map[], {}, 0;
    }

    // walks are those under way now, an address once per relay
    ghost predicate Counts(walks: multiset<string>)
      reads this`walking
    {
      forall t :: if t in walking then walking[t] == walks[t] > 0 else walks[t] == 0
    }

    method WalkBegins(tag: string, ghost walks: multiset<string>)
      requires Counts(walks)
      modifies this`walking
      ensures Counts(walks + multiset{tag})
    {
      walking := walking[tag := (if tag in walking then walking[tag] else 0) + 1];
    }

    // an end without a beginning changes nothing
    method WalkEnds(tag: string, ghost walks: multiset<string>)
      requires Counts(walks)
      modifies this`walking
      ensures Counts(walks - multiset{tag})
    {
      if tag !in walking || walking[tag] <= 1 { walking := walking - {tag}; } else { walking := walking[tag := walking[tag] - 1]; }
    }

    // a live wrap takes what was kept back for its address along, and for no other
    method LiveCame(tag: string)
      modifies this`live
      ensures Walked() == old(Walked()) - {tag} && live <= old(live) + {tag} && (forall t :: t in live && t !in old(live) ==> t in walking)
    {
      if tag in walking && walking[tag] > 0 { live := live + {tag}; }
    }

    method Take(mine: bool, unwraps: bool, l: Line) returns (isNew: bool, handed: bool)
      modifies this`inbox, this`sets, this`offers
      ensures View() == D.Take(old(View()), mine, unwraps, l)
      ensures isNew <==> !mine && l.set_ in old(sets) && old(sets)[l.set_].Claims(l.id)
      ensures handed <==> if isNew then unwraps else !mine && l.set_ in sets && l.id in sets[l.set_].openedIds
    {
      if mine || l.set_ !in sets { return false, false; }
      var s := sets[l.set_];
      if !s.Claims(l.id) {
        // what the app took before moves the anchor again
        return false, l.id in s.openedIds;
      }
      s := s.Claim(l.id);
      if !unwraps {
        sets := sets[l.set_ := s.NotOpened(l.id)];
        return true, false;
      }
      sets := sets[l.set_ := s];
      inbox := inbox + [l.(tries := 0, freed := 0)];
      offers := offers[(l.set_, l.id) := 0];
      return true, true;
    }

    // each of lines ended one way
    method End(lines: seq<Line>, how: Ending)
      modifies this`sets
      ensures sets == EndAll(old(sets), lines, how)
    {
      for i := 0 to |lines|
        invariant sets == EndAll(old(sets), lines[..i], how)
      {
        assert lines[..i + 1][..i] == lines[..i];
        var l := lines[i];
        if l.set_ in sets { sets := sets[l.set_ := EndOne(sets[l.set_], l.id, how)]; }
      }
      assert lines[..|lines|] == lines;
    }

    // the loop behind Delivery.Requeue: order kept, tries counted, worn-out ones given up
    method Requeue(lines: seq<Line>)
      modifies this`inbox, this`sets
      ensures View() == D.Requeue(old(View()), lines)
    {
      var back: seq<Line> := [];
      ghost var gone: seq<Line> := [];
      for i := 0 to |lines|
        invariant back == Retried(lines[..i]) && gone == Released(lines[..i])
        invariant sets == EndAll(old(sets), gone, ReleaseIt) && inbox == old(inbox)
      {
        assert lines[..i + 1][..i] == lines[..i];
        var l := lines[i];
        if l.tries + 1 >= POLL_MAX_TRIES {
          assert (gone + [l])[..|gone|] == gone;
          if l.set_ in sets { sets := sets[l.set_ := sets[l.set_].Release(l.id)]; }
          gone := gone + [l];
        } else {
          back := back + [l.(tries := l.tries + 1)];
        }
      }
      assert lines[..|lines|] == lines;
      inbox := back + inbox;
    }

    // the tags whose lines a poll may keep back
    function Walked(): set<string>
      reads this`walking, this`live
    {
      set t | t in walking && walking[t] > 0 && t !in live
    }

    // splits the inbox; size is what is kept back
    method Split(tags: set<string>) returns (kept: seq<Line>, go: seq<Line>, size: nat)
      ensures kept == Tagged(inbox, tags, true) && go == Tagged(inbox, tags, false) && size == SizeOf(kept)
    {
      kept, go, size := [], [], 0;
      for i := 0 to |inbox|
        invariant kept == Tagged(inbox[..i], tags, true) && go == Tagged(inbox[..i], tags, false) && size == SizeOf(kept)
      {
        assert inbox[..i + 1][..i] == inbox[..i];
        var l := inbox[i];
        if l.tag in tags {
          assert (kept + [l])[..|kept|] == kept;
          kept, size := kept + [l], size + |l.tag| + 1 + |l.body|;
        } else {
          go := go + [l];
        }
      }
      assert inbox[..|inbox|] == inbox;
    }

    // what may go over, and what never can
    method Sift(lines: seq<Line>) returns (ok: seq<Line>, gone: seq<Line>)
      ensures ok == Going(lines, true) && gone == Going(lines, false)
    {
      ok, gone := [], [];
      for i := 0 to |lines|
        invariant ok == Going(lines[..i], true) && gone == Going(lines[..i], false)
      {
        assert lines[..i + 1][..i] == lines[..i];
        if Sendable(lines[i]) { ok := ok + [lines[i]]; } else { gone := gone + [lines[i]]; }
      }
      assert lines[..|lines|] == lines;
    }

    // a batch whose answer never came is offered anew
    method ComeAgain()
      requires inflight.Keys <= {token}
      modifies this`inbox, this`sets, this`inflight
      ensures View() == D.Requeue(old(View()).(inflight := map[]), Batch(old(View())))
    {
      if token in inflight {
        var b := inflight[token];
        inflight := map[];
        Requeue(b);
      }
      assert inflight == map[];
    }

    // which lines are kept back this time
    method Choose(now: int) returns (kept: seq<Line>, go: seq<Line>, ghost back: set<string>)
      modifies this`heldSince
      ensures back == KeptBack(inbox, Walked(), old(heldSince), now)
      ensures kept == Tagged(inbox, back, true) && go == Tagged(inbox, back, false)
      ensures heldSince == if kept == [] then 0 else Since(old(heldSince), now)
    {
      back := Walked();
      var size;
      kept, go, size := Split(Walked());
      if |kept| > 0 {
        if heldSince == 0 { heldSince := now; }
        if !(now - heldSince < POLL_HOLD_MAX && size < POLL_HOLD_BYTES) {
          back := {};
          kept, go, size := Split({});
          NoneTagged(inbox);
        }
      }
      if |kept| == 0 { heldSince := 0; }
    }

    // the lines with the generation of their files' holds
    method WithGens(lines: seq<Line>) returns (batch: seq<Line>)
      ensures batch == Stamped(View(), lines)
    {
      var gs, ss := gens, sets;
      batch := seq(|lines|, i requires 0 <= i < |lines| =>
        lines[i].(freed := if lines[i].set_ in ss then GenOf(gs, ss[lines[i].set_].path) else 0));
    }

    // what may go over becomes the batch, what never can is remembered now
    method HandOutNow(kept: seq<Line>, go: seq<Line>, ghost back: set<string>) returns (batch: seq<Line>)
      requires kept == Tagged(inbox, back, true) && go == Tagged(inbox, back, false) && inflight == map[]
      modifies this`inbox, this`sets, this`token, this`inflight, this`offers
      ensures View() == HandOut(old(View()), back)
      ensures batch == Batch(View()) && (batch == [] ==> inflight == map[])
    {
      ghost var w := View();
      var ok, gone := Sift(go);
      batch := WithGens(ok);
      inbox := kept;
      End(gone, KeepIt);
      assert View() == w.(inbox := kept, sets := EndAll(w.sets, gone, KeepIt));
      GiveToken(batch);
    }

    method GiveToken(batch: seq<Line>)
      requires inflight == map[]
      modifies this`token, this`inflight, this`offers
      ensures View() == HandOver(old(View()), batch) && batch == Batch(View()) && (batch == [] ==> inflight == map[])
    {
      if |batch| == 0 { return; }
      token := token + 1;
      inflight := map[token := batch];
      offers := Offer(offers, batch);
    }

    // the world with what was not confirmed back in the inbox
    ghost function Returned(): World
      reads this
    {
      D.Requeue(View().(inflight := map[]), Batch(View()))
    }

    /** Hands the inbox over. An unconfirmed batch goes ahead of the rest. Deliveries of
        an address in the middle of a walk stay behind, unless a live one arrived too, or
        they have stayed for too long or grown too large. */
    method Poll(now: int) returns (batch: seq<Line>, ghost back: set<string>)
      requires inflight.Keys <= {token}
      modifies this
      ensures back == KeptBack(old(Returned().inbox), old(Walked()), old(heldSince), now)
      ensures View() == D.Poll(old(View()), back)
      ensures heldSince == if Tagged(old(Returned().inbox), back, true) == [] then 0 else Since(old(heldSince), now)
      ensures batch == Batch(View()) && (batch == [] ==> inflight == map[])
      ensures live == {} && walking == old(walking)
    {
      ghost var w := View();
      ComeAgain();
      ghost var w1 := View();
      assert w1 == D.Requeue(w.(inflight := map[]), Batch(w));
      var kept, go;
      kept, go, back := Choose(now);
      live := {};
      assert View() == w1;
      batch := HandOutNow(kept, go, back);
      assert View() == HandOut(w1, back);
    }

    // the app's answer sorted by place
    method SortOut(lines: seq<Line>, again: set<nat>, left: map<nat, string>) returns (s: SortedOut)
      ensures s == D.SortOut(View(), lines, again, left)
    {
      s := SortedOut([], [], []);
      for i := 0 to |lines|
        invariant s == D.SortOut(View(), lines[..i], again, left)
      {
        assert lines[..i + 1][..i] == lines[..i];
        var l := lines[i];
        var gen := if l.set_ in sets then GenOf(gens, sets[l.set_].path) else 0;
        if i in again || (i in left && gen != l.freed) {
          s := s.(back := s.back + [l]);
        } else if i in left {
          s := s.(wants := s.wants + [Want(l, left[i])]);
        } else {
          s := s.(kept := s.kept + [l]);
        }
      }
      assert lines[..|lines|] == lines;
    }

    // "!" on the files of paths, and in the sets that run on them
    method LetGo(paths: set<string>)
      modifies this`gens, this`sets
      ensures View() == D.LetGo(old(View()), paths)
    {
      gens := map p | p in gens.Keys + paths :: GenOf(gens, p) + (if p in paths then 1 else 0);
      sets := map r | r in sets :: if sets[r].path in paths then sets[r].FreeHeld() else sets[r];
    }

    // one line held if its set has room, and else to be taken as kept
    method HoldOne(l: Line, name: string, now: Stamp) returns (took: seq<Line>)
      modifies this`sets
      ensures sets == if l.set_ in old(sets) then old(sets)[l.set_ := old(sets)[l.set_].Hold(l.id, l.at, name, now, l.from, l.until)] else old(sets)
      ensures took == if l.set_ in old(sets) && old(sets)[l.set_].Holds(l.id, l.at, name, now) then [] else [l]
    {
      if l.set_ !in sets { return [l]; }
      var s := sets[l.set_];
      sets := sets[l.set_ := s.Hold(l.id, l.at, name, now, l.from, l.until)];
      return if s.Holds(l.id, l.at, name, now) then [] else [l];
    }

    // deliveries to leave on the relay, sorted: those now held are in the set, took had no
    // room, late belong to files freed meanwhile
    method MarkHeld(wants: seq<Want>, now: Stamp) returns (took: seq<Line>, late: seq<Line>)
      modifies this`sets
      ensures var fit := Wanted(old(View()), wants, true);
              && sets == HoldAll(old(sets), fit, now).sets && took == HoldAll(old(sets), fit, now).took
              && late == LinesOf(Wanted(old(View()), wants, false))
    {
      took, late := [], [];
      ghost var w, fit, rest := View(), [], [];
      for i := 0 to |wants|
        invariant fit == Wanted(w, wants[..i], true) && rest == Wanted(w, wants[..i], false)
        invariant sets == HoldAll(w.sets, fit, now).sets && took == HoldAll(w.sets, fit, now).took
        invariant late == LinesOf(rest)
      {
        HoldAllPaths(w.sets, fit, now, wants[i].line.set_);
        WantedSnoc(w, wants, i);
        HoldAllSnoc(w.sets, fit, wants[i], now);
        var Want(l, name) := wants[i];
        var gen := if l.set_ in sets then GenOf(gens, sets[l.set_].path) else 0;
        assert gen == GenOfLine(w, l);
        if gen != l.freed {
          assert LinesOf(rest + [wants[i]]) == LinesOf(rest) + [l];
          late, rest := late + [l], rest + [wants[i]];
        } else {
          var more := HoldOne(l, name, now);
          took := took + more;
          fit := fit + [wants[i]];
        }
      }
      assert wants[..|wants|] == wants;
    }

    method Ack(tok: nat, again: set<nat>, left: map<nat, string>, letGo: set<string>, now: Stamp)
      modifies this
      ensures View() == D.Ack(old(View()), tok, again, left, letGo, now)
      ensures walking == old(walking) && live == old(live)
    {
      if tok !in inflight { return; }
      ghost var w := View();
      var s := SortOut(inflight[tok], again, left);
      inflight := inflight - {tok};
      Requeue(s.back);
      LetGo(letGo);
      assert View() == D.LetGo(D.Requeue(w.(inflight := w.inflight - {tok}), s.back), letGo);
      Settle(s, now);
    }

    method Settle(s: SortedOut, now: Stamp)
      modifies this
      ensures View() == AckRest(old(View()), s, now) && walking == old(walking) && live == old(live)
    {
      ghost var w := View();
      var took, late := MarkHeld(s.wants, now);
      ghost var e := HoldAll(w.sets, Wanted(w, s.wants, true), now);
      assert View() == w.(sets := e.sets) && took == e.took;
      End(s.kept + took, KeepIt);
      assert View() == w.(sets := EndAll(e.sets, s.kept + e.took, KeepIt));
      Requeue(late);
    }

    // the least stamp of a set's unconfirmed deliveries, in the inbox or handed out
    method OwedFloor(r: nat) returns (low: Stamp, owed: bool)
      requires inflight.Keys <= {token}
      ensures owed <==> exists l :: l in inbox + Batch(View()) && l.set_ == r
      ensures owed ==> exists l :: l in inbox + Batch(View()) && l.set_ == r && l.at == low
      ensures forall l :: l in inbox + Batch(View()) && l.set_ == r ==> low <= l.at
    {
      low, owed := 0, false;
      var all := inbox + (if token in inflight then inflight[token] else []);
      for i := 0 to |all|
        invariant owed <==> exists j :: 0 <= j < i && all[j].set_ == r
        invariant owed ==> exists j :: 0 <= j < i && all[j].set_ == r && all[j].at == low
        invariant forall j :: 0 <= j < i && all[j].set_ == r ==> low <= all[j].at
      {
        if all[i].set_ == r && (!owed || all[i].at < low) { low, owed := all[i].at, true; }
      }
    }
  }
}
