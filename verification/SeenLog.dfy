/**
 The file behind a runner's seen ids (engine/seen.go): an append-only log whose marks
 apply to everything before them, and its compaction. Replaying the compacted file
 gives the same rings and the same held ids as replaying the original.
 */
module SeenLog {
  import opened Wrappers
  import opened Stamps
  import opened SeenSet

  // a held id as its line has it: the stamp, the group, and the two times when given
  datatype HeldText = HeldText(id: ID, at: Stamp, group: Group, times: Option<(int, int)>)

  datatype LogLine =
    | Free                  // "!": every id held before is fetched again
    | Drop                  // "~": every id held before goes as kept
    | Held(text: HeldText)  // "+id stamp group [from until]"
    | Unopened(id: ID)      // "-id"
    | Opened(id: ID)        // "id"

  // times that make no sense are read as not known
  function ParseHeld(t: HeldText): (h: HeldAt)
    ensures !h.free && 0 <= h.from <= h.until
  {
    match t.times
    case Some((from, until)) =>
      if from >= 0 && until >= from then HeldAt(t.at, false, t.group, from, until) else HeldAt(t.at, false, t.group, 0, 0)
    case None => HeldAt(t.at, false, t.group, 0, 0)
  }

  function HeldLine(id: ID, h: HeldAt): LogLine {
    Held(HeldText(id, h.at, h.group, if h.until > 0 then Some((h.from, h.until)) else None))
  }

  // a held id written and read again is itself, its mark aside, exactly when its
  // times are in order, or both not known
  lemma HeldLineRoundTrip(id: ID, h: HeldAt)
    ensures ParseHeld(HeldLine(id, h).text) == h.(free := false)
            <==> (0 <= h.from <= h.until)
  {
  }

  // ---- replay ----

  // order: the held ids as they came to be held since the last "~"
  datatype Replayed = Replayed(openedIds: seq<ID>, unopenedIds: seq<ID>, held: map<ID, HeldAt>, order: seq<ID>)

  const NOTHING := Replayed([], [], map[], [])

  function AllFree(held: map<ID, HeldAt>): map<ID, HeldAt> { map id | id in held :: held[id].(free := true) }

  // the ids of order that are held, each once
  function Moved(order: seq<ID>, held: map<ID, HeldAt>): seq<ID> {
    if order == [] then []
    else if order[0] in held then [order[0]] + Moved(order[1..], held - {order[0]})
    else Moved(order[1..], held)
  }

  // whether a held line is taken: the id is there already, or there is room
  predicate Takes(held: map<ID, HeldAt>, t: HeldText) { t.id in held || HeldRoom(held, t.group) }

  function HoldLine(held: map<ID, HeldAt>, t: HeldText): map<ID, HeldAt> {
    if Takes(held, t) then held[t.id := ParseHeld(t)] else held
  }

  function OrderLine(held: map<ID, HeldAt>, order: seq<ID>, t: HeldText): seq<ID> {
    if t.id !in held && Takes(held, t) then order + [t.id] else order
  }

  function ReadLine(s: Replayed, line: LogLine): Replayed {
    match line
    case Free => s.(held := AllFree(s.held))
    case Drop => Replayed(RingAddAll(s.openedIds, SEEN_KEEP, Moved(s.order, s.held)), s.unopenedIds, map[], [])
    case Held(t) => s.(held := HoldLine(s.held, t), order := OrderLine(s.held, s.order, t))
    case Unopened(id) => s.(unopenedIds := RingAdd(s.unopenedIds, SEEN_UNOPENED_KEEP, id), held := s.held - {id})
    case Opened(id) => s.(openedIds := RingAdd(s.openedIds, SEEN_KEEP, id), held := s.held - {id})
  }

  function ReadAll(s: Replayed, file: seq<LogLine>): Replayed {
    if file == [] then s else ReadLine(ReadAll(s, file[..|file| - 1]), file[|file| - 1])
  }

  function Replay(file: seq<LogLine>): Replayed { ReadAll(NOTHING, file) }

  lemma {:induction false} ReadAllConcat(s: Replayed, a: seq<LogLine>, b: seq<LogLine>)
    ensures ReadAll(s, a + b) == ReadAll(ReadAll(s, a), b)
  {
    if b == [] {
      assert a + b == a;
    } else {
      ReadAllConcat(s, a, b[..|b| - 1]);
      assert (a + b)[..|a + b| - 1] == a + b[..|b| - 1];
    }
  }

  // ---- the compacting scan: lists where the replay has rings ----

  function ScanLine(s: Replayed, line: LogLine): Replayed {
    match line
    case Free => s.(held := AllFree(s.held))
    case Drop => Replayed(s.openedIds + Moved(s.order, s.held), s.unopenedIds, map[], [])
    case Held(t) => s.(held := HoldLine(s.held, t), order := OrderLine(s.held, s.order, t))
    case Unopened(id) => s.(unopenedIds := s.unopenedIds + [id], held := s.held - {id})
    case Opened(id) => s.(openedIds := s.openedIds + [id], held := s.held - {id})
  }

  function Scan(file: seq<LogLine>): Replayed {
    if file == [] then NOTHING else ScanLine(Scan(file[..|file| - 1]), file[|file| - 1])
  }

  function Last<T>(s: seq<T>, max: nat): seq<T> { if |s| > max then s[|s| - max..] else s }

  function OpenedLines(ids: seq<ID>): seq<LogLine> { seq(|ids|, i requires 0 <= i < |ids| => Opened(ids[i])) }

  function UnopenedLines(ids: seq<ID>): seq<LogLine> { seq(|ids|, i requires 0 <= i < |ids| => Unopened(ids[i])) }

  // the held lines of one kind that the relays still keep, in order, each once
  function Lines(order: seq<ID>, held: map<ID, HeldAt>, now: Stamp, free: bool): seq<LogLine> {
    if order == [] then []
    else if order[0] in held && !HeldGone(held[order[0]].at, now) then
      (if held[order[0]].free == free then [HeldLine(order[0], held[order[0]])] else [])
      + Lines(order[1..], held - {order[0]}, now, free)
    else Lines(order[1..], held, now, free)
  }

  // lines whose ids are wanted back, a "!" if there are any, and the other held lines
  function HeldPart(s: Replayed, now: Stamp): seq<LogLine> {
    var free := Lines(s.order, s.held, now, true);
    free + (if free != [] then [Free] else []) + Lines(s.order, s.held, now, false)
  }

  // one line per id, as many as a ring has room for
  function IdPart(s: Replayed): seq<LogLine> {
    OpenedLines(Last(s.openedIds, SEEN_KEEP)) + UnopenedLines(Last(s.unopenedIds, SEEN_UNOPENED_KEEP))
  }

  function Compacted(file: seq<LogLine>, now: Stamp): seq<LogLine> { IdPart(Scan(file)) + HeldPart(Scan(file), now) }

  // ---- rings and lists ----

  // no id comes again within the ring's length
  ghost predicate Spaced(ids: seq<ID>, max: nat) {
    forall i, j :: 0 <= i < j < |ids| && ids[i] == ids[j] ==> j - i > max
  }

  lemma LastStep(front: seq<ID>, id: ID, max: nat)
    requires max > 0 && id !in Last(front, max)
    ensures RingAdd(Last(front, max), max, id) == Last(front + [id], max)
  {
    if |front| >= max {
      assert Last(front, max) == front[|front| - max..];
    }
  }

  lemma {:induction false} RingIsLast(ids: seq<ID>, max: nat)
    requires max > 0 && Spaced(ids, max)
    ensures RingAddAll([], max, ids) == Last(ids, max)
  {
    if ids != [] {
      var front, id := ids[..|ids| - 1], ids[|ids| - 1];
      assert ids == front + [id];
      assert Spaced(front, max);
      RingIsLast(front, max);
      SpacedLast(front, id, max);
      LastStep(front, id, max);
    }
  }

  lemma SpacedLast(front: seq<ID>, id: ID, max: nat)
    requires max > 0 && Spaced(front + [id], max)
    ensures id !in Last(front, max)
  {
    var ids, last := front + [id], Last(front, max);
    forall k | 0 <= k < |last| ensures last[k] != id {
      assert ids[|front| - |last| + k] == last[k] && ids[|front|] == id;
    }
  }

  // that is: no line names an id the ring has as it is read
  lemma {:induction false} SpacedExactlyWhen(ids: seq<ID>, max: nat)
    requires max > 0
    ensures Spaced(ids, max) <==> forall i :: 0 <= i < |ids| ==> ids[i] !in RingAddAll([], max, ids[..i])
  {
    if ids != [] {
      var front, id := ids[..|ids| - 1], ids[|ids| - 1];
      assert ids == front + [id];
      SpacedExactlyWhen(front, max);
      assert forall i :: 0 <= i < |front| ==> front[..i] == ids[..i] && front[i] == ids[i];
      if Spaced(ids, max) {
        assert Spaced(front, max);
        RingIsLast(front, max);
        SpacedLast(front, id, max);
      } else if Spaced(front, max) {
        RingIsLast(front, max);
        AgainIsInLast(front, id, max);
      }
    }
  }

  lemma AgainIsInLast(front: seq<ID>, id: ID, max: nat)
    requires Spaced(front, max) && !Spaced(front + [id], max)
    ensures id in Last(front, max)
  {
    var ids := front + [id];
    var i, j :| 0 <= i < j < |ids| && ids[i] == ids[j] && j - i <= max;
    assert j == |front|;
    assert Last(front, max)[i - (|front| - |Last(front, max)|)] == id;
  }

  // the end of a list in order has no id twice, and reads back as itself
  lemma EndReadsAsItself(front: seq<ID>, max: nat)
    requires 0 < max <= |front| && Spaced(front, max)
    ensures var ring := Last(front, max); Distinct(ring) && RingAddAll([], max, ring[1..]) == ring[1..]
  {
    var ring := Last(front, max);
    assert forall i :: 0 <= i < |ring| ==> ring[i] == front[|front| - max + i];
    RingIsLast(ring[1..], max);
  }

  lemma LastShifts(front: seq<ID>, id: ID, max: nat)
    requires 0 < max <= |front|
    ensures Last(front + [id], max) == Last(front, max)[1..] + [id]
  {
  }

  lemma RingAddSnoc(max: nat, ids: seq<ID>, id: ID)
    requires max > 0
    ensures RingAddAll([], max, ids + [id]) == RingAdd(RingAddAll([], max, ids), max, id)
  {
    assert (ids + [id])[..|ids|] == ids;
  }

  // a full ring that loses its oldest and then adds one it has is another ring
  lemma ShiftedElse(ring: seq<ID>, id: ID, max: nat)
    requires |ring| == max > 1 && Distinct(ring) && id in ring
    ensures RingAdd(ring[1..], max, id) != ring
  {
    if id !in ring[1..] { assert (ring[1..] + [id])[0] == ring[1] != ring[0]; }
  }

  lemma AgainReadsElse(front: seq<ID>, id: ID, max: nat)
    requires 1 < max <= |front| && Spaced(front, max) && id in Last(front, max)
    ensures RingAddAll([], max, Last(front + [id], max)) != Last(front, max)
  {
    var ring := Last(front, max);
    assert Distinct(ring) && RingAddAll([], max, ring[1..]) == ring[1..] by { EndReadsAsItself(front, max); }
    LastShifts(front, id, max);
    RingAddSnoc(max, ring[1..], id);
    ShiftedElse(ring, id, max);
  }

  /** From a list in order and as long as the ring, one more line leaves a list whose
      end reads back as the ring exactly when the ring does not have its id. */
  lemma OneMoreReadsBackExactlyWhen(front: seq<ID>, id: ID, max: nat)
    requires 1 < max <= |front| && Spaced(front, max)
    ensures RingAddAll([], max, Last(front + [id], max)) == RingAddAll([], max, front + [id])
            <==> id !in RingAddAll([], max, front)
  {
    var ids := front + [id];
    assert ids[..|front|] == front;
    RingIsLast(front, max);
    if id in Last(front, max) {
      AgainReadsElse(front, id, max);
    } else {
      assert Spaced(ids, max) by { if !Spaced(ids, max) { AgainIsInLast(front, id, max); } }
      LastReadsAsRing(ids, max);
    }
  }

  // the scan's lists are the adds whose rings the replay ends with
  lemma {:induction false} ReplayIsScan(file: seq<LogLine>)
    ensures var r, s := Replay(file), Scan(file);
            && r.openedIds == RingAddAll([], SEEN_KEEP, s.openedIds)
            && r.unopenedIds == RingAddAll([], SEEN_UNOPENED_KEEP, s.unopenedIds)
            && r.held == s.held && r.order == s.order
  {
    if file != [] {
      ReplayIsScan(file[..|file| - 1]);
      var s, line := Scan(file[..|file| - 1]), file[|file| - 1];
      match line
      case Drop => RingAddAllConcat([], SEEN_KEEP, s.openedIds, Moved(s.order, s.held));
      case Opened(id) => RingAddAllConcat([], SEEN_KEEP, s.openedIds, [id]);
      case Unopened(id) => RingAddAllConcat([], SEEN_UNOPENED_KEEP, s.unopenedIds, [id]);
      case Free =>
      case Held(t) =>
    }
  }

  // ---- the held ids of a log ----

  // a group is fixed per id, as the code writes it
  ghost predicate GroupsFixed(file: seq<LogLine>, group: ID -> Group) {
    forall i :: 0 <= i < |file| && file[i].Held? ==> file[i].text.group == group(file[i].text.id)
  }

  // sub has some of full's ids, in the same groups
  ghost predicate SameGroups(sub: map<ID, HeldAt>, full: map<ID, HeldAt>) {
    sub.Keys <= full.Keys && forall id :: id in sub ==> sub[id].group == full[id].group
  }

  lemma SetSize<T>(a: set<T>, b: set<T>)
    requires a <= b
    ensures |a| <= |b| && (a != b ==> |a| < |b|)
  {
    if a != b { assert |b| == |b - a| + |b * a| && b * a == a && b - a != {}; }
  }

  lemma SubGroups(sub: map<ID, HeldAt>, full: map<ID, HeldAt>)
    requires SameGroups(sub, full)
    ensures Groups(sub) <= Groups(full) && forall g :: InGroup(sub, g) <= InGroup(full, g)
  {
    forall g | g in Groups(sub) ensures g in Groups(full) {
      var id :| id in sub && sub[id].group == g;
      assert full[id].group == g;
    }
  }

  lemma SubCaps(sub: map<ID, HeldAt>, full: map<ID, HeldAt>)
    requires SameGroups(sub, full) && HeldInCaps(full)
    ensures HeldInCaps(sub)
  {
    SubGroups(sub, full);
    SetSize(sub.Keys, full.Keys);
    SetSize(Groups(sub), Groups(full));
    forall g ensures |InGroup(sub, g)| <= SEEN_HELD_PER_GROUP {
      SetSize(InGroup(sub, g), InGroup(full, g));
      assert |InGroup(full, g)| <= SEEN_HELD_PER_GROUP;
    }
  }

  // what fitted once fits again, in any order
  lemma RoomInside(sub: map<ID, HeldAt>, full: map<ID, HeldAt>, id: ID)
    requires SameGroups(sub, full) && HeldInCaps(full) && id in full && id !in sub
    ensures HeldRoom(sub, full[id].group)
  {
    var g := full[id].group;
    SubGroups(sub, full);
    SetSize(sub.Keys, full.Keys);
    assert id in InGroup(full, g) && id !in InGroup(sub, g);
    SetSize(InGroup(sub, g), InGroup(full, g));
    assert |InGroup(full, g)| <= SEEN_HELD_PER_GROUP;
    if |InGroup(sub, g)| == 0 {
      assert g in Groups(full);
      assert forall j :: j in sub ==> j !in InGroup(sub, g);
      SetSize(Groups(sub), Groups(full));
    }
  }

  // what a log leaves held is inside the caps, in its order, with times in order
  ghost predicate HeldOK(s: Replayed, group: ID -> Group) {
    && HeldInCaps(s.held)
    && s.held.Keys <= Members(s.order)
    && (forall id :: id in s.held ==> 0 <= s.held[id].from <= s.held[id].until)
    && (forall id :: id in s.held ==> s.held[id].group == group(id))
  }

  lemma {:induction false} ScanHeldOK(file: seq<LogLine>, group: ID -> Group)
    requires GroupsFixed(file, group)
    ensures HeldOK(Scan(file), group)
  {
    if file != [] {
      ScanHeldOK(file[..|file| - 1], group);
      ScanLineHeldOK(file[|file| - 1], Scan(file[..|file| - 1]), group);
    }
  }

  lemma ScanHeldLineOK(t: HeldText, s: Replayed, group: ID -> Group)
    requires HeldOK(s, group) && t.group == group(t.id)
    ensures HeldOK(s.(held := HoldLine(s.held, t), order := OrderLine(s.held, s.order, t)), group)
  {
    if t.id !in s.held && Takes(s.held, t) {
      HeldRoomKeepsCaps(s.held, t.id, ParseHeld(t));
    } else {
      SubCaps(HoldLine(s.held, t), s.held);
    }
  }

  lemma FewerHeldOK(s: Replayed, s': Replayed, group: ID -> Group)
    requires HeldOK(s, group) && s'.held.Keys <= s.held.Keys && s'.held.Keys <= Members(s'.order)
    requires forall id :: id in s'.held ==> s'.held[id].(free := true) == s.held[id].(free := true)
    ensures HeldOK(s', group)
  {
    forall id | id in s'.held
      ensures s'.held[id].group == s.held[id].group && s'.held[id].from == s.held[id].from && s'.held[id].until == s.held[id].until
    {
      assert s'.held[id].(free := true) == s.held[id].(free := true);
    }
    SubCaps(s'.held, s.held);
  }

  lemma ScanLineHeldOK(line: LogLine, s: Replayed, group: ID -> Group)
    requires HeldOK(s, group) && (line.Held? ==> line.text.group == group(line.text.id))
    ensures HeldOK(ScanLine(s, line), group)
  {
    if line.Held? { ScanHeldLineOK(line.text, s, group); } else { FewerHeldOK(s, ScanLine(s, line), group); }
  }

  // ---- replaying the compacted file ----

  lemma {:induction false} ReadOpened(s: Replayed, ids: seq<ID>)
    requires s.held == map[]
    ensures ReadAll(s, OpenedLines(ids)) == s.(openedIds := RingAddAll(s.openedIds, SEEN_KEEP, ids))
  {
    if ids != [] {
      ReadOpened(s, ids[..|ids| - 1]);
      assert OpenedLines(ids)[..|ids| - 1] == OpenedLines(ids[..|ids| - 1]);
    }
  }

  lemma {:induction false} ReadUnopened(s: Replayed, ids: seq<ID>)
    requires s.held == map[]
    ensures ReadAll(s, UnopenedLines(ids)) == s.(unopenedIds := RingAddAll(s.unopenedIds, SEEN_UNOPENED_KEEP, ids))
  {
    if ids != [] {
      ReadUnopened(s, ids[..|ids| - 1]);
      assert UnopenedLines(ids)[..|ids| - 1] == UnopenedLines(ids[..|ids| - 1]);
    }
  }

  // what Lines writes, as it reads back
  ghost function Kept(order: seq<ID>, held: map<ID, HeldAt>, now: Stamp, free: bool): map<ID, HeldAt> {
    map id | id in held && id in order && !HeldGone(held[id].at, now) && held[id].free == free :: held[id].(free := false)
  }

  // the first id of the order decides one entry of what is kept
  lemma KeptFirst(order: seq<ID>, held: map<ID, HeldAt>, now: Stamp, free: bool)
    requires order != []
    ensures var id, rest := order[0], order[1..];
            Kept(order, held, now, free) ==
              if id in held && !HeldGone(held[id].at, now) then
                Kept(rest, held - {id}, now, free)
                + (if held[id].free == free then map[id := held[id].(free := false)] else map[])
              else Kept(rest, held, now, free)
  {
    assert order == [order[0]] + order[1..];
  }

  // one held line read where it finds room
  lemma ReadOneHeld(r: Replayed, id: ID, h: HeldAt, full: map<ID, HeldAt>)
    requires HeldInCaps(full) && SameGroups(r.held, full) && id in full && full[id].group == h.group && id !in r.held
    requires 0 <= h.from <= h.until
    ensures var r1 := ReadLine(r, HeldLine(id, h));
            && r1.held == r.held[id := h.(free := false)] && SameGroups(r1.held, full)
            && r1.openedIds == r.openedIds && r1.unopenedIds == r.unopenedIds
    ensures ReadAll(r, [HeldLine(id, h)]) == ReadLine(r, HeldLine(id, h))
  {
    HeldLineRoundTrip(id, h);
    RoomInside(r.held, full, id);
    assert [HeldLine(id, h)][..0] == [];
  }

  lemma MapShift(a: map<ID, HeldAt>, id: ID, h: HeldAt, b: map<ID, HeldAt>)
    requires id !in b
    ensures a[id := h] + b == a + (b + map[id := h])
  {
  }

  // held lines read back one by one, each finding room
  lemma {:induction false} ReadHeld(r: Replayed, order: seq<ID>, held: map<ID, HeldAt>, now: Stamp, free: bool, full: map<ID, HeldAt>)
    requires HeldInCaps(full) && SameGroups(r.held, full) && SameGroups(held, full)
    requires forall id :: id in held ==> 0 <= held[id].from <= held[id].until
    requires forall id :: id in held && held[id].free == free ==> id !in r.held
    ensures var r' := ReadAll(r, Lines(order, held, now, free));
            && r'.held == r.held + Kept(order, held, now, free)
            && r'.openedIds == r.openedIds && r'.unopenedIds == r.unopenedIds
    decreases |order|
  {
    var all := Kept(order, held, now, free);
    if order == [] {
      assert all == map[] && r.held + all == r.held;
    } else {
      var id := order[0];
      KeptFirst(order, held, now, free);
      if !(id in held && !HeldGone(held[id].at, now)) {
        ReadHeld(r, order[1..], held, now, free, full);
      } else if held[id].free != free {
        ReadHeld(r, order[1..], held - {id}, now, free, full);
        assert Lines(order, held, now, free) == Lines(order[1..], held - {id}, now, free);
        assert all == Kept(order[1..], held - {id}, now, free);
      } else {
        var h, rest, more := held[id], Lines(order[1..], held - {id}, now, free), Kept(order[1..], held - {id}, now, free);
        ReadOneHeld(r, id, h, full);
        var r1 := ReadLine(r, HeldLine(id, h));
        ReadHeld(r1, order[1..], held - {id}, now, free, full);
        ReadAllConcat(r, [HeldLine(id, h)], rest);
        assert Lines(order, held, now, free) == [HeldLine(id, h)] + rest;
        MapShift(r.held, id, h.(free := false), more);
        assert all == more + map[id := h.(free := false)];
      }
    }
  }

  // no line is written exactly when there is nothing to keep of that kind
  lemma {:induction false} LinesEmpty(order: seq<ID>, held: map<ID, HeldAt>, now: Stamp, free: bool)
    ensures Lines(order, held, now, free) == [] <==> Kept(order, held, now, free) == map[]
    decreases |order|
  {
    if order != [] {
      KeptFirst(order, held, now, free);
      LinesEmpty(order[1..], held - {order[0]}, now, free);
      LinesEmpty(order[1..], held, now, free);
      if order[0] in held && !HeldGone(held[order[0]].at, now) && held[order[0]].free == free {
        assert order[0] in Kept(order, held, now, free);
      }
    }
  }

  // the two kinds together are what is held and still kept by the relays
  lemma KeptTogether(order: seq<ID>, held: map<ID, HeldAt>, now: Stamp)
    requires held.Keys <= Members(order)
    ensures AllFree(Kept(order, held, now, true)) + Kept(order, held, now, false) == PruneHeld(held, now)
  {
    var all := AllFree(Kept(order, held, now, true)) + Kept(order, held, now, false);
    assert all.Keys == PruneHeld(held, now).Keys;
    forall id | id in all ensures all[id] == held[id] {
    }
  }

  // the held part of the compacted file, from a state that holds nothing
  lemma ReadHeldPart(r: Replayed, s: Replayed, now: Stamp)
    requires r.held == map[] && HeldInCaps(s.held) && s.held.Keys <= Members(s.order)
    requires forall id :: id in s.held ==> 0 <= s.held[id].from <= s.held[id].until
    ensures var r' := ReadAll(r, HeldPart(s, now));
            && r'.held == PruneHeld(s.held, now) && r'.openedIds == r.openedIds && r'.unopenedIds == r.unopenedIds
  {
    var free, still := Lines(s.order, s.held, now, true), Lines(s.order, s.held, now, false);
    var mark := if free != [] then [Free] else [];
    ReadHeld(r, s.order, s.held, now, true, s.held);
    LinesEmpty(s.order, s.held, now, true);
    var r1 := ReadAll(r, free);
    var kept := Kept(s.order, s.held, now, true);
    assert r.held + kept == kept;
    ReadAllConcat(r, free, mark);
    var r2 := ReadAll(r1, mark);
    assert [Free][..0] == [];
    assert ReadAll(r1, []) == r1;
    assert r2.held == AllFree(kept);
    ReadHeld(r2, s.order, s.held, now, false, s.held);
    ReadAllConcat(r, free + mark, still);
    KeptTogether(s.order, s.held, now);
  }

  // a ring written as its last ids reads back as the ring
  lemma LastReadsAsRing(ids: seq<ID>, max: nat)
    requires max > 0 && Spaced(ids, max)
    ensures RingAddAll([], max, Last(ids, max)) == RingAddAll([], max, ids)
  {
    RingIsLast(ids, max);
    RingIsLast(Last(ids, max), max);
  }

  lemma ReadIdPart(s: Replayed)
    requires Spaced(s.openedIds, SEEN_KEEP) && Spaced(s.unopenedIds, SEEN_UNOPENED_KEEP)
    ensures ReadAll(NOTHING, IdPart(s)) ==
            Replayed(RingAddAll([], SEEN_KEEP, s.openedIds), RingAddAll([], SEEN_UNOPENED_KEEP, s.unopenedIds), map[], [])
  {
    var ops, uns := Last(s.openedIds, SEEN_KEEP), Last(s.unopenedIds, SEEN_UNOPENED_KEEP);
    LastReadsAsRing(s.openedIds, SEEN_KEEP);
    LastReadsAsRing(s.unopenedIds, SEEN_UNOPENED_KEEP);
    ReadOpened(NOTHING, ops);
    ReadUnopened(ReadAll(NOTHING, OpenedLines(ops)), uns);
    ReadAllConcat(NOTHING, OpenedLines(ops), UnopenedLines(uns));
  }

  /** Replaying the compacted file gives the same opened ring, unopened ring and held
      ids, free marks, groups and times included, as replaying the original once held
      ids past their time are pruned. */
  lemma CompactionKeepsMeaning(file: seq<LogLine>, group: ID -> Group, now: Stamp)
    requires GroupsFixed(file, group)
    requires Spaced(Scan(file).openedIds, SEEN_KEEP) && Spaced(Scan(file).unopenedIds, SEEN_UNOPENED_KEEP)
    ensures var r, r' := Replay(file), Replay(Compacted(file, now));
            && r'.openedIds == r.openedIds && r'.unopenedIds == r.unopenedIds
            && r'.held == PruneHeld(r.held, now)
  {
    ReplayIsScan(file);
    ScanHeldOK(file, group);
    ReadIdPart(Scan(file));
    ReadHeldPart(ReadAll(NOTHING, IdPart(Scan(file))), Scan(file), now);
    ReadAllConcat(NOTHING, IdPart(Scan(file)), HeldPart(Scan(file), now));
  }

  // ---- the compaction as the code runs it ----

  // "~": each held id goes as kept, in order, once
  method DropHeld(order: seq<ID>, held0: map<ID, HeldAt>) returns (moved: seq<ID>, held: map<ID, HeldAt>)
    requires held0.Keys <= Members(order)
    ensures moved == Moved(order, held0) && held == map[]
  {
    moved, held := [], held0;
    for i := 0 to |order|
      invariant moved + Moved(order[i..], held) == Moved(order, held0)
      invariant held.Keys <= Members(order[i..])
    {
      assert order[i..] == [order[i]] + order[i + 1..];
      assert order[i..][1..] == order[i + 1..];
      if order[i] in held {
        assert moved + ([order[i]] + Moved(order[i + 1..], held - {order[i]})) == moved + [order[i]] + Moved(order[i + 1..], held - {order[i]});
        moved, held := moved + [order[i]], held - {order[i]};
      }
    }
    assert held.Keys == {};
  }

  // the held lines, the ones let go of and the ones still held, each id once
  method WriteHeld(order: seq<ID>, held0: map<ID, HeldAt>, now: Stamp) returns (free: seq<LogLine>, still: seq<LogLine>)
    ensures free == Lines(order, held0, now, true) && still == Lines(order, held0, now, false)
  {
    free, still := [], [];
    var held := held0;
    for i := 0 to |order|
      invariant free + Lines(order[i..], held, now, true) == Lines(order, held0, now, true)
      invariant still + Lines(order[i..], held, now, false) == Lines(order, held0, now, false)
    {
      assert order[i..][1..] == order[i + 1..];
      if order[i] in held && !HeldGone(held[order[i]].at, now) {
        var h := held[order[i]];
        held := held - {order[i]};
        if h.free { free := free + [HeldLine(order[i], h)]; } else { still := still + [HeldLine(order[i], h)]; }
      }
    }
  }

  method Compact(file: seq<LogLine>, now: Stamp) returns (keep: seq<LogLine>)
    ensures keep == Compacted(file, now)
  {
    var s := NOTHING;
    for i := 0 to |file|
      invariant s == Scan(file[..i]) && s.held.Keys <= Members(s.order)
    {
      assert file[..i + 1][..i] == file[..i];
      if file[i] == Drop {
        var moved, held := DropHeld(s.order, s.held);
        s := Replayed(s.openedIds + moved, s.unopenedIds, held, []);
      } else {
        s := ScanLine(s, file[i]);
      }
    }
    assert file[..|file|] == file;
    var ops, uns := s.openedIds, s.unopenedIds;
    if |ops| > SEEN_KEEP { ops := ops[|ops| - SEEN_KEEP..]; }
    if |uns| > SEEN_UNOPENED_KEEP { uns := uns[|uns| - SEEN_UNOPENED_KEEP..]; }
    var free, still := WriteHeld(s.order, s.held, now);
    keep := OpenedLines(ops) + UnopenedLines(uns);
    keep := keep + (free + (if free != [] then [Free] else []) + still);
  }
}
