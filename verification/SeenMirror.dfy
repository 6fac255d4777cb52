/**
 A runner's seen ids and the file behind them, side by side (engine/seen.go): what each
 call writes, and what a restart reads back.
 */
module SeenMirror {
  import opened Wrappers
  import opened Stamps
  import opened SeenSet
  import opened SeenLog

  datatype Op =
    | Keeps(id: ID)
    | Spoils(id: ID)
    | Claims(id: ID)
    | Releases(id: ID)
    | Holds(id: ID, at: Stamp, name: string, now: Stamp, from: int, until: int)
    | Frees

  function Do(s: Seen, op: Op): Seen {
    match op
    case Keeps(id) => s.HandedOver(id)
    case Spoils(id) => s.NotOpened(id)
    case Claims(id) => s.Claim(id)
    case Releases(id) => s.Release(id)
    case Holds(id, at, name, now, from, until) => s.Hold(id, at, name, now, from, until)
    case Frees => s.FreeHeld()
  }

  // what the call appends to the file
  function Written(s: Seen, op: Op): seq<LogLine> {
    match op
    case Keeps(id) => [Opened(id)]
    case Spoils(id) => [Unopened(id)]
    case Claims(_) => []
    case Releases(_) => []
    case Holds(id, at, name, now, from, until) =>
      if s.Holds(id, at, name, now) then [HeldLine(id, HeldAt(at, false, GroupOf(id, name), from, until))] else []
    case Frees => [Free]
  }

  // the file remembers what the set does, and holds what it holds; what it holds beside
  // that the relays no longer keep
  ghost predicate Mirrors(s: Seen, r: Replayed, now: Stamp) {
    && r.openedIds == s.openedIds && r.unopenedIds == s.unopenedIds
    && (forall id :: id in s.held ==> id in r.held && r.held[id] == s.held[id])
    && (forall id :: id in r.held && id !in s.held ==> HeldGone(r.held[id].at, now))
  }

  // what a runner starts with
  function Reload(path: string, file: seq<LogLine>, now: Stamp): Seen {
    Seen(path, Replay(file).openedIds, Replay(file).unopenedIds, {}, PruneHeld(Replay(file).held, now))
  }

  /** A restart has the rings the runner had, and of the held ids those the relays still
      keep, each as it was. */
  lemma RestartHas(s: Seen, file: seq<LogLine>, before: Stamp, now: Stamp)
    requires Mirrors(s, Replay(file), before) && before <= now
    ensures var s' := Reload(s.path, file, now);
            s'.openedIds == s.openedIds && s'.unopenedIds == s.unopenedIds && s'.held == PruneHeld(s.held, now)
  {
  }

  function Time(op: Op, now: Stamp): Stamp { if op.Holds? then op.now else now }

  // the replay takes the line of a hold: it has the id already, or room by its own count
  ghost predicate Fits(s: Seen, r: Replayed, op: Op) {
    op.Holds? && s.Holds(op.id, op.at, op.name, op.now) ==> op.id in r.held || HeldRoom(r.held, GroupOf(op.id, op.name))
  }

  lemma ReadOne(r: Replayed, line: LogLine)
    ensures ReadAll(r, [line]) == ReadLine(r, line) && ReadAll(r, []) == r
  {
    assert [line][..0] == [];
  }

  lemma HoldMirrors(s: Seen, r: Replayed, op: Op, now: Stamp)
    requires Mirrors(s, r, now) && op.Holds? && now <= op.now && 0 <= op.from <= op.until
    ensures Mirrors(Do(s, op), ReadAll(r, Written(s, op)), op.now) <==> Fits(s, r, op)
  {
    var h := HeldAt(op.at, false, GroupOf(op.id, op.name), op.from, op.until);
    ReadOne(r, HeldLine(op.id, h));
    HeldLineRoundTrip(op.id, h);
    var r', s' := ReadAll(r, Written(s, op)), Do(s, op);
    if s.Holds(op.id, op.at, op.name, op.now) && !Fits(s, r, op) {
      assert op.id in s'.held && op.id !in r'.held;
    }
  }

  /** One call keeps the file telling what the set in memory says, whatever the call; a
      hold does so exactly when the replay finds room for its line, counting the held ids
      past their time that only the memory has let go of. */
  lemma OpMirrorsExactlyWhen(s: Seen, file: seq<LogLine>, op: Op, now: Stamp)
    requires Mirrors(s, Replay(file), now) && (op.Holds? ==> now <= op.now && 0 <= op.from <= op.until)
    ensures Mirrors(Do(s, op), Replay(file + Written(s, op)), Time(op, now)) <==> Fits(s, Replay(file), op)
  {
    var r := Replay(file);
    ReadAllConcat(NOTHING, file, Written(s, op));
    match op
    case Keeps(id) => ReadOne(r, Opened(id));
    case Spoils(id) => ReadOne(r, Unopened(id));
    case Claims(id) => ReadOne(r, Free);
    case Releases(id) => ReadOne(r, Free);
    case Holds(id, at, name, t, from, until) => HoldMirrors(s, r, op, now);
    case Frees => ReadOne(r, Free);
  }

  // the set and its file after some calls, and the clock of the last hold
  datatype Both = Both(s: Seen, file: seq<LogLine>, now: Stamp)

  function Run(b: Both, ops: seq<Op>): Both {
    if ops == [] then b
    else
      var b1, op := Run(b, ops[..|ops| - 1]), ops[|ops| - 1];
      Both(Do(b1.s, op), b1.file + Written(b1.s, op), Time(op, b1.now))
  }

  // holds come with times in order, none before the last, and find room in the file
  ghost predicate RunFits(b: Both, ops: seq<Op>) {
    forall i :: 0 <= i < |ops| ==> OpFits(Run(b, ops[..i]), ops[i])
  }

  ghost predicate OpFits(b: Both, op: Op) {
    Fits(b.s, Replay(b.file), op) && (op.Holds? ==> b.now <= op.now && 0 <= op.from <= op.until)
  }

  /** Over any run of calls whose holds find room in the file, a restart at any later time
      has what the runner had, but for the claims it gives up and the holds past their
      time. */
  lemma {:induction false} RunMirrors(b: Both, ops: seq<Op>, now: Stamp)
    requires Mirrors(b.s, Replay(b.file), b.now) && RunFits(b, ops) && Run(b, ops).now <= now
    ensures var e := Run(b, ops);
            && Mirrors(e.s, Replay(e.file), e.now)
            && var s' := Reload(e.s.path, e.file, now);
            s'.openedIds == e.s.openedIds && s'.unopenedIds == e.s.unopenedIds && s'.held == PruneHeld(e.s.held, now)
  {
    if ops != [] {
      var front, op := ops[..|ops| - 1], ops[|ops| - 1];
      var b1 := Run(b, front);
      forall i | 0 <= i < |front| ensures OpFits(Run(b, front[..i]), front[i]) { assert front[..i] == ops[..i] && front[i] == ops[i]; }
      assert OpFits(b1, op);
      RunMirrors(b, front, b1.now);
      OpMirrorsExactlyWhen(b1.s, b1.file, op, b1.now);
    }
    var e := Run(b, ops);
    RestartHas(e.s, e.file, e.now, now);
  }

  // ---- the mark that drops what is held ----

  lemma {:induction false} MovedIs(order: seq<ID>, held: map<ID, HeldAt>)
    ensures Distinct(Moved(order, held)) && |Moved(order, held)| <= |held|
    ensures forall id :: id in Moved(order, held) <==> id in order && id in held
    decreases |order|
  {
    if order != [] {
      assert order == [order[0]] + order[1..];
      if order[0] in held {
        MovedIs(order[1..], held - {order[0]});
        assert held.Keys == (held - {order[0]}).Keys + {order[0]};
      } else {
        MovedIs(order[1..], held);
      }
    }
  }

  /** After "~" nothing is held, and every id that was is remembered as kept. */
  lemma DropOpensHeld(file: seq<LogLine>, group: ID -> Group, id: ID)
    requires GroupsFixed(file, group)
    ensures var r, r' := Replay(file), Replay(file + [Drop]);
            && r'.held == map[] && r'.unopenedIds == r.unopenedIds
            && (id in r.held && id !in r.openedIds ==> id in r'.openedIds)
            && (id in r'.openedIds ==> id in r.openedIds || id in r.held)
  {
    var r := Replay(file);
    var ids := Moved(r.order, r.held);
    ReadAllConcat(NOTHING, file, [Drop]);
    ReadOne(r, Drop);
    ReplayIsScan(file);
    ScanHeldOK(file, group);
    MovedIs(r.order, r.held);
    if id in r.held && id !in r.openedIds {
      assert id in Members(r.order);
      var k :| 0 <= k < |ids| && ids[k] == id;
      RingAddAllHas(r.openedIds, SEEN_KEEP, ids, k);
    }
    if id in RingAddAll(r.openedIds, SEEN_KEEP, ids) { RingAddAllFrom(r.openedIds, SEEN_KEEP, ids, id); }
  }

  // ---- a hold the file loses ----

  function OldText(i: nat): HeldText { HeldText(i, 0, Single(i), None) }

  // the file of a runner that held n texts long ago
  function OldFile(n: nat): seq<LogLine> { seq(n, i requires 0 <= i < n => Held(OldText(i))) }

  // n old texts are held, each in a group of its own
  ghost predicate HoldsOld(held: map<ID, HeldAt>, n: nat) {
    && (forall i :: i in held <==> 0 <= i < n) && |held| == n && |Groups(held)| == n
    && (forall i :: i in held ==> held[i].at == 0 && held[i].group == Single(i))
  }

  lemma OldRoom(held: map<ID, HeldAt>, n: nat)
    requires HoldsOld(held, n) && n < SEEN_HELD_KEEP
    ensures n !in held && Single(n) !in Groups(held) && HeldRoom(held, Single(n))
  {
    assert InGroup(held, Single(n)) == {};
  }

  lemma OneMoreOld(held: map<ID, HeldAt>, n: nat)
    requires HoldsOld(held, n) && n < SEEN_HELD_KEEP
    ensures HoldsOld(HoldLine(held, OldText(n)), n + 1)
  {
    OldRoom(held, n);
    AddedOld(held, n, ParseHeld(OldText(n)));
  }

  lemma AddedSizes(held: map<ID, HeldAt>, id: ID, h: HeldAt)
    requires id !in held && h.group !in Groups(held)
    ensures |held[id := h]| == |held| + 1 && |Groups(held[id := h])| == |Groups(held)| + 1
  {
    GroupsAdd(held, id, h);
    assert held[id := h].Keys == held.Keys + {id};
  }

  lemma AddedOld(held: map<ID, HeldAt>, n: nat, h: HeldAt)
    requires HoldsOld(held, n) && n !in held && Single(n) !in Groups(held) && h.at == 0 && h.group == Single(n)
    ensures HoldsOld(held[n := h], n + 1)
  {
    AddedSizes(held, n, h);
  }

  lemma {:induction false} OldHeld(n: nat)
    requires n <= SEEN_HELD_KEEP
    ensures HoldsOld(Replay(OldFile(n)).held, n) && Replay(OldFile(n)).openedIds == [] && Replay(OldFile(n)).unopenedIds == []
  {
    if n > 0 {
      OldHeld(n - 1);
      assert OldFile(n)[..n - 1] == OldFile(n - 1);
      OneMoreOld(Replay(OldFile(n - 1)).held, n - 1);
    } else {
      NoneHaveRoom(Single(0));
    }
  }

  /** After 200 texts held a fortnight ago the runner's set has let go of them all and
      holds one more, but a restart counts them still as it reads and loses the hold. */
  lemma OldHoldsLoseOne()
    ensures
      var now, s := SEEN_HELD_FOR + 1, Seen("", [], [], {}, Replay(OldFile(SEEN_HELD_KEEP)).held);
      var op := Holds(SEEN_HELD_KEEP, now, "", now, 0, 0);
      && Mirrors(s, Replay(OldFile(SEEN_HELD_KEEP)), 0)
      && SEEN_HELD_KEEP in Do(s, op).held && SEEN_HELD_KEEP !in Reload("", OldFile(SEEN_HELD_KEEP) + Written(s, op), now).held
  {
    var now, r := SEEN_HELD_FOR + 1, Replay(OldFile(SEEN_HELD_KEEP));
    OldHeld(SEEN_HELD_KEEP);
    var s := Seen("", [], [], {}, r.held);
    var op := Holds(SEEN_HELD_KEEP, now, "", now, 0, 0);
    assert PruneHeld(s.held, now) == map[];
    assert InGroup(r.held, Single(SEEN_HELD_KEEP)) == {};
    assert s.Holds(op.id, op.at, op.name, op.now) by { NoneHaveRoom(Single(SEEN_HELD_KEEP)); }
    ReadAllConcat(NOTHING, OldFile(SEEN_HELD_KEEP), Written(s, op));
    ReadOne(r, HeldLine(op.id, HeldAt(op.at, false, GroupOf(op.id, op.name), op.from, op.until)));
  }

  lemma NoneHaveRoom(g: Group)
    ensures HeldRoom(map[], g) && Groups(map[]) == {}
  {
    var none: map<ID, HeldAt> := map[];
    assert InGroup(none, g) == {} && Groups(none) == {};
  }
}
