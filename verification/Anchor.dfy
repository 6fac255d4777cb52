/**
 The anchor file (engine/nostr.go): a runner's progress on disk. It is held down by two
 things, the debt of our relay's walks and deliveries not yet confirmed, so that a
 process that dies starts its first window low enough for both.
 */
module Anchor {
  import opened Stamps
  import opened Walk
  import opened Book
  import opened Delivery
  import opened Desk

  // the oldest stamp of the set's lines, from x down
  function LowestLine(lines: seq<Line>, r: nat, x: Stamp): (low: Stamp)
    ensures low <= x
    ensures forall l :: l in lines && l.set_ == r ==> low <= l.at
    ensures low == x || exists l :: l in lines && l.set_ == r && l.at == low
  {
    if lines == [] then x
    else
      var l := lines[|lines| - 1];
      assert lines == lines[..|lines| - 1] + [l];
      var low := LowestLine(lines[..|lines| - 1], r, x);
      if l.set_ == r && l.at < low then l.at else low
  }

  // what a save writes: the anchor, lowered to the floors our relay's entries owe and
  // to the oldest unconfirmed delivery
  function FileFor(anchor: Stamp, b: Ledger, own: seq<Key>, lines: seq<Line>, r: nat): Stamp {
    LowestLine(lines, r, b.LowestFrom(own, anchor))
  }

  // a file from a clock that ran ahead counts as the present
  function AnchorNow(v: Stamp, now: Stamp): Stamp { if v > now then now else v }

  // ---- saving ----

  class Runner {
    const own: seq<Key>
    const set_: nat
    const book: Keeper
    const desk: Inbox
    var lastSaved: Stamp
    // the last value written or read, -1 before the first
    var lastOnDisk: Stamp

    // file is what the file says, when there is one
    constructor (own: seq<Key>, set_: nat, book: Keeper, desk: Inbox, there: bool, file: Stamp, now: Stamp)
      ensures this.own == own && this.set_ == set_ && this.book == book && this.desk == desk
      ensures lastOnDisk == (if there then file else -1) && lastSaved == (if there then AnchorNow(file, now) else 0)
    {
      this.own, this.set_, this.book, this.desk := own, set_, book, desk;
      lastOnDisk := if there then file else -1;
      lastSaved := if there then AnchorNow(file, now) else 0;
    }

    // writes says whether the file can be written now
    method SaveLast(ts: Stamp, writes: bool)
      requires desk.inflight.Keys <= {desk.token}
      modifies this
      ensures lastSaved == if ts > old(lastSaved) then ts else old(lastSaved)
      ensures lastOnDisk == if writes then FileFor(lastSaved, book.View(), own, desk.inbox + Batch(desk.View()), set_) else old(lastOnDisk)
    {
      if ts > lastSaved { lastSaved := ts; }
      var disk := lastSaved;
      var f, held := book.Floor(own);
      if held && f < disk { disk := f; }
      assert disk == book.View().LowestFrom(own, lastSaved);
      ghost var owes := disk;
      var low, owed := desk.OwedFloor(set_);
      if owed && low < disk { disk := low; }
      assert disk == LowestLine(desk.inbox + Batch(desk.View()), set_, owes);
      if disk == lastOnDisk || !writes { return; }
      lastOnDisk := disk;
    }
  }

  // ---- after a crash ----

  // what a process knows of an address before our relay has connected
  datatype Process = Process(now: Stamp, anchor: Stamp, book: Ledger)

  // a new process: an empty book, the file's anchor, and every own entry held at it
  function Restarted(disk: Stamp, own: seq<Key>, now: Stamp): Process {
    var anchor := AnchorNow(disk, now);
    Process(now, anchor, EMPTY.Start(own, anchor, now))
  }

  // what other relays do meanwhile: their connections book nothing on our entries,
  // and what they bring raises the anchor
  datatype Other =
    | Wait(now: Stamp)
    | Raise(ts: Stamp)
    | Owe(c: Conn)
    | Cut(c: Conn, m: Mark)
    | KeepFirst(c: Conn, oldest: Stamp, top: Stamp)
    | Done(c: Conn, stepped: bool)
    | Refused(c: Conn)

  ghost predicate Outside(own: seq<Key>, o: Other) {
    (o.Wait? || o.Raise?) || (!o.c.own && o.c.key !in own)
  }

  function After(p: Process, o: Other): Process {
    match o
    case Wait(now) => p.(now := if now > p.now then now else p.now)
    case Raise(ts) => p.(anchor := if ts > p.anchor then ts else p.anchor)
    case Owe(c) => p.(book := p.book.Owe(c))
    case Cut(c, m) => p.(book := p.book.Cut(c, m))
    case KeepFirst(c, oldest, top) => p.(book := p.book.KeepFirst(c, oldest, top))
    case Done(c, stepped) => p.(book := p.book.Done(c, stepped))
    case Refused(c) => p.(book := p.book.Refused(c))
  }

  function AfterAll(p: Process, os: seq<Other>): Process {
    if os == [] then p else After(AfterAll(p, os[..|os| - 1]), os[|os| - 1])
  }

  lemma OtherKeeps(p: Process, own: seq<Key>, o: Other, k: Key)
    requires k in own && Outside(own, o)
    ensures After(p, o).book.HoldOf(k) == p.book.HoldOf(k)
  {
  }

  lemma {:induction false} OursStillHolds(p: Process, own: seq<Key>, os: seq<Other>, k: Key)
    requires k in own && forall o :: o in os ==> Outside(own, o)
    ensures AfterAll(p, os).book.HoldOf(k) == p.book.HoldOf(k)
  {
    if os != [] {
      assert os == os[..|os| - 1] + [os[|os| - 1]];
      OursStillHolds(p, own, os[..|os| - 1], k);
      OtherKeeps(AfterAll(p, os[..|os| - 1]), own, os[|os| - 1], k);
    }
  }

  /** After a crash that followed a save, whatever other relays do first, each entry of
      our relay opens its first window at or under all floors owed at the save, and at
      or under all deliveries that were unconfirmed then. */
  lemma CrashReachesBack(anchor: Stamp, b: Ledger, own: seq<Key>, lines: seq<Line>, r: nat,
                         now: Stamp, os: seq<Other>, k: Key)
    requires now > 0 && k in own && forall o :: o in os ==> Outside(own, o)
    ensures var p := AfterAll(Restarted(FileFor(anchor, b, own, lines, r), own, now), os);
            var base := p.book.Connect(k, own, AnchorNow(p.anchor, p.now), p.now).base;
            && base <= FileFor(anchor, b, own, lines, r) <= anchor
            && (forall j :: j in own && b.HoldOf(j).Held() ==> base <= b.HoldOf(j).floor)
            && (forall l :: l in lines && l.set_ == r ==> base <= l.at)
  {
    var p0 := Restarted(FileFor(anchor, b, own, lines, r), own, now);
    OursStillHolds(p0, own, os, k);
    StartHolds(EMPTY, own, p0.anchor, now, k);
  }
}
