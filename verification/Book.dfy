/**
 What each relay's walk owes the anchor (engine/catchup/hold.go) and the book that
 keeps it per relay and address (engine/catchup/book.go). The book is updated in
 place; each method is tied to a function on the book's value, over which the
 timing of whole runs is proved (CatchupRun).
 */
module Book {
  import opened Stamps
  import opened Walk

  type Key = string

  // a debt of one entry: until it is paid no window of the relay may open above floor;
  // began is the connect time of the walk that ran it up, 0 for no debt
  datatype Hold = Hold(floor: Stamp, began: Stamp) {
    predicate Held() { began > 0 }

    // the base of a window, given the anchor and this debt
    function From(anchor: Stamp): (base: Stamp)
      ensures base <= anchor && (Held() ==> base <= floor)
      ensures base == anchor || (Held() && base == floor)
    {
      if Held() && floor < anchor then floor else anchor
    }

    // every start of a runner owes from the file's anchor, or from lower if it did
    function Start(anchor: Stamp, now: Stamp): (h: Hold)
      ensures h.floor <= anchor && (Held() ==> h.floor <= floor && h.began == began)
    {
      if !Held() then Hold(anchor, now)
      else if anchor < floor then Hold(anchor, began)
      else this
    }

    // after a walk that was interrupted: a resumed one leaves the debt as it found it
    function Cut(from: Stamp, began': Stamp, resumed: bool): (h: Hold)
      ensures Held() ==> h.floor <= floor
      ensures resumed && Held() ==> h == this
    {
      if resumed && Held() then this
      else Hold(if Held() && floor < from then floor else from, began')
    }

    // after a complete walk: one that skipped ground still owes from its beginning
    function Done(stepped: bool): (h: Hold)
      ensures h.Held() <==> stepped && Held()
    {
      if !stepped || !Held() then NO_HOLD else Hold(MaxStamp(floor, began), began)
    }
  }

  const NO_HOLD := Hold(0, 0)

  // how often passes elsewhere cleared an entry, and the base of the last of them
  datatype Freed = Freed(n: nat, from: Stamp)

  // a connection's copy of the book's state, taken once at connect
  datatype Conn = Conn(key: Key, own: bool, twins: seq<Key>, resumed: bool, base: Stamp, owed: Hold, freed: nat)

  function Others(own: seq<Key>, key: Key): (r: seq<Key>)
    ensures forall k :: k in r <==> k in own && k != key
  {
    if own == [] then []
    else
      var last := own[|own| - 1];
      assert own == own[..|own| - 1] + [last];
      Others(own[..|own| - 1], key) + (if last == key then [] else [last])
  }

  // ---- the book as a value ----

  datatype Ledger = Ledger(marks: map<Key, Mark>, holds: map<Key, Hold>, freed: map<Key, Freed>) {
    // a missing entry reads as the zero value
    function MarkOf(k: Key): Mark { if k in marks then marks[k] else NO_MARK }
    function HoldOf(k: Key): Hold { if k in holds then holds[k] else NO_HOLD }
    function FreedOf(k: Key): Freed { if k in freed then freed[k] else Freed(0, 0) }

    function SetHold(k: Key, h: Hold): Ledger {
      this.(holds := if h.Held() then holds[k := h] else holds - {k})
    }

    // the lowest anchor any of keys owes, from anchor down
    function LowestFrom(keys: seq<Key>, anchor: Stamp): (base: Stamp)
      ensures base <= anchor
      ensures forall k :: k in keys && HoldOf(k).Held() ==> base <= HoldOf(k).floor
      ensures base == anchor || exists k :: k in keys && HoldOf(k).Held() && base == HoldOf(k).floor
    {
      if keys == [] then anchor
      else
        assert keys == keys[..|keys| - 1] + [keys[|keys| - 1]];
        HoldOf(keys[|keys| - 1]).From(LowestFrom(keys[..|keys| - 1], anchor))
    }

    function Connect(key: Key, own: seq<Key>, last: Stamp, now: Stamp): Conn {
      var resumed := MarkOf(key).Started();
      var twins := Others(own, key);
      if key !in own then Conn(key, false, twins, resumed, last, NO_HOLD, FreedOf(key).n)
      else
        var base := LowestFrom(twins, HoldOf(key).From(last));
        Conn(key, true, twins, resumed, base, HoldOf(key).Cut(base, now, resumed), FreedOf(key).n)
    }

    // since c's copy was taken a pass elsewhere went at least as low as c's debt
    predicate Covered(c: Conn) {
      FreedOf(c.key).n != c.freed && c.owed.floor >= FreedOf(c.key).from
    }

    function Owe(c: Conn): Ledger {
      if c.own && !Covered(c) then SetHold(c.key, c.owed) else this
    }

    function Cut(c: Conn, m: Mark): Ledger {
      if Covered(c) then this
      else
        var b := if m.Started() then this.(marks := marks[c.key := m]) else this;
        if c.own then b.SetHold(c.key, c.owed) else b
    }

    // the mark after a first answer cut short at oldest; the kept one stays when
    // a gap lies between
    function FirstMark(m: Mark, oldest: Stamp, top: Stamp): Mark {
      if !m.Started() then Mark(top, oldest)
      else if oldest <= m.top then Mark(top, if m.cursor < oldest then m.cursor else oldest)
      else m
    }

    function KeepFirst(c: Conn, oldest: Stamp, top: Stamp): Ledger {
      if oldest <= 0 || Covered(c) then this
      else
        var b := if c.own then SetHold(c.key, c.owed) else this;
        var m := MarkOf(c.key);
        if m.Started() && oldest > m.top then b
        else b.(marks := b.marks[c.key := FirstMark(m, oldest, top)])
    }

    // one other entry let go by a pass from base
    function Free(k: Key, base: Stamp): Ledger {
      var b := this.(freed := freed[k := Freed(FreedOf(k).n + 1, base)]);
      if HoldOf(k).Held() && HoldOf(k).floor >= base then b.(holds := holds - {k}, marks := marks - {k}) else b
    }

    function FreeAll(ks: seq<Key>, base: Stamp): Ledger {
      if ks == [] then this else FreeAll(ks[..|ks| - 1], base).Free(ks[|ks| - 1], base)
    }

    function Done(c: Conn, stepped: bool): Ledger {
      var b := this.(marks := marks - {c.key});
      if !c.own then b
      else b.SetHold(c.key, b.HoldOf(c.key).Done(stepped)).FreeAll(c.twins, c.base)
    }

    function Refused(c: Conn): Ledger {
      Ledger(marks - {c.key}, holds - {c.key}, freed[c.key := Freed(FreedOf(c.key).n + 1, 0)])
    }

    function Start(own: seq<Key>, anchor: Stamp, now: Stamp): Ledger {
      if own == [] then this
      else
        var b := Start(own[..|own| - 1], anchor, now);
        b.SetHold(own[|own| - 1], b.HoldOf(own[|own| - 1]).Start(anchor, now))
    }

    predicate AnyHeld(own: seq<Key>) { exists k :: k in own && HoldOf(k).Held() }
  }

  const EMPTY := Ledger(map[], map[], map[])

  /** A pass by another entry that went as low as c's debt: nothing c books afterwards
      changes the book, so what the pass cleared stays cleared. One that did not go as low
      leaves c's debt to be booked. */
  lemma PassElsewhereCovers(b: Ledger, pass: Conn, stepped: bool, c: Conn, m: Mark, oldest: Stamp, top: Stamp)
    requires pass.own && c.key in pass.twins && c.freed <= b.FreedOf(c.key).n
    ensures
      var b' := b.Done(pass, stepped);
      && (pass.base <= c.owed.floor ==> b'.Owe(c) == b' && b'.Cut(c, m) == b' && b'.KeepFirst(c, oldest, top) == b')
      && (pass.base > c.owed.floor && c.own && c.owed.Held() ==> b'.Owe(c).HoldOf(c.key) == b'.Cut(c, m).HoldOf(c.key) == c.owed)
  {
    var b1 := b.(marks := b.marks - {pass.key});
    FreeAllCounts(b1.SetHold(pass.key, b1.HoldOf(pass.key).Done(stepped)), pass.twins, pass.base, c.key);
  }

  /** With no pass elsewhere since c connected, what c books is in the book: its debt, the
      mark of a walk cut short, and the mark of a first answer cut short, joined to the
      one kept unless a gap lies between. No other entry changes. */
  lemma UncoveredIsBooked(b: Ledger, c: Conn, m: Mark, oldest: Stamp, top: Stamp, k: Key)
    requires b.FreedOf(c.key).n == c.freed
    ensures c.own && c.owed.Held() ==> b.Owe(c).HoldOf(c.key) == b.Cut(c, m).HoldOf(c.key) == c.owed
    ensures c.own && c.owed.Held() && oldest > 0 ==> b.KeepFirst(c, oldest, top).HoldOf(c.key) == c.owed
    ensures m.Started() ==> b.Cut(c, m).MarkOf(c.key) == m
    ensures oldest > 0 ==>
              var was, now := b.MarkOf(c.key), b.KeepFirst(c, oldest, top).MarkOf(c.key);
              && (!was.Started() ==> now == Mark(top, oldest))
              && (was.Started() && oldest > was.top ==> now == was)
              && (was.Started() && oldest <= was.top ==> now.top == top && now.cursor <= was.cursor && now.cursor <= oldest && (now.cursor == was.cursor || now.cursor == oldest))
    ensures k != c.key ==>
              && b.Owe(c).HoldOf(k) == b.Cut(c, m).HoldOf(k) == b.KeepFirst(c, oldest, top).HoldOf(k) == b.HoldOf(k)
              && b.Owe(c).MarkOf(k) == b.Cut(c, m).MarkOf(k) == b.KeepFirst(c, oldest, top).MarkOf(k) == b.MarkOf(k)
  {
  }

  /** A refused subscription owes nothing: its entry's debt and mark go, no other entry's
      do, and nothing a connection from before books on it afterwards changes the book. */
  lemma RefusedOwesNothing(b: Ledger, c: Conn, k: Key, late: Conn, m: Mark, oldest: Stamp, top: Stamp)
    ensures
      var b' := b.Refused(c);
      && b'.HoldOf(c.key) == NO_HOLD && b'.MarkOf(c.key) == NO_MARK
      && (k != c.key ==> b'.HoldOf(k) == b.HoldOf(k) && b'.MarkOf(k) == b.MarkOf(k))
      && (late.key == c.key && late.freed <= b.FreedOf(c.key).n && late.owed.floor >= 0 ==>
            b'.Owe(late) == b' && b'.Cut(late, m) == b' && b'.KeepFirst(late, oldest, top) == b')
  {
  }

  // a pass lets go of exactly the other entries that owed nothing below its base
  lemma {:induction false} FreeAllHolds(b: Ledger, ks: seq<Key>, base: Stamp, k: Key)
    ensures var h, h' := b.HoldOf(k), b.FreeAll(ks, base).HoldOf(k);
            h' == if k in ks && h.Held() && h.floor >= base then NO_HOLD else h
    ensures var m, m' := b.MarkOf(k), b.FreeAll(ks, base).MarkOf(k);
            m' == if k in ks && b.HoldOf(k).Held() && b.HoldOf(k).floor >= base then NO_MARK else m
  {
    if ks != [] {
      FreeAllHolds(b, ks[..|ks| - 1], base, k);
      assert ks == ks[..|ks| - 1] + [ks[|ks| - 1]];
    }
  }

  // and counts each of them, with the base it reached
  lemma {:induction false} FreeAllCounts(b: Ledger, ks: seq<Key>, base: Stamp, k: Key)
    ensures var f, f' := b.FreedOf(k), b.FreeAll(ks, base).FreedOf(k);
            if k in ks then f'.n > f.n && f'.from == base else f' == f
  {
    if ks != [] {
      FreeAllCounts(b, ks[..|ks| - 1], base, k);
      assert ks == ks[..|ks| - 1] + [ks[|ks| - 1]];
    }
  }

  // a runner's start holds every entry, at the file's anchor or lower, and keeps
  // when a walk already held began
  lemma {:induction false} StartHolds(b: Ledger, own: seq<Key>, anchor: Stamp, now: Stamp, k: Key)
    requires now > 0
    ensures var h, h' := b.HoldOf(k), b.Start(own, anchor, now).HoldOf(k);
            if k in own then h'.Held() && h'.floor <= anchor && h' == h.Start(anchor, now) else h' == h
    ensures b.Start(own, anchor, now).marks == b.marks
  {
    if own != [] {
      StartHolds(b, own[..|own| - 1], anchor, now, k);
      assert own == own[..|own| - 1] + [own[|own| - 1]];
    }
  }

  // ---- the book, updated in place ----

  class Keeper {
    var marks: map<Key, Mark>
    var holds: map<Key, Hold>
    var freed: map<Key, Freed>

    function View(): Ledger
      reads this
    {
      Ledger(marks, holds, freed)
    }

    constructor ()
      ensures View() == EMPTY
    {
      marks, holds, freed := map[], map[], map[];
    }

    method SetHold(k: Key, h: Hold)
      modifies this`holds
      ensures View() == old(View()).SetHold(k, h)
    {
      if h.Held() { holds := holds[k := h]; } else { holds := holds - {k}; }
    }

    // whether key is among own, and the others
    static method SplitOff(own: seq<Key>, key: Key) returns (mine: bool, twins: seq<Key>)
      ensures mine <==> key in own
      ensures twins == Others(own, key)
    {
      mine, twins := false, [];
      for i := 0 to |own|
        invariant mine <==> key in own[..i]
        invariant twins == Others(own[..i], key)
      {
        assert own[..i + 1][..i] == own[..i] && own[..i + 1] == own[..i] + [own[i]];
        if own[i] == key { mine := true; } else { twins := twins + [own[i]]; }
      }
      assert own[..|own|] == own;
    }

    method LowerTo(first: Stamp, twins: seq<Key>) returns (base: Stamp)
      ensures base == View().LowestFrom(twins, first)
    {
      base := first;
      for i := 0 to |twins|
        invariant base == View().LowestFrom(twins[..i], first)
      {
        assert twins[..i + 1][..i] == twins[..i];
        base := View().HoldOf(twins[i]).From(base);
      }
      assert twins[..|twins|] == twins;
    }

    method Connect(key: Key, own: seq<Key>, last: Stamp, now: Stamp) returns (c: Conn)
      ensures c == View().Connect(key, own, last, now)
    {
      var mine, twins := SplitOff(own, key);
      var resumed := View().MarkOf(key).Started();
      if !mine {
        return Conn(key, false, twins, resumed, last, NO_HOLD, View().FreedOf(key).n);
      }
      var base := LowerTo(View().HoldOf(key).From(last), twins);
      c := Conn(key, true, twins, resumed, base, View().HoldOf(key).Cut(base, now, resumed), View().FreedOf(key).n);
    }

    method Owe(c: Conn)
      modifies this`holds
      ensures View() == old(View()).Owe(c)
    {
      if c.own && !View().Covered(c) { SetHold(c.key, c.owed); }
    }

    method Cut(c: Conn, m: Mark)
      modifies this`holds, this`marks
      ensures View() == old(View()).Cut(c, m)
    {
      if View().Covered(c) { return; }
      if m.Started() { marks := marks[c.key := m]; }
      if c.own { SetHold(c.key, c.owed); }
    }

    method KeepFirst(c: Conn, oldest: Stamp, top: Stamp)
      modifies this`holds, this`marks
      ensures View() == old(View()).KeepFirst(c, oldest, top)
    {
      if oldest <= 0 || View().Covered(c) { return; }
      if c.own { SetHold(c.key, c.owed); }
      var m := View().MarkOf(c.key);
      if !m.Started() {
        m := Mark(top, oldest);
      } else if oldest <= m.top {
        m := Mark(top, if m.cursor < oldest then m.cursor else oldest);
      } else {
        return;
      }
      marks := marks[c.key := m];
    }

    method Done(c: Conn, stepped: bool)
      modifies this
      ensures View() == old(View()).Done(c, stepped)
    {
      marks := marks - {c.key};
      if !c.own { return; }
      SetHold(c.key, View().HoldOf(c.key).Done(stepped));
      ghost var b := View();
      for i := 0 to |c.twins|
        invariant View() == b.FreeAll(c.twins[..i], c.base)
      {
        assert c.twins[..i + 1][..i] == c.twins[..i];
        var k := c.twins[i];
        freed := freed[k := Freed(View().FreedOf(k).n + 1, c.base)];
        var h := View().HoldOf(k);
        if h.Held() && h.floor >= c.base {
          holds := holds - {k};
          marks := marks - {k};
        }
      }
      assert c.twins[..|c.twins|] == c.twins;
    }

    method Refused(c: Conn)
      modifies this
      ensures View() == old(View()).Refused(c)
    {
      marks := marks - {c.key};
      holds := holds - {c.key};
      freed := freed[c.key := Freed(View().FreedOf(c.key).n + 1, 0)];
    }

    method Start(own: seq<Key>, anchor: Stamp, now: Stamp)
      modifies this`holds
      ensures View() == old(View()).Start(own, anchor, now)
    {
      for i := 0 to |own|
        invariant View() == old(View()).Start(own[..i], anchor, now)
      {
        assert own[..i + 1][..i] == own[..i];
        SetHold(own[i], View().HoldOf(own[i]).Start(anchor, now));
      }
      assert own[..|own|] == own;
    }

    // the least floor among the entries with a debt
    method Floor(own: seq<Key>) returns (low: Stamp, held: bool)
      ensures held <==> View().AnyHeld(own)
      ensures held ==> exists k :: k in own && View().HoldOf(k).Held() && View().HoldOf(k).floor == low
      ensures forall k :: k in own && View().HoldOf(k).Held() ==> low <= View().HoldOf(k).floor
    {
      low, held := 0, false;
      for i := 0 to |own|
        invariant held <==> exists j :: 0 <= j < i && View().HoldOf(own[j]).Held()
        invariant held ==> exists j :: 0 <= j < i && View().HoldOf(own[j]).Held() && View().HoldOf(own[j]).floor == low
        invariant forall j :: 0 <= j < i && View().HoldOf(own[j]).Held() ==> low <= View().HoldOf(own[j]).floor
      {
        var h := View().HoldOf(own[i]);
        if h.Held() && (!held || h.floor < low) {
          low, held := h.floor, true;
        }
      }
    }
  }
}
