/**
 The pin table (engine/pin.go) with ideal cryptography: a label is told apart by pin,
 purpose and index, a sealed box opens with the key that sealed it alone, and random
 bytes match and open nothing.
 */
module Pin {
  import opened Wrappers

  const ENTRIES := 16
  const ENTRIES_V1 := 8
  const CONTAINER_LEN := 16
  const KEY_LEN := 32

  type Code = seq<char>

  datatype Tag = Label(pin: Code, index: nat) | NoTag
  datatype Box<T> = Sealed(pin: Code, index: nat, value: T) | Noise
  datatype Meta = Meta(kind: int, container: string)

  datatype Entry = Entry(tag: Tag, seal: Box<Meta>, wrap: Box<string>)

  const RANDOM := Entry(NoTag, Noise, Noise)

  // a v1 table has eight entries and no wraps, a v2 table sixteen with one each
  datatype Table = Table(v: int, entries: seq<Entry>)

  // the pins behind the checks from before the table, if any
  datatype Legacy = Legacy(app: Option<Code>, wipe: Option<Code>)

  // what a pin opens: which entry, what, and the key it wraps
  datatype Opens = Opens(index: nat, kind: int, container: string, key: Option<string>)

  datatype Outcome = Done(t: Table) | BadSetup | BadTable | Collision | Wrong | NothingWrapped

  // ---- the operations ----

  predicate Shaped(t: Table) { (t.v == 1 && |t.entries| == ENTRIES_V1) || (t.v == 2 && |t.entries| == ENTRIES) }

  // eight entries become sixteen: the old ones get noise for a wrap, the rest is noise
  function Upgrade(t: Table): (r: Table)
    requires Shaped(t)
    ensures Shaped(r) && r.v == 2
  {
    if t.v == 2 then t
    else Table(2, seq(ENTRIES, i requires 0 <= i < ENTRIES => if i < ENTRIES_V1 then t.entries[i].(wrap := Noise) else RANDOM))
  }

  function Open<T>(box: Box<T>, pin: Code, i: nat): Option<T> {
    if box.Sealed? && box.pin == pin && box.index == i then Some(box.value) else None
  }

  predicate LegacyMatch(pin: Code, old_: Legacy) { old_.app == Some(pin) || old_.wipe == Some(pin) }

  // taken already: by some entry besides index, or by one of the two legacy checks
  predicate Clashes(t: Table, pin: Code, index: nat, old_: Legacy)
    requires Shaped(t) && t.v == 2
  {
    (exists i :: 0 <= i < ENTRIES && i != index && t.entries[i].tag == Label(pin, i)) || LegacyMatch(pin, old_)
  }

  function SealEntry(pin: Code, i: nat, meta: Meta, key: Option<string>): Entry {
    Entry(Label(pin, i), Sealed(pin, i, meta), if key.Some? then Sealed(pin, i, key.value) else Noise)
  }

  predicate GoodSetup(index: int, kind: int, container: string, key: Option<string>) {
    0 <= index < ENTRIES && 1 <= kind <= 255 && |container| == CONTAINER_LEN && (key.Some? ==> |key.value| == KEY_LEN)
  }

  function Setup(t: Table, pin: Code, old_: Legacy, index: int, kind: int, container: string, key: Option<string>): Outcome {
    if !GoodSetup(index, kind, container, key) then BadSetup
    else if !Shaped(t) then BadTable
    else if Clashes(Upgrade(t), pin, index, old_) then Collision
    else Done(Upgrade(t).(entries := Upgrade(t).entries[index := SealEntry(pin, index, Meta(kind, container), key)]))
  }

  function Rewrap(t: Table, oldPin: Code, newPin: Code, old_: Legacy, index: int): Outcome {
    if !(0 <= index < ENTRIES) then BadSetup
    else if !Shaped(t) then BadTable
    else
      var up := Upgrade(t);
      var e := up.entries[index];
      if e.tag != Label(oldPin, index) then Wrong
      else
        var meta, key := Open(e.seal, oldPin, index), Open(e.wrap, oldPin, index);
        if meta.None? || key.None? then NothingWrapped
        else if Clashes(up, newPin, index, old_) then Collision
        else Done(up.(entries := up.entries[index := SealEntry(newPin, index, meta.value, key)]))
  }

  function Clear(t: Table, index: int): Outcome {
    if !Shaped(t) then BadTable
    else if !(0 <= index < ENTRIES) then BadSetup
    else Done(Upgrade(t).(entries := Upgrade(t).entries[index := RANDOM]))
  }

  // ---- the map a table stands for ----

  // a tag comes with its record and, if any, its wrap under the same pin and index, and
  // no pin has two tags
  ghost predicate EntryOK(e: Entry, i: nat) {
    e.tag.Label? ==>
      && e.tag.index == i && e.seal.Sealed? && e.seal.pin == e.tag.pin && e.seal.index == i
      && (e.wrap.Sealed? ==> e.wrap.pin == e.tag.pin && e.wrap.index == i)
  }

  ghost predicate Inv(t: Table) {
    && Shaped(t) && (forall i :: 0 <= i < |t.entries| ==> EntryOK(t.entries[i], i))
    && (forall i, j :: 0 <= i < j < |t.entries| && t.entries[i].tag.Label? && t.entries[j].tag.Label? ==>
          t.entries[i].tag.pin != t.entries[j].tag.pin)
    && (t.v == 1 ==> forall i :: 0 <= i < |t.entries| ==> t.entries[i].wrap == Noise)
  }

  function What(e: Entry, i: nat): Opens
    requires e.seal.Sealed?
  {
    Opens(i, e.seal.value.kind, e.seal.value.container, if e.wrap.Sealed? then Some(e.wrap.value) else None)
  }

  ghost predicate OpensWith(t: Table, pin: Code, o: Opens) {
    o.index < |t.entries| && t.entries[o.index].tag == Label(pin, o.index) && t.entries[o.index].seal.Sealed? && o == What(t.entries[o.index], o.index)
  }

  // m says exactly what each pin opens
  ghost predicate Means(t: Table, m: map<Code, Opens>) { forall pin, o :: OpensWith(t, pin, o) <==> pin in m && m[pin] == o }

  // the specification: the same operations on the map
  function Without(m: map<Code, Opens>, index: nat): map<Code, Opens> { map p | p in m && m[p].index != index :: m[p] }

  // ---- each operation on the table is the one on the map ----

  lemma OpensOne(t: Table, pin: Code, a: Opens, b: Opens)
    requires Inv(t) && OpensWith(t, pin, a) && OpensWith(t, pin, b)
    ensures a == b
  {}

  // a v1 table opens the same before and after
  lemma UpgradeSame(t: Table, m: map<Code, Opens>)
    requires Inv(t) && Means(t, m)
    ensures Inv(Upgrade(t)) && Means(Upgrade(t), m)
  {
    var up := Upgrade(t);
    forall pin, o ensures OpensWith(up, pin, o) <==> OpensWith(t, pin, o) {}
  }

  // an entry replaced: the pins of the others open what they did
  lemma ReplaceMeans(t: Table, m: map<Code, Opens>, index: nat, e: Entry)
    requires Inv(t) && t.v == 2 && Means(t, m) && index < ENTRIES && EntryOK(e, index)
    requires e.tag.Label? ==> forall i :: 0 <= i < ENTRIES && i != index ==> t.entries[i].tag != Label(e.tag.pin, i)
    ensures
      var t' := t.(entries := t.entries[index := e]);
      Inv(t') && Means(t', if e.tag.Label? then Without(m, index)[e.tag.pin := What(e, index)] else Without(m, index))
  {
    var t' := t.(entries := t.entries[index := e]);
    var m' := if e.tag.Label? then Without(m, index)[e.tag.pin := What(e, index)] else Without(m, index);
    forall i, j | 0 <= i < j < ENTRIES && t'.entries[i].tag.Label? && t'.entries[j].tag.Label?
      ensures t'.entries[i].tag.pin != t'.entries[j].tag.pin
    {
      assert EntryOK(t.entries[i], i) && EntryOK(t.entries[j], j);
    }
    forall pin, o ensures OpensWith(t', pin, o) <==> pin in m' && m'[pin] == o {
      assert OpensWith(t, pin, o) <==> pin in m && m[pin] == o;
      assert pin in m ==> OpensWith(t, pin, m[pin]);
    }
  }

  lemma ClashMeans(t: Table, m: map<Code, Opens>, pin: Code, index: nat, old_: Legacy)
    requires Inv(t) && t.v == 2 && Means(t, m)
    ensures Clashes(t, pin, index, old_) <==> (pin in m && m[pin].index != index) || LegacyMatch(pin, old_)
  {
    if i :| 0 <= i < ENTRIES && i != index && t.entries[i].tag == Label(pin, i) {
      assert EntryOK(t.entries[i], i);
      assert OpensWith(t, pin, What(t.entries[i], i));
    }
    if pin in m { assert OpensWith(t, pin, m[pin]); }
  }

  // ---- runs ----

  datatype Op =
    | Sets(pin: Code, old_: Legacy, index: int, kind: int, container: string, key: Option<string>)
    | Rewraps(oldPin: Code, newPin: Code, old_: Legacy, index: int)
    | Clears(index: int)
    | Upgrades

  // what is refused changes nothing
  function Next(t: Table, op: Op): Table
    requires Shaped(t)
  {
    match op
    case Sets(pin, old_, index, kind, container, key) =>
      var r := Setup(t, pin, old_, index, kind, container, key);
      if r.Done? then r.t else t
    case Rewraps(oldPin, newPin, old_, index) =>
      var r := Rewrap(t, oldPin, newPin, old_, index);
      if r.Done? then r.t else t
    case Clears(index) =>
      var r := Clear(t, index);
      if r.Done? then r.t else t
    case Upgrades => Upgrade(t)
  }

  // pin opens another entry already, or is one of the two codes from before the table
  predicate Barred(m: map<Code, Opens>, pin: Code, index: int, old_: Legacy) {
    (pin in m && m[pin].index != index) || old_.app == Some(pin) || old_.wipe == Some(pin)
  }

  // one of sixteen entries, a kind in one byte, a container's name of sixteen and a key,
  // if any, of thirty-two bytes
  predicate Storable(o: Opens, index: int) {
    o.index == index < 16 && 0 < o.kind < 256 && |o.container| == 16 && (o.key == None || |o.key.value| == 32)
  }

  // the same on the map alone: an entry is set, its contents move to another pin, or it
  // goes, and no other pin is touched
  function Spec(m: map<Code, Opens>, op: Op): map<Code, Opens> {
    match op
    case Sets(pin, old_, index, kind, container, key) =>
      if index < 0 || !Storable(Opens(index, kind, container, key), index) || Barred(m, pin, index, old_) then m
      else Without(m, index)[pin := Opens(index, kind, container, key)]
    case Rewraps(oldPin, newPin, old_, index) =>
      if index < 0 || oldPin !in m || m[oldPin].index != index || m[oldPin].key.None? || Barred(m, newPin, index, old_) then m
      else Without(m, index)[newPin := m[oldPin]]
    case Clears(index) => if 0 <= index < ENTRIES then Without(m, index) else m
    case Upgrades => m
  }

  lemma SetsRefines(t: Table, m: map<Code, Opens>, op: Op)
    requires Inv(t) && Means(t, m) && op.Sets?
    ensures Inv(Next(t, op)) && Means(Next(t, op), Spec(m, op))
  {
    if GoodSetup(op.index, op.kind, op.container, op.key) {
      UpgradeSame(t, m);
      ClashMeans(Upgrade(t), m, op.pin, op.index, op.old_);
      if !Barred(m, op.pin, op.index, op.old_) {
        ReplaceMeans(Upgrade(t), m, op.index, SealEntry(op.pin, op.index, Meta(op.kind, op.container), op.key));
      }
    }
  }

  /** How a setup ends: refused for what it cannot store, refused for a pin that is taken,
      and done otherwise, after which the pin opens what was set. */
  lemma SetupEnds(t: Table, m: map<Code, Opens>, pin: Code, old_: Legacy, index: int, kind: int, container: string, key: Option<string>)
    requires Inv(t) && Means(t, m)
    ensures
      var r := Setup(t, pin, old_, index, kind, container, key);
      if index < 0 || !Storable(Opens(index, kind, container, key), index) then r == BadSetup
      else if Barred(m, pin, index, old_) then r == Collision
      else r.Done? && Means(r.t, Without(m, index)[pin := Opens(index, kind, container, key)])
  {
    if 0 <= index && Storable(Opens(index, kind, container, key), index) {
      SetsRefines(t, m, Sets(pin, old_, index, kind, container, key));
      UpgradeSame(t, m);
      ClashMeans(Upgrade(t), m, pin, index, old_);
    }
  }

  lemma RewrapsRefines(t: Table, m: map<Code, Opens>, op: Op)
    requires Inv(t) && Means(t, m) && op.Rewraps?
    ensures Inv(Next(t, op)) && Means(Next(t, op), Spec(m, op))
  {
    if 0 <= op.index < ENTRIES {
      var up := Upgrade(t);
      UpgradeSame(t, m);
      ClashMeans(up, m, op.newPin, op.index, op.old_);
      var e := up.entries[op.index];
      assert EntryOK(e, op.index);
      if e.tag == Label(op.oldPin, op.index) {
        assert OpensWith(up, op.oldPin, What(e, op.index));
        if e.wrap.Sealed? && !Barred(m, op.newPin, op.index, op.old_) {
          ReplaceMeans(up, m, op.index, SealEntry(op.newPin, op.index, e.seal.value, Some(e.wrap.value)));
        }
      } else if op.oldPin in m {
        assert OpensWith(up, op.oldPin, m[op.oldPin]);
      }
    } else if op.oldPin in m {
      assert OpensWith(t, op.oldPin, m[op.oldPin]);
    }
  }

  lemma NextRefines(t: Table, m: map<Code, Opens>, op: Op)
    requires Inv(t) && Means(t, m)
    ensures Inv(Next(t, op)) && Means(Next(t, op), Spec(m, op))
  {
    UpgradeSame(t, m);
    match op
    case Sets(_, _, _, _, _, _) => SetsRefines(t, m, op);
    case Rewraps(_, _, _, _) => RewrapsRefines(t, m, op);
    case Clears(index) => if 0 <= index < ENTRIES { ReplaceMeans(Upgrade(t), m, index, RANDOM); }
    case Upgrades =>
  }

  ghost function Run(t: Table, ops: seq<Op>): Table
    requires Shaped(t)
    decreases |ops|
  {
    if ops == [] then t else Run(Next(t, ops[0]), ops[1..])
  }

  function SpecRun(m: map<Code, Opens>, ops: seq<Op>): map<Code, Opens>
    decreases |ops|
  {
    if ops == [] then m else SpecRun(Spec(m, ops[0]), ops[1..])
  }

  // over any run the table refines the map
  lemma {:induction false} RunRefines(t: Table, m: map<Code, Opens>, ops: seq<Op>)
    requires Inv(t) && Means(t, m)
    ensures Inv(Run(t, ops)) && Means(Run(t, ops), SpecRun(m, ops))
    decreases |ops|
  {
    if ops != [] {
      NextRefines(t, m, ops[0]);
      RunRefines(Next(t, ops[0]), Spec(m, ops[0]), ops[1..]);
    }
  }

  // a fresh table opens nothing
  lemma NewTableMeans()
    ensures
      var t := Table(2, seq(ENTRIES, i => RANDOM));
      Inv(t) && Means(t, map[])
  {}

  // ---- the loops over the entries ----

  // every tag is compared, and one record and one wrap are opened whatever matched
  method PinCheck(pin: Code, t: Table, old_: Legacy) returns (r: Option<Opens>, legacyApp: bool, legacyWipe: bool)
    requires Inv(t)
    ensures r.Some? ==> OpensWith(Upgrade(t), pin, r.value)
    ensures r.None? ==> forall o :: !OpensWith(Upgrade(t), pin, o)
    ensures (legacyApp <==> old_.app == Some(pin)) && (legacyWipe <==> old_.wipe == Some(pin))
  {
    var up := Upgrade(t);
    var found, any := -1, false;
    for i := 0 to ENTRIES
      invariant any <==> found >= 0
      invariant -1 <= found < i && (found >= 0 ==> up.entries[found].tag == Label(pin, found))
      invariant forall k :: 0 <= k < i && up.entries[k].tag == Label(pin, k) ==> any && k <= found
    {
      var eq := up.entries[i].tag == Label(pin, i);
      if eq { found := i; }
      any := any || eq;
    }
    var at := if any then found else 0;
    var meta, key := Open(up.entries[at].seal, pin, at), Open(up.entries[at].wrap, pin, at);
    legacyApp, legacyWipe := old_.app == Some(pin), old_.wipe == Some(pin);
    r := None;
    EntryStays(t, at);
    if any && meta.Some? { r := Some(Opens(at, meta.value.kind, meta.value.container, key)); }
  }

  lemma EntryStays(t: Table, i: nat)
    requires Inv(t) && i < ENTRIES
    ensures EntryOK(Upgrade(t).entries[i], i)
  {}

  method PinClashes(t: Table, pin: Code, index: nat, old_: Legacy) returns (clash: bool)
    requires Shaped(t) && t.v == 2
    ensures clash == Clashes(t, pin, index, old_)
  {
    clash := false;
    for i := 0 to ENTRIES
      invariant clash <==> exists k :: 0 <= k < i && k != index && t.entries[k].tag == Label(pin, k)
    {
      if i != index && t.entries[i].tag == Label(pin, i) { clash := true; }
    }
    if old_.app == Some(pin) { clash := true; }
    if old_.wipe == Some(pin) { clash := true; }
  }
}
