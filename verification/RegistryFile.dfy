/**
 The registry's file (server/handle/main.go): changes under one lock, writes under
 another, and several changes in one write.
 */
module RegistryFile {
  import Registry

  type Names = map<string, Registry.Entry>

  // an update after its change: it waits for the write lock, holds it, has a snapshot to
  // write, and has answered
  datatype Update = Waits(gen: nat, failed: bool) | Locked(gen: nat, failed: bool) | Writes(gen: nat, failed: bool, snap: Names, at: nat) | Answered(gen: nat, ok: bool)

  // past is the map after each change, and fileAt which of them the file holds
  datatype Store = Store(m: Names, gen: nat, saved: nat, writer: set<nat>, file: Names, fileAt: nat, past: seq<Names>, updates: map<nat, Update>)

  function Loaded(m: Names): Store { Store(m, 0, 0, {}, m, 0, [m], map[]) }

  datatype Event =
    | Changes(id: nat, m: Names, changed: bool, failed: bool)
    | Locks(id: nat)
    | Snaps(id: nat)
    | Ends(id: nat, replaced: bool, ok: bool)

  // a new update, one waiting while nobody writes, the one with the lock, and the one
  // that writes. A write that went well has put the snapshot in the file's place
  predicate CanStep(s: Store, e: Event) {
    match e
    case Changes(id, m, changed, failed) => id !in s.updates && (!changed ==> m == s.m)
    case Locks(id) => id in s.updates && s.updates[id].Waits? && s.writer == {}
    case Snaps(id) => id in s.updates && s.updates[id].Locked?
    case Ends(id, replaced, ok) => id in s.updates && s.updates[id].Writes? && (ok ==> replaced)
  }

  function To(s: Store, id: nat, u: Update): Store { s.(updates := s.updates[id := u]) }

  function Next(s: Store, e: Event): Store
    requires CanStep(s, e)
  {
    match e
    case Changes(id, m, changed, failed) =>
      var s1 := if changed then s.(m := m, gen := s.gen + 1, past := s.past + [m]) else s;
      // refused with nothing changed: answered at once
      To(s1, id, if failed && !changed then Answered(s1.gen, false) else Waits(s1.gen, failed))
    case Locks(id) =>
      var u := s.updates[id];
      if s.saved >= u.gen then To(s, id, Answered(u.gen, !u.failed)) else To(s, id, Locked(u.gen, u.failed)).(writer := {id})
    case Snaps(id) =>
      var u := s.updates[id];
      To(s, id, Writes(u.gen, u.failed, s.m, s.gen))
    case Ends(id, replaced, ok) =>
      var u := s.updates[id];
      var s1 := if replaced then s.(file := u.snap, fileAt := u.at) else s;
      var s2 := if ok then s1.(saved := u.at) else s1;
      To(s2, id, Answered(u.gen, ok && !u.failed)).(writer := {})
  }

  predicate IsRun(s: Store, run: seq<Event>)
    decreases |run|
  {
    run != [] ==> CanStep(s, run[0]) && IsRun(Next(s, run[0]), run[1..])
  }

  function Run(s: Store, run: seq<Event>): Store
    requires IsRun(s, run)
    decreases |run|
  {
    if run == [] then s else Run(Next(s, run[0]), run[1..])
  }

  // ---- what every run keeps ----

  ghost predicate UpdateOK(s: Store, id: nat, u: Update) {
    && u.gen <= s.gen
    && (u.Locked? || u.Writes? <==> id in s.writer) && (id in s.writer ==> s.saved < u.gen)
    && (u.Writes? ==> u.gen <= u.at <= s.gen < |s.past| && s.fileAt <= u.at && u.snap == s.past[u.at])
    && (u.Answered? && u.ok ==> u.gen <= s.saved)
  }

  ghost predicate Inv(s: Store) {
    && |s.past| == s.gen + 1 && s.past[s.gen] == s.m
    && s.saved <= s.fileAt <= s.gen && s.file == s.past[s.fileAt]
    && |s.writer| <= 1 && s.writer <= s.updates.Keys
    && (forall id :: id in s.updates ==> UpdateOK(s, id, s.updates[id]))
  }

  // one step on, the file holds no older state than before
  lemma NextKeeps(s: Store, e: Event)
    requires Inv(s) && CanStep(s, e)
    ensures Inv(Next(s, e)) && s.fileAt <= Next(s, e).fileAt && s.past <= Next(s, e).past
  {
    var s' := Next(s, e);
    forall id | id in s'.updates ensures UpdateOK(s', id, s'.updates[id]) {
      if id in s.updates { assert UpdateOK(s, id, s.updates[id]); }
      if e.Ends? && e.id in s.writer && id in s.writer { OnlyWriter(s, e.id, id); }
    }
    if e.Ends? { assert UpdateOK(s, e.id, s.updates[e.id]); }
  }

  /** When an update is answered, and how: at once, and not ok, when it was refused with
      nothing changed; else only once the file holds its change or its own write ended, and
      then ok exactly when it was not refused and its change is saved. */
  lemma AnsweredExactlyWhen(s: Store, e: Event, id: nat)
    requires Inv(s) && CanStep(s, e)
    ensures
      var s' := Next(s, e);
      && (e.Changes? ==>
            && s'.m == e.m && s'.gen == s.gen + (if e.changed then 1 else 0) && e.id in s'.updates && s'.updates[e.id].gen == s'.gen
            && (s'.updates[e.id].Answered? <==> e.failed && !e.changed) && (s'.updates[e.id].Answered? ==> !s'.updates[e.id].ok))
      && (id in s.updates && !s.updates[id].Answered? ==>
            && id in s'.updates && s'.updates[id].gen == s.updates[id].gen
            && (s'.updates[id].Answered? <==> (e == Locks(id) && s.saved >= s.updates[id].gen) || (e.Ends? && e.id == id))
            && (s'.updates[id].Answered? ==> (s'.updates[id].ok <==> !s.updates[id].failed && s.updates[id].gen <= s'.saved)))
  {
    if id in s.updates { assert UpdateOK(s, id, s.updates[id]); }
  }

  lemma OnlyWriter(s: Store, a: nat, b: nat)
    requires Inv(s) && a in s.writer && b in s.writer
    ensures a == b
  {
    if a != b { assert {a, b} <= s.writer; CardTwo(s.writer, a, b); }
  }

  lemma CardTwo(s: set<nat>, a: nat, b: nat)
    requires a in s && b in s && a != b
    ensures |s| >= 2
  {
    assert |s - {a}| == |s| - 1 && b in s - {a};
  }

  lemma {:induction false} RunKeeps(s: Store, run: seq<Event>)
    requires Inv(s) && IsRun(s, run)
    ensures Inv(Run(s, run)) && s.fileAt <= Run(s, run).fileAt && s.past <= Run(s, run).past
    decreases |run|
  {
    if run != [] {
      NextKeeps(s, run[0]);
      RunKeeps(Next(s, run[0]), run[1..]);
    }
  }

  // under any interleaving the file is exactly one past state of the map, and an update
  // that answered ok is in it: the state it holds is that change's or a later one's
  lemma FileIsAPastState(m: Names, run: seq<Event>, id: nat)
    requires IsRun(Loaded(m), run) && id in Run(Loaded(m), run).updates
    ensures
      var s := Run(Loaded(m), run);
      && s.fileAt < |s.past| && s.file == s.past[s.fileAt] && s.past[|s.past| - 1] == s.m
      && (s.updates[id].Answered? && s.updates[id].ok ==> s.updates[id].gen <= s.fileAt)
  {
    RunKeeps(Loaded(m), run);
    assert UpdateOK(Run(Loaded(m), run), id, Run(Loaded(m), run).updates[id]);
  }

  // and it stays in it, whatever follows: the file never goes back
  lemma FileNeverGoesBack(s: Store, run: seq<Event>)
    requires Inv(s) && IsRun(s, run)
    ensures s.fileAt <= Run(s, run).fileAt && s.past <= Run(s, run).past
  {
    RunKeeps(s, run);
  }
}
