/**
 The handle registry (server/handle/main.go): what a signed claim or release does to a
 handle, and that signed times never go back.
 */
module Registry {
  import opened Wrappers

  const SKEW := 600
  const MAX_HANDLES := 100000

  // signedAt is the time on the last v2 claim, 0 for none
  datatype Entry = Entry(pubkey: string, invite: string, bio: string, signedAt: int, listed: bool, name: string, listedAt: int, claimedAt: int)

  datatype Claim = Claim(pubkey: string, invite: string, bio: string, v2: bool, ts: int)

  datatype Answer = Fine | HandleTaken | UpdateApp | Older | Full | SlowDown | NotYours | BadSignature(why: string)

  // ---- one handle under the store's lock ----

  // the answer, and the entry to write if any. gone is the signed time of a release still
  // remembered for the handle, 0 without one
  function ClaimIt(was: Option<Entry>, gone: int, count: nat, room: bool, c: Claim, now: int): (Answer, Option<Entry>) {
    match was
    case Some(e) =>
      if e.pubkey != c.pubkey then (HandleTaken, None)
      else if e.signedAt > 0 && !c.v2 then (UpdateApp, None)
      else if c.v2 && c.ts < e.signedAt then (Older, None)
      else if e.invite == c.invite && e.bio == c.bio && (!c.v2 || e.signedAt > 0) then (Fine, None)
      else (Fine, Some(e.(invite := c.invite, bio := c.bio, signedAt := if c.v2 then c.ts else e.signedAt, claimedAt := now)))
    case None =>
      if gone > 0 && (!c.v2 || c.ts <= gone) then (Older, None)
      else if count >= MAX_HANDLES then (Full, None)
      else if !room then (SlowDown, None)
      else (Fine, Some(Entry(c.pubkey, c.invite, c.bio, if c.v2 then c.ts else 0, false, "", 0, now)))
  }

  // why is what the signature check said, "" for nothing wrong
  function ReleaseIt(was: Option<Entry>, pubkey: string, v2: bool, ts: int, why: string): (Answer, bool) {
    match was
    case None => (Fine, false)
    case Some(e) =>
      if why == "signature does not match" || e.pubkey != pubkey then (NotYours, false)
      else if why != "" then (BadSignature(why), false)
      else if e.signedAt > 0 && !v2 then (UpdateApp, false)
      else if v2 && ts < e.signedAt then (Older, false)
      else (Fine, true)
  }

  // past the clock window no claim from before a release is taken anyway
  function Pruned(gone: map<string, int>, now: int): map<string, int> { map h | h in gone && gone[h] >= now - 2 * SKEW :: gone[h] }

  // ---- the store's two maps ----

  datatype Book = Book(m: map<string, Entry>, gone: map<string, int>)

  function Find(m: map<string, Entry>, h: string): Option<Entry> { if h in m then Some(m[h]) else None }

  function GoneAt(b: Book, h: string): int { if h in b.gone then b.gone[h] else 0 }

  datatype Event =
    | Claims(h: string, c: Claim, room: bool, checked: int, now: int)
    | Releases(h: string, pubkey: string, v2: bool, ts: int, why: string, checked: int, now: int)

  // a v1 release counts from when it came
  function ReleaseTime(e: Event): int
    requires e.Releases?
  {
    if e.v2 then e.ts else e.checked
  }

  function Next(b: Book, e: Event): Book {
    match e
    case Claims(h, c, room, _, now) =>
      var (_, entry) := ClaimIt(Find(b.m, h), GoneAt(b, h), |b.m|, room, c, now);
      if entry.Some? then b.(m := b.m[h := entry.value]) else b
    case Releases(h, pubkey, v2, _, why, _, now) =>
      if ReleaseIt(Find(b.m, h), pubkey, v2, ReleaseTime(e), why).1 then
        Book(b.m - {h}, Pruned(b.gone, now)[h := ReleaseTime(e)])
      else b
  }

  function AnswerOf(b: Book, e: Event): Answer {
    match e
    case Claims(h, c, room, _, now) => ClaimIt(Find(b.m, h), GoneAt(b, h), |b.m|, room, c, now).0
    case Releases(h, pubkey, v2, _, why, _, _) => ReleaseIt(Find(b.m, h), pubkey, v2, ReleaseTime(e), why).0
  }

  // ---- whose a handle is ----

  // a release of h by the holder of key, with nothing wrong in its signature
  predicate GivesUp(e: Event, h: string, key: string) { e.Releases? && e.h == h && e.pubkey == key && e.why == "" }

  /** What one event can do to handle h. While there is an entry its key and its place in
      search stay, and its signed time does not go back; it goes only by a release of its
      own key, taken and remembered; a new one is the claimant's. Other handles are not
      touched, and a refusal changes nothing. */
  lemma OwnerStays(b: Book, e: Event, h: string)
    ensures
      var b' := Next(b, e);
      && (h in b.m && h in b'.m ==>
            && b'.m[h].pubkey == b.m[h].pubkey && b'.m[h].signedAt >= b.m[h].signedAt
            && b'.m[h].listed == b.m[h].listed && b'.m[h].name == b.m[h].name && b'.m[h].listedAt == b.m[h].listedAt)
      && (h in b.m && h !in b'.m ==> GivesUp(e, h, b.m[h].pubkey) && AnswerOf(b, e) == Fine && GoneAt(b', h) == ReleaseTime(e))
      && (h !in b.m && h in b'.m ==> e.Claims? && e.h == h && b'.m[h].pubkey == e.c.pubkey && !b'.m[h].listed)
      && (e.h != h ==> Find(b'.m, h) == Find(b.m, h))
      && (AnswerOf(b, e) != Fine ==> b' == b)
  {
  }

  /** A claim is taken exactly when the handle is its key's already, or free with no newer
      release remembered, the registry not full and new names let in; where a v2 time was
      signed before only a v2 claim no older is. It then shows what was claimed. */
  lemma ClaimFineExactlyWhen(b: Book, h: string, c: Claim, room: bool, checked: int, now: int)
    ensures
      var e := Claims(h, c, room, checked, now);
      var b' := Next(b, e);
      && (AnswerOf(b, e) == Fine <==>
            if h in b.m then b.m[h].pubkey == c.pubkey && (b.m[h].signedAt > 0 ==> c.v2) && (c.v2 ==> c.ts >= b.m[h].signedAt)
            else (GoneAt(b, h) > 0 ==> c.v2 && c.ts > GoneAt(b, h)) && |b.m| < MAX_HANDLES && room)
      && (h in b.m && b.m[h].pubkey != c.pubkey ==> AnswerOf(b, e) == HandleTaken)
      && (AnswerOf(b, e) == Fine ==>
            && h in b'.m && b'.m[h].pubkey == c.pubkey && b'.m[h].invite == c.invite && b'.m[h].bio == c.bio
            && (c.v2 && 0 < c.ts ==> 0 < b'.m[h].signedAt <= c.ts)
            && (b' != b ==> b'.m[h].claimedAt == now && (c.v2 ==> b'.m[h].signedAt == c.ts)))
  {
  }

  /** A release takes the handle away exactly when it is the entry's key's, correctly
      signed and no older than the entry; for a handle nobody has it is fine and nothing
      happens, and for another's it is refused. */
  lemma ReleaseExactlyWhen(b: Book, e: Event)
    requires e.Releases?
    ensures
      var h, b' := e.h, Next(b, e);
      && (h in b.m && h !in b'.m <==>
            h in b.m && GivesUp(e, h, b.m[h].pubkey) && (b.m[h].signedAt > 0 ==> e.v2) && (e.v2 ==> e.ts >= b.m[h].signedAt))
      && (AnswerOf(b, e) == Fine <==> h !in b'.m)
      && (h in b.m && e.pubkey != b.m[h].pubkey ==> AnswerOf(b, e) == NotYours)
  {
  }

  function After(b: Book, run: seq<Event>): Book { if run == [] then b else Next(After(b, run[..|run| - 1]), run[|run| - 1]) }

  /** Over every run, a handle stays its key's for as long as that key releases it
      nowhere in the run. */
  lemma {:induction false} OnlyOwnerGivesUp(b: Book, run: seq<Event>, h: string)
    requires h in b.m && forall i :: 0 <= i < |run| ==> !GivesUp(run[i], h, b.m[h].pubkey)
    ensures h in After(b, run).m && After(b, run).m[h].pubkey == b.m[h].pubkey && After(b, run).m[h].signedAt >= b.m[h].signedAt
  {
    if run != [] {
      var front, e := run[..|run| - 1], run[|run| - 1];
      forall i | 0 <= i < |front| ensures !GivesUp(front[i], h, b.m[h].pubkey) { assert front[i] == run[i]; }
      OnlyOwnerGivesUp(b, front, h);
      OwnerStays(After(b, front), e, h);
    }
  }

  /** Whoever has a handle after a run claimed it in that run, or had it before. */
  lemma {:induction false} OwnerClaimed(b: Book, run: seq<Event>, h: string)
    requires h in After(b, run).m
    ensures
      var key := After(b, run).m[h].pubkey;
      (h in b.m && b.m[h].pubkey == key) || exists i :: 0 <= i < |run| && run[i].Claims? && run[i].h == h && run[i].c.pubkey == key
  {
    if run != [] {
      var front, e := run[..|run| - 1], run[|run| - 1];
      OwnerStays(After(b, front), e, h);
      if h in After(b, front).m {
        OwnerClaimed(b, front, h);
        var key := After(b, run).m[h].pubkey;
        if !(h in b.m && b.m[h].pubkey == key) {
          var i :| 0 <= i < |front| && front[i].Claims? && front[i].h == h && front[i].c.pubkey == key;
          assert run[i] == front[i];
        }
      }
    }
  }

  // the v2 changes applied to handle h, each with its signed time and whether it was a
  // release
  datatype Mark = Mark(ts: int, release: bool)

  function Applied(b: Book, e: Event, h: string): seq<Mark> {
    match e
    case Claims(k, c, room, _, now) =>
      if k == h && c.v2 && ClaimIt(Find(b.m, k), GoneAt(b, k), |b.m|, room, c, now).1.Some? then [Mark(c.ts, false)] else []
    case Releases(k, pubkey, v2, ts, why, _, _) =>
      if k == h && v2 && ReleaseIt(Find(b.m, k), pubkey, v2, ts, why).1 then [Mark(ts, true)] else []
  }

  // what the signature check passed was near the clock then, and the change came after
  predicate Timely(e: Event, clock: int) {
    match e
    case Claims(_, c, _, checked, now) => 0 < checked && (c.v2 ==> 0 < c.ts && checked - SKEW <= c.ts <= checked + SKEW) && clock <= now && checked <= now
    case Releases(_, _, v2, ts, why, checked, now) =>
      0 < checked && (v2 && why == "" ==> 0 < ts && checked - SKEW <= ts <= checked + SKEW) && clock <= now && checked <= now
  }

  // how long a change waits between its signature check and the store's lock
  function Wait(e: Event): int { e.now - e.checked }

  predicate IsRun(run: seq<Event>, clock: int)
    decreases |run|
  {
    run != [] ==> Timely(run[0], clock) && IsRun(run[1..], run[0].now)
  }

  predicate AllWithin(run: seq<Event>, w: int) { forall i :: 0 <= i < |run| ==> Wait(run[i]) <= w }

  function Log(b: Book, run: seq<Event>, h: string): seq<Mark>
    decreases |run|
  {
    if run == [] then [] else Applied(b, run[0], h) + Log(Next(b, run[0]), run[1..], h)
  }

  // each not before the one before, and after a release strictly newer
  predicate Follows(last: Option<Mark>, ts: int) { last.Some? ==> if last.value.release then ts > last.value.ts else ts >= last.value.ts }

  predicate Ordered(log: seq<Mark>, last: Option<Mark>)
    decreases |log|
  {
    log != [] ==> Follows(last, log[0].ts) && Ordered(log[1..], Some(log[0]))
  }

  // ---- what keeps the times in order ----

  // the last one applied to h is either in the entry, or in the release kept, or past
  // the window twice over
  ghost predicate Kept(b: Book, h: string, last: Option<Mark>, clock: int) {
    last.Some? ==>
      || last.value.ts < clock - 2 * SKEW
      || (h in b.m && b.m[h].signedAt > 0 && !last.value.release && b.m[h].signedAt >= last.value.ts)
      || (h !in b.m && h in b.gone && b.gone[h] > 0 && b.gone[h] >= last.value.ts)
  }

  function Latest(last: Option<Mark>, applied: seq<Mark>): Option<Mark> { if applied == [] then last else Some(applied[|applied| - 1]) }

  lemma AppliedFollows(b: Book, e: Event, h: string, last: Option<Mark>, clock: int)
    requires Kept(b, h, last, clock) && Timely(e, clock) && Wait(e) <= SKEW && Applied(b, e, h) != []
    ensures |Applied(b, e, h)| == 1 && Follows(last, Applied(b, e, h)[0].ts)
  {}

  lemma NextKept(b: Book, e: Event, h: string, last: Option<Mark>, clock: int)
    requires Kept(b, h, last, clock) && Timely(e, clock)
    ensures Kept(Next(b, e), h, Latest(last, Applied(b, e, h)), e.now)
  {}

  // signed times of the v2 changes applied to one handle never go back, and a change
  // after a release is strictly newer, as long as no change waits past the window
  lemma {:induction false} TimesNeverGoBack(b: Book, run: seq<Event>, h: string, last: Option<Mark>, clock: int)
    requires Kept(b, h, last, clock) && IsRun(run, clock) && AllWithin(run, SKEW)
    ensures Ordered(Log(b, run, h), last)
    decreases |run|
  {
    if run != [] {
      var e, rest := run[0], run[1..];
      var now := Applied(b, e, h);
      NextKept(b, e, h, last, clock);
      TimesNeverGoBack(Next(b, e), rest, h, Latest(last, now), e.now);
      if now != [] {
        AppliedFollows(b, e, h, last, clock);
        assert (now + Log(Next(b, e), rest, h))[1..] == Log(Next(b, e), rest, h);
      } else {
        assert now + Log(Next(b, e), rest, h) == Log(Next(b, e), rest, h);
      }
    }
  }

  // ---- a change that waits too long ----

  const K := "k"
  const MINE := Claim(K, "i", "", true, 10000)
  const FIRST := Claims("a", MINE, true, 10000, 10000)
  const GONE := Releases("a", K, true, 10000, "", 10000, 10000)
  const OTHER := Claims("b", Claim(K, "i", "", true, 11201), true, 11201, 11201)
  const OTHER_GONE := Releases("b", K, true, 11201, "", 11201, 11201)
  const IN_TIME := Claims("a", MINE, true, 10600, 10600)
  const LATE := Claims("a", MINE, true, 10600, 11201)

  function Held(ts: int): Entry { Entry(K, "i", "", ts, false, "", 0, ts) }

  const NEW := Book(map[], map[])
  const LATE_RUN: seq<Event> := [FIRST, GONE, OTHER, OTHER_GONE, LATE]

  // a claim that waited one second past the window for the lock is taken although it is
  // no newer than the release: another handle's release dropped the memory of it. in
  // time it would not be
  lemma LateClaimIsTaken()
    ensures IsRun(LATE_RUN, 0) && AllWithin(LATE_RUN, SKEW + 1)
    ensures Log(NEW, LATE_RUN, "a") == [Mark(10000, false), Mark(10000, true), Mark(10000, false)]
    ensures Applied(Next(Next(NEW, FIRST), GONE), IN_TIME, "a") == []
  {
    LateRunIsRun();
    LateRunLog();
    LateRunBooks();
  }

  lemma LateRunIsRun()
    ensures IsRun(LATE_RUN, 0)
  {
    assert LATE_RUN[1..] == [GONE, OTHER, OTHER_GONE, LATE] && [GONE, OTHER, OTHER_GONE, LATE][1..] == [OTHER, OTHER_GONE, LATE];
    assert [OTHER, OTHER_GONE, LATE][1..] == [OTHER_GONE, LATE] && [OTHER_GONE, LATE][1..] == [LATE];
    assert IsRun([LATE], 11201) && IsRun([OTHER_GONE, LATE], 11201) && IsRun([OTHER, OTHER_GONE, LATE], 10000);
  }

  lemma LateRunBooks()
    ensures Next(NEW, FIRST) == Book(map["a" := Held(10000)], map[])
    ensures Next(Book(map["a" := Held(10000)], map[]), GONE) == Book(map[], map["a" := 10000])
    ensures Next(Book(map[], map["a" := 10000]), OTHER) == Book(map["b" := Held(11201)], map["a" := 10000])
    ensures Next(Book(map["b" := Held(11201)], map["a" := 10000]), OTHER_GONE) == Book(map[], map["b" := 11201])
  {
    assert map["a" := Held(10000)] - {"a"} == map[] && map["b" := Held(11201)] - {"b"} == map[];
    assert Pruned(map["a" := 10000], 11201) == map[];
  }

  lemma LogFirst(b: Book, e: Event, rest: seq<Event>, h: string)
    ensures Log(b, [e] + rest, h) == Applied(b, e, h) + Log(Next(b, e), rest, h)
  {
    assert ([e] + rest)[1..] == rest;
  }

  lemma LateRunLog()
    ensures Log(NEW, LATE_RUN, "a") == [Mark(10000, false), Mark(10000, true), Mark(10000, false)]
  {
    LateRunBooks();
    var b1, b2 := Book(map["a" := Held(10000)], map[]), Book(map[], map["a" := 10000]);
    var b3, b4 := Book(map["b" := Held(11201)], map["a" := 10000]), Book(map[], map["b" := 11201]);
    LogFirst(b4, LATE, [], "a");
    assert [LATE] + [] == [LATE] && Log(b4, [LATE], "a") == [Mark(10000, false)];
    LogFirst(b3, OTHER_GONE, [LATE], "a");
    LogFirst(b2, OTHER, [OTHER_GONE, LATE], "a");
    assert Log(b2, [OTHER, OTHER_GONE, LATE], "a") == [Mark(10000, false)];
    LogFirst(b1, GONE, [OTHER, OTHER_GONE, LATE], "a");
    LogFirst(NEW, FIRST, [GONE, OTHER, OTHER_GONE, LATE], "a");
    assert [FIRST] + [GONE, OTHER, OTHER_GONE, LATE] == LATE_RUN;
  }

  // no run from an empty store in which nothing waits longer than w takes times back
  ghost predicate NeverBack(w: int) {
    forall run: seq<Event>, h: string :: IsRun(run, 0) && AllWithin(run, w) ==> Ordered(Log(NEW, run, h), None)
  }

  /** The clock window is the exact bound on the wait: with any longer one a run takes a
      signed time back, with this or a shorter one none does. */
  lemma NeverBackExactlyWhen(w: int)
    ensures NeverBack(w) <==> w <= SKEW
  {
    if w <= SKEW {
      forall run: seq<Event>, h: string | IsRun(run, 0) && AllWithin(run, w) ensures Ordered(Log(NEW, run, h), None) {
        TimesNeverGoBack(NEW, run, h, None, 0);
      }
    } else {
      LateClaimIsTaken();
      var log := Log(NEW, LATE_RUN, "a");
      assert log[1..] == [Mark(10000, true), Mark(10000, false)] && log[1..][1..] == [Mark(10000, false)];
      assert !Ordered(log[1..][1..], Some(Mark(10000, true)));
      assert !Ordered(log[1..], Some(log[0]));
      assert !Ordered(log, None);
      assert IsRun(LATE_RUN, 0) && AllWithin(LATE_RUN, w);
    }
  }

  // ---- the calls ----

  class Handles {
    var m: map<string, Entry>
    var gone: map<string, int>
    // one more with every change
    var gen: nat

    function View(): Book reads this { Book(m, gone) }

    constructor (m: map<string, Entry>)
      ensures View() == Book(m, map[]) && gen == 0
    {
      this.m, gone, gen := m, map[], 0;
    }

    // the change and its number, or the refusal
    method TakeClaim(h: string, c: Claim, room: bool, checked: int, now: int) returns (a: Answer)
      modifies this
      ensures View() == Next(old(View()), Claims(h, c, room, checked, now))
      ensures a == AnswerOf(old(View()), Claims(h, c, room, checked, now))
      ensures old(gen) <= gen <= old(gen) + 1 && (gen == old(gen) ==> View() == old(View()))
      ensures gone == old(gone)
    {
      var entry := Entry(c.pubkey, c.invite, c.bio, 0, false, "", 0, now);
      if h in m {
        var e := m[h];
        if e.pubkey != c.pubkey { return HandleTaken; }
        if e.signedAt > 0 && !c.v2 { return UpdateApp; }
        if c.v2 && c.ts < e.signedAt { return Older; }
        if e.invite == c.invite && e.bio == c.bio && (!c.v2 || e.signedAt > 0) { return Fine; }
        entry := entry.(listed := e.listed, name := e.name, listedAt := e.listedAt, signedAt := e.signedAt);
      } else {
        if h in gone && gone[h] > 0 && (!c.v2 || c.ts <= gone[h]) { return Older; }
        if |m| >= MAX_HANDLES { return Full; }
        if !room { return SlowDown; }
      }
      if c.v2 { entry := entry.(signedAt := c.ts); }
      m := m[h := entry];
      gen := gen + 1;
      return Fine;
    }

    method TakeRelease(h: string, pubkey: string, v2: bool, ts: int, why: string, checked: int, now: int) returns (a: Answer)
      modifies this
      ensures View() == Next(old(View()), Releases(h, pubkey, v2, ts, why, checked, now))
      ensures a == AnswerOf(old(View()), Releases(h, pubkey, v2, ts, why, checked, now))
      ensures old(gen) <= gen <= old(gen) + 1 && (gen == old(gen) ==> View() == old(View()))
    {
      if h !in m { return Fine; }
      var e := m[h];
      if why == "signature does not match" || e.pubkey != pubkey { return NotYours; }
      if why != "" { return BadSignature(why); }
      if e.signedAt > 0 && !v2 { return UpdateApp; }
      if v2 && ts < e.signedAt { return Older; }
      m := m - {h};
      gone := Pruned(gone, now)[h := if v2 then ts else checked];
      gen := gen + 1;
      return Fine;
    }
  }
}
