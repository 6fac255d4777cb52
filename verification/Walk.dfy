/**
 The walk back through a relay's stored events (engine/catchup/catchup.go). A relay
 answers newest first and stops at a cap, so the walk asks page after page below
 what it has, steps over the stretch a Mark says was walked before, and stops when
 the window is done, a page is cut or its time is up.
 */
module Walk {
  import opened Stamps
  import opened Descent

  // everything above Cursor up to Top was walked on earlier connections
  datatype Mark = Mark(top: Stamp, cursor: Stamp) {
    predicate Started() { top > 0 }

    // the stamps a walk that carries this mark does not ask for again
    predicate Ground(at: Stamp) { Started() && cursor < at <= top }
  }

  const NO_MARK := Mark(0, 0)

  datatype Result = Result(pages: nat, fetched: nat, news: nat, complete: bool, until: Stamp)

  // ---- the relay ----

  // a page as it came; err when it was cut short
  datatype Reply = Reply(evs: seq<Event>, err: bool)

  // the n-th request of a walk: since, until and limit
  type Fetch = (nat, Stamp, Stamp, int) -> Reply

  ghost function Matching(stored: set<Event>, since: Stamp, until: Stamp): set<Event> {
    set e | e in stored && since <= e.at <= until
  }

  ghost function Second(stored: set<Event>, at: Stamp): set<Event> {
    set e | e in stored && e.at == at
  }

  // stamps are positive, and no second holds more than the relay hands out at once
  ghost predicate StoreOK(stored: set<Event>, cap: nat) {
    && (forall e :: e in stored ==> e.at > 0)
    && (forall at :: |Second(stored, at)| <= cap)
  }

  /** A page of an honest relay. Of the stored events that match, it holds a newest
      first part: all of them, or at least cap when it was not cut short. Events the
      relay took while it answered may come among them; they match the filter too,
      and come only from a relay that hands out the whole limit or everything. */
  ghost predicate HonestPage(stored: set<Event>, since: Stamp, until: Stamp, limit: int, cap: nat, p: Reply) {
    var all := Matching(stored, since, until);
    var part := set e | e in p.evs && e in all;
    && (forall e :: e in p.evs ==> since <= e.at <= until)
    && (forall e, f :: e in all && e !in part && f in part ==> e.at <= f.at)
    && (p.err || part == all || |part| >= cap)
    && ((forall e :: e in p.evs ==> e in all) || (limit > 0 && |part| >= limit) || (!p.err && part == all))
  }

  // what the reader hands on of a page: the events at its limit-th newest stamp or above
  function Trim(p: Reply, limit: int): Reply { Reply(NewestOf(p.evs, limit), p.err) }

  ghost predicate ReadPageOf(stored: set<Event>, since: Stamp, until: Stamp, limit: int, cap: nat, p: Reply) {
    exists raw :: HonestPage(stored, since, until, limit, cap, raw) && p == Trim(raw, limit)
  }

  // store(n) is what the relay has as it answers the n-th request: it only grows
  ghost predicate HonestRelay(fetch: Fetch, store: nat -> set<Event>, limit: int, cap: nat) {
    && cap >= 1
    && (forall n: nat :: StoreOK(store(n), cap) && store(0) <= store(n))
    && (forall n: nat, since, until :: ReadPageOf(store(n), since, until, limit, cap, fetch(n, since, until, limit)))
  }

  lemma StampsOfSnoc(front: seq<Event>, last: Event, b: Stamp)
    ensures AtLeast(StampsOf(front + [last]), b) == AtLeast(StampsOf(front), b) + (if last.at >= b then 1 else 0)
  {
    var s := StampsOf(front + [last]);
    assert s[..|s| - 1] == StampsOf(front);
  }

  // distinct events at b or above are counted at least once each
  lemma {:induction false} SetCount(part: set<Event>, evs: seq<Event>, b: Stamp)
    requires forall e :: e in part ==> e in evs && e.at >= b
    ensures |part| <= AtLeast(StampsOf(evs), b)
  {
    if evs == [] {
      assert part == {};
    } else {
      var front, last := evs[..|evs| - 1], evs[|evs| - 1];
      assert evs == front + [last];
      SetCount(part - {last}, front, b);
      StampsOfSnoc(front, last, b);
      if last !in part { assert part - {last} == part; }
    }
  }

  // once n stamps reach b, the n-th newest does
  lemma BelowReaches(s: seq<Stamp>, limit: int, b: Stamp)
    requires s != [] && AtLeast(s, b) >= Deciding(s, limit)
    ensures Below(s, limit) >= b
  {
    if Below(s, limit) < b { AtLeastAntitone(s, Below(s, limit) + 1, b); }
  }

  // an honest page leaves out nothing above the stamp the walk carries on from
  lemma NothingAboveIsMissed(stored: set<Event>, since: Stamp, until: Stamp, limit: int, cap: nat, p: Reply, e: Event)
    requires HonestPage(stored, since, until, limit, cap, p) && p.evs != []
    requires e in Matching(stored, since, until) && e.at > Below(StampsOf(p.evs), limit)
    ensures e in p.evs
  {
    if e !in p.evs {
      var all := Matching(stored, since, until);
      var part := set f | f in p.evs && f in all;
      var s := StampsOf(p.evs);
      if forall f :: f in p.evs ==> f in all {
        forall i | 0 <= i < |s| ensures s[i] >= e.at { assert p.evs[i] in part; }
        AtLeastAll(s, e.at);
      } else {
        SetCount(part, p.evs, e.at);
      }
      BelowReaches(s, limit, e.at);
      assert false;
    }
  }

  // a page that was not cut short brought all of the second it started at
  lemma TopSecondIsWhole(stored: set<Event>, since: Stamp, until: Stamp, limit: int, cap: nat, p: Reply, e: Event)
    requires StoreOK(stored, cap) && HonestPage(stored, since, until, limit, cap, p) && !p.err
    requires e in Matching(stored, since, until) && e.at == until
    ensures e in p.evs
  {
    if e !in p.evs {
      var all := Matching(stored, since, until);
      var part := set f | f in p.evs && f in all;
      assert |part + {e}| == |part| + 1;
      SubsetSize(part + {e}, Second(stored, until));
      assert false;
    }
  }

  lemma SubsetSize<T>(a: set<T>, b: set<T>)
    requires a <= b
    ensures |a| <= |b|
  {
    if a != {} {
      var x :| x in a;
      SubsetSize(a - {x}, b - {x});
    }
  }

  // ---- the same of a page as it is read ----

  // trimming keeps where the walk carries on, and everything from there up
  lemma TrimKeeps(raw: Reply, limit: int)
    requires raw.evs != []
    ensures Trim(raw, limit).evs != []
    ensures Below(StampsOf(Trim(raw, limit).evs), limit) == Below(StampsOf(raw.evs), limit)
  {
    if limit > 0 && |raw.evs| >= limit {
      NewestKeepsBelow(raw.evs, [], limit);
      NewestSameBelow(raw.evs, limit);
    }
  }

  lemma ReadMissesNothing(stored: set<Event>, since: Stamp, until: Stamp, limit: int, cap: nat, p: Reply, e: Event)
    requires ReadPageOf(stored, since, until, limit, cap, p) && p.evs != []
    requires e in Matching(stored, since, until) && e.at > Below(StampsOf(p.evs), limit)
    ensures e in p.evs
  {
    var raw :| HonestPage(stored, since, until, limit, cap, raw) && p == Trim(raw, limit);
    TrimKeeps(raw, limit);
    NothingAboveIsMissed(stored, since, until, limit, cap, raw, e);
    NewestOfMembers(raw.evs, limit, e);
  }

  lemma ReadTopIsWhole(stored: set<Event>, since: Stamp, until: Stamp, limit: int, cap: nat, p: Reply, e: Event)
    requires StoreOK(stored, cap) && ReadPageOf(stored, since, until, limit, cap, p) && !p.err
    requires e in Matching(stored, since, until) && e.at == until
    ensures e in p.evs
  {
    var raw :| HonestPage(stored, since, until, limit, cap, raw) && p == Trim(raw, limit);
    TopSecondIsWhole(stored, since, until, limit, cap, raw, e);
    BelowAtMost(raw.evs, limit, until);
    NewestOfMembers(raw.evs, limit, e);
  }

  // a page as read matches the filter, and is empty only when nothing came
  lemma ReadMatches(stored: set<Event>, since: Stamp, until: Stamp, limit: int, cap: nat, p: Reply)
    requires ReadPageOf(stored, since, until, limit, cap, p)
    ensures forall e :: e in p.evs ==> since <= e.at <= until
    ensures p.evs == [] ==> HonestPage(stored, since, until, limit, cap, p)
  {
    var raw :| HonestPage(stored, since, until, limit, cap, raw) && p == Trim(raw, limit);
    forall e | e in p.evs ensures since <= e.at <= until { NewestOfMembers(raw.evs, limit, e); }
    if raw.evs != [] { TrimKeeps(raw, limit); }
  }

  // nothing of an honest page is stamped under its since
  lemma {:induction false} BelowAtLeastSince(evs: seq<Event>, limit: int, since: Stamp)
    requires evs != [] && forall e :: e in evs ==> e.at >= since
    ensures Below(StampsOf(evs), limit) >= since
  {
    var s := StampsOf(evs);
    forall i | 0 <= i < |s| ensures s[i] >= since { assert evs[i] in evs; }
    AtLeastAll(s, since);
    BelowReaches(s, limit, since);
  }

  // ---- the walk ----

  // what of g the walk has to have brought: inside the window, between low and
  // high, and not on ground it steps over
  ghost predicate Covered(g: set<Event>, since: Stamp, low: Stamp, high: Stamp, skip: Mark, got: set<Event>) {
    forall e :: e in g && since <= e.at && low < e.at <= high && !skip.Ground(e.at) ==> e in got
  }

  function Set(evs: seq<Event>): set<Event> { set e | e in evs }

  // hands the events over one by one; news counts the ones that were new
  method Deliver(evs: seq<Event>, got0: set<Event>) returns (got: set<Event>, news: nat)
    ensures got == got0 + Set(evs)
    ensures |got| == |got0| + news && news <= |evs|
  {
    got, news := got0, 0;
    for i := 0 to |evs|
      invariant got == got0 + Set(evs[..i])
      invariant |got| == |got0| + news && news <= i
    {
      assert evs[..i + 1] == evs[..i] + [evs[i]];
      if evs[i] !in got { news := news + 1; }
      got := got + {evs[i]};
    }
    assert evs[..|evs|] == evs;
  }

  ghost predicate Descending(s: seq<Stamp>) {
    forall i, j :: 0 <= i < j < |s| ==> s[i] > s[j]
  }

  // the page a walk asks for at until: the window, down to the top of the part
  // already walked while it is above that
  function PageSince(since: Stamp, until: Stamp, skip: Mark): Stamp {
    if skip.Started() && until > skip.top && skip.top > since then skip.top else since
  }

  // where the walk goes on under a page that brought something
  function StepDown(evs: seq<Event>, limit: int, until: Stamp, cut: bool): Stamp {
    var low := Below(StampsOf(evs), limit);
    if low < until then low else if cut then until else until - 1
  }

  // a page's step down covers what lies between
  lemma PageCovers(fetch: Fetch, store: nat -> set<Event>, limit: int, cap: nat, n: nat,
                   since: Stamp, until: Stamp, high: Stamp, skip: Mark, got: set<Event>)
    requires HonestRelay(fetch, store, limit, cap)
    requires Covered(store(0), since, until, high, skip, got)
    requires fetch(n, PageSince(since, until, skip), until, limit).evs != []
    ensures var p := fetch(n, PageSince(since, until, skip), until, limit);
            Covered(store(0), since, StepDown(p.evs, limit, until, p.err), high, skip, got + Set(p.evs))
  {
    var pageSince := PageSince(since, until, skip);
    var p := fetch(n, pageSince, until, limit);
    assert ReadPageOf(store(n), pageSince, until, limit, cap, p) && StoreOK(store(n), cap) && store(0) <= store(n);
    ReadMatches(store(n), pageSince, until, limit, cap, p);
    var low, below := StepDown(p.evs, limit, until, p.err), Below(StampsOf(p.evs), limit);
    BelowAtLeastSince(p.evs, limit, pageSince);
    forall e | e in store(0) && since <= e.at && low < e.at <= high && !skip.Ground(e.at)
      ensures e in got + Set(p.evs)
    {
      if e.at <= until {
        assert e in Matching(store(n), pageSince, until);
        if e.at > below {
          ReadMissesNothing(store(n), pageSince, until, limit, cap, p, e);
        } else {
          BelowAtMost(p.evs, limit, until);
          ReadTopIsWhole(store(n), pageSince, until, limit, cap, p, e);
        }
      }
    }
  }

  // an empty page that was not cut proves there is nothing it could have held
  lemma EmptyPageCovers(fetch: Fetch, store: nat -> set<Event>, limit: int, cap: nat, n: nat,
                        since: Stamp, until: Stamp, high: Stamp, skip: Mark, got: set<Event>)
    requires HonestRelay(fetch, store, limit, cap)
    requires Covered(store(0), since, until, high, skip, got)
    requires fetch(n, PageSince(since, until, skip), until, limit) == Reply([], false)
    ensures Covered(store(0), since, if skip.Started() && until > skip.top then skip.cursor else 0, high, skip, got)
  {
    var pageSince := PageSince(since, until, skip);
    assert ReadPageOf(store(n), pageSince, until, limit, cap, fetch(n, pageSince, until, limit));
    ReadMatches(store(n), pageSince, until, limit, cap, fetch(n, pageSince, until, limit));
    assert store(0) <= store(n) && cap >= 1;
    forall e | e in store(0) && since <= e.at <= until && !skip.Ground(e.at)
      ensures skip.Started() && until > skip.top && e.at <= skip.cursor
    {
      assert pageSince <= e.at ==> e in Matching(store(n), pageSince, until);
    }
  }

  // one page asked for and handed over, and what is covered after it
  method Ask(fetch: Fetch, ghost store: nat -> set<Event>, ghost cap: nat, n: nat,
             since: Stamp, until: Stamp, ghost high: Stamp, limit: int, skip: Mark, got0: set<Event>)
    returns (p: Reply, got: set<Event>, news: nat)
    requires HonestRelay(fetch, store, limit, cap)
    requires Covered(store(0), since, until, high, skip, got0)
    ensures p == fetch(n, PageSince(since, until, skip), until, limit)
    ensures got0 <= got && |got| == |got0| + news && news <= |p.evs| && forall e :: e in p.evs ==> e.at <= until
    ensures Covered(store(0), since, until, high, skip, got)
    ensures p.evs != [] ==> Covered(store(0), since, StepDown(p.evs, limit, until, p.err), high, skip, got)
    ensures p.evs == [] && !p.err ==>
      Covered(store(0), since, if skip.Started() && until > skip.top then skip.cursor else 0, high, skip, got)
  {
    p := fetch(n, PageSince(since, until, skip), until, limit);
    assert ReadPageOf(store(n), PageSince(since, until, skip), until, limit, cap, p);
    ReadMatches(store(n), PageSince(since, until, skip), until, limit, cap, p);
    got, news := Deliver(p.evs, got0);
    if p.evs != [] {
      PageCovers(fetch, store, limit, cap, n, since, until, high, skip, got0);
    } else if !p.err {
      EmptyPageCovers(fetch, store, limit, cap, n, since, until, high, skip, got);
    }
  }

  // ground already walked is stepped over in one go
  lemma JumpCovers(g: set<Event>, since: Stamp, until: Stamp, high: Stamp, skip: Mark, got: set<Event>)
    requires Covered(g, since, until, high, skip, got) && skip.Started() && skip.cursor < until <= skip.top
    ensures Covered(g, since, skip.cursor, high, skip, got)
  {
  }

  // a window that ends above the cursor is taken whole
  lemma BottomCovers(g: set<Event>, cap: nat, since: Stamp, until: Stamp, high: Stamp, skip: Mark, got: set<Event>)
    requires Covered(g, since, until, high, skip, got) && StoreOK(g, cap) && (until <= 0 || (since > 0 && until < since))
    ensures Covered(g, since, 0, high, skip, got)
  {
  }

  lemma DescendingSnoc(s: seq<Stamp>, x: Stamp)
    requires Descending(s) && (s != [] ==> x < s[|s| - 1])
    ensures Descending(s + [x])
  {
  }

  // ---- why a walk stops ----

  ghost predicate AliveFor(alive: nat -> bool, pages: int) { forall n: nat :: n < pages ==> alive(n) }

  lemma AliveOneMore(alive: nat -> bool, pages: nat)
    requires AliveFor(alive, pages) && alive(pages)
    ensures AliveFor(alive, pages + 1)
  {
  }

  // a request with this number was cut short, for some part of the window
  ghost predicate CutAt(fetch: Fetch, limit: int, n: nat) { exists from, until :: fetch(n, from, until, limit).err }

  // no page brings a stamp besides these
  ghost predicate HandsOut(fetch: Fetch, limit: int, stamps: set<Stamp>) {
    forall n: nat, from, until, e :: e in fetch(n, from, until, limit).evs ==> e.at in stamps
  }

  // a connection that lives, whose pages are not cut short and are allowed to be two for
  // each stamp the relay hands out, one for the end and one for the walked ground
  ghost predicate Lasts(fetch: Fetch, alive: nat -> bool, limit: int, maxPages: int, stamps: set<Stamp>) {
    && AliveFor(alive, maxPages) && (forall n: nat :: n < maxPages ==> !CutAt(fetch, limit, n))
    && HandsOut(fetch, limit, stamps) && maxPages >= 2 * |stamps| + 2
  }

  // what of the pages allowed is left after this many, at this cursor
  ghost predicate PagesLeft(fetch: Fetch, limit: int, pages: int, until: Stamp, oldest: Stamp, jumped: nat) {
    forall stamps :: HandsOut(fetch, limit, stamps) ==> pages + PagesFrom(stamps, until) <= PagesFrom(stamps, oldest) + jumped
  }

  lemma PagesLower(fetch: Fetch, limit: int, pages: int, until: Stamp, oldest: Stamp, jumped: nat, lower: Stamp)
    requires PagesLeft(fetch, limit, pages, until, oldest, jumped) && lower <= until
    ensures PagesLeft(fetch, limit, pages, lower, oldest, jumped)
  {
    forall stamps | HandsOut(fetch, limit, stamps) ensures pages + PagesFrom(stamps, lower) <= PagesFrom(stamps, oldest) + jumped {
      LowerIsFewer(stamps, lower, until);
    }
  }

  // a page that brought something is paid for by the stamp it steps down to or from
  lemma PageIsPaid(fetch: Fetch, limit: int, pages: nat, from: Stamp, until: Stamp, oldest: Stamp, jumped: nat)
    requires PagesLeft(fetch, limit, pages, until, oldest, jumped) && fetch(pages, from, until, limit).evs != []
    requires forall e :: e in fetch(pages, from, until, limit).evs ==> e.at <= until
    ensures PagesLeft(fetch, limit, pages + 1, StepDown(fetch(pages, from, until, limit).evs, limit, until, false), oldest, jumped)
  {
    var evs := fetch(pages, from, until, limit).evs;
    var low := Below(StampsOf(evs), limit);
    BelowAtMost(evs, limit, until);
    BelowIsAStamp(StampsOf(evs), limit);
    var i :| 0 <= i < |evs| && StampsOf(evs)[i] == low;
    assert evs[i] in evs && evs[i].at == low;
    forall stamps | HandsOut(fetch, limit, stamps)
      ensures pages + 1 + PagesFrom(stamps, StepDown(evs, limit, until, false)) <= PagesFrom(stamps, oldest) + jumped
    {
      StepIsFewer(stamps, low, until);
    }
  }

  // what of the pages is spent, for a mark whose cursor is not above its top; jumped is 1
  // once the walked ground was stepped over after an empty page
  ghost predicate Budget(fetch: Fetch, limit: int, skip: Mark, pages: int, until: Stamp, oldest: Stamp, jumped: nat) {
    skip.cursor <= skip.top ==>
      jumped <= 1 && PagesLeft(fetch, limit, pages, until, oldest, jumped) && (jumped == 1 ==> until <= skip.cursor)
  }

  // the cursors so far, and where the next page starts
  ghost predicate InOrder(skip: Mark, cursors: seq<Stamp>, until: Stamp, oldest: Stamp) {
    skip.cursor <= skip.top ==> Descending(cursors) && until <= oldest && (cursors != [] ==> until < cursors[|cursors| - 1])
  }

  lemma JumpGoesOn(fetch: Fetch, limit: int, skip: Mark, pages: int, until: Stamp, oldest: Stamp, jumped: nat, cursors: seq<Stamp>)
    requires Budget(fetch, limit, skip, pages, until, oldest, jumped) && InOrder(skip, cursors, until, oldest) && skip.cursor < until
    ensures Budget(fetch, limit, skip, pages, skip.cursor, oldest, jumped) && InOrder(skip, cursors, skip.cursor, oldest)
  {
    if skip.cursor <= skip.top { PagesLower(fetch, limit, pages, until, oldest, jumped, skip.cursor); }
  }

  // the cursor after a page that does not end the walk
  function Onward(p: Reply, limit: int, until: Stamp, skip: Mark): Stamp {
    if p.evs != [] then StepDown(p.evs, limit, until, false) else skip.cursor
  }

  lemma PageGoesOn(fetch: Fetch, limit: int, skip: Mark, pages: nat, from: Stamp, until: Stamp, oldest: Stamp, jumped: nat, cursors: seq<Stamp>)
    returns (jumped': nat)
    requires Budget(fetch, limit, skip, pages, until, oldest, jumped) && InOrder(skip, cursors, until, oldest)
    requires forall e :: e in fetch(pages, from, until, limit).evs ==> e.at <= until
    requires fetch(pages, from, until, limit).evs == [] ==> skip.Started() && until > skip.top
    ensures var next := Onward(fetch(pages, from, until, limit), limit, until, skip);
            Budget(fetch, limit, skip, pages + 1, next, oldest, jumped') && InOrder(skip, cursors + [until], next, oldest)
  {
    jumped' := jumped;
    if skip.cursor <= skip.top {
      DescendingSnoc(cursors, until);
      if fetch(pages, from, until, limit).evs != [] {
        PageIsPaid(fetch, limit, pages, from, until, oldest, jumped);
        StepDownIsDown(fetch(pages, from, until, limit).evs, limit, until);
      } else {
        PagesLower(fetch, limit, pages, until, oldest, jumped, skip.cursor);
        jumped' := 1;
      }
    }
  }

  lemma StepDownIsDown(evs: seq<Event>, limit: int, until: Stamp)
    ensures StepDown(evs, limit, until, false) < until
  {
  }

  // with so many pages allowed they do not run out
  lemma PagesSuffice(fetch: Fetch, alive: nat -> bool, limit: int, skip: Mark, maxPages: int, until: Stamp, oldest: Stamp, jumped: nat)
    requires Budget(fetch, limit, skip, maxPages, until, oldest, jumped) && skip.cursor <= skip.top
    ensures forall stamps :: !Lasts(fetch, alive, limit, maxPages, stamps)
  {
    forall stamps ensures !Lasts(fetch, alive, limit, maxPages, stamps) {
      PagesAtMost(stamps, oldest);
    }
  }

  method Walk(fetch: Fetch, alive: nat -> bool, ghost store: nat -> set<Event>, ghost cap: nat,
              since: Stamp, oldest: Stamp, limit: int, maxPages: int, got0: set<Event>, skip: Mark)
    returns (res: Result, got: set<Event>, ghost cursors: seq<Stamp>)
    requires HonestRelay(fetch, store, limit, cap)
    // what was handed over stays, and news is how much it grew
    ensures got0 <= got && |got| == |got0| + res.news && res.news <= res.fetched
    // where it stopped is a resume point: all above it was fetched
    ensures maxPages > 0 ==> Covered(store(0), since, res.until, oldest, skip, got)
    // a complete walk took the whole window
    ensures res.complete ==> Covered(store(0), since, 0, oldest, skip, got)
    // one descending cursor: each page starts strictly below the one before
    ensures skip.cursor <= skip.top ==> Descending(cursors)
    ensures |cursors| == res.pages
    // and on none of the ground walked before
    ensures forall c :: c in cursors ==> !skip.Ground(c)
    ensures maxPages > 0 && skip.cursor <= skip.top ==> res.until <= oldest
    // it goes on while it may, and stops short only out of pages, dead or cut short
    ensures AliveFor(alive, res.pages) && res.pages <= MaxStamp(maxPages, 0)
    ensures !res.complete ==> res.pages >= maxPages || !alive(res.pages) || CutAt(fetch, limit, res.pages)
    // so one that lasts is complete
    ensures skip.cursor <= skip.top ==> forall stamps :: Lasts(fetch, alive, limit, maxPages, stamps) ==> res.complete
  {
    var pages, fetched, total, until := 0, 0, 0, oldest;
    res := Result(0, 0, 0, false, 0);
    got := got0;
    cursors := [];
    ghost var jumped := 0;
    while pages < maxPages
      invariant |cursors| == pages && pages >= 0 && (pages <= maxPages || pages == 0)
      invariant AliveFor(alive, pages) && forall c :: c in cursors ==> !skip.Ground(c)
      invariant got0 <= got && |got| == |got0| + total && 0 <= total <= fetched
      invariant res == Result(pages, fetched, total, false, if pages > 0 then until else 0)
      invariant Covered(store(0), since, until, oldest, skip, got)
      invariant Budget(fetch, limit, skip, pages, until, oldest, jumped) && InOrder(skip, cursors, until, oldest)
      decreases maxPages - pages
    {
      if skip.Started() && until <= skip.top && until > skip.cursor {
        JumpCovers(store(0), since, until, oldest, skip, got);
        JumpGoesOn(fetch, limit, skip, pages, until, oldest, jumped, cursors);
        until := skip.cursor;
      }
      if !alive(pages) {
        return Result(pages, fetched, total, false, until), got, cursors;
      }
      if until <= 0 || (since > 0 && until < since) {
        assert StoreOK(store(0), cap);
        BottomCovers(store(0), cap, since, until, oldest, skip, got);
        return Result(pages, fetched, total, true, until), got, cursors;
      }
      AliveOneMore(alive, pages);
      var p, news;
      p, got, news := Ask(fetch, store, cap, pages, since, until, oldest, limit, skip, got);
      fetched, total := fetched + |p.evs|, total + news;
      if p.err {
        if p.evs != [] {
          until := StepDown(p.evs, limit, until, true);
        }
        return Result(pages, fetched, total, false, until), got, cursors;
      }
      if p.evs == [] && !(skip.Started() && until > skip.top) {
        if skip.cursor <= skip.top { DescendingSnoc(cursors, until); }
        return Result(pages + 1, fetched, total, true, until), got, cursors + [until];
      }
      jumped := PageGoesOn(fetch, limit, skip, pages, PageSince(since, until, skip), until, oldest, jumped, cursors);
      pages, cursors := pages + 1, cursors + [until];
      until := Onward(p, limit, until, skip);
      res := Result(pages, fetched, total, false, until);
    }
    if skip.cursor <= skip.top && maxPages >= 0 { PagesSuffice(fetch, alive, limit, skip, maxPages, until, oldest, jumped); }
  }

  // ---- carrying a mark from one connection to the next ----

  function MaxStamp(a: Stamp, b: Stamp): Stamp { if a > b then a else b }

  // all of g that this walk does not ask for is in already: what lies below its
  // window, what the first answer brought from above, and the ground it steps over
  ghost predicate RestIn(g: set<Event>, since: Stamp, oldest: Stamp, skip: Mark, got: set<Event>) {
    forall e :: e in g && (e.at < since || e.at > oldest || skip.Ground(e.at)) ==> e in got
  }

  ghost predicate GroundIn(g: set<Event>, m: Mark, got: set<Event>) {
    forall e :: e in g && m.Ground(e.at) ==> e in got
  }

  /** A walk that takes a mark and gives one. Of any events g the relay had as
      the walk began: a complete walk leaves none behind, and one that stopped short
      returns a mark that names only ground whose events are all in. */
  method Continue(fetch: Fetch, alive: nat -> bool, ghost store: nat -> set<Event>, ghost cap: nat, ghost g: set<Event>,
                  since: Stamp, oldest: Stamp, limit: int, maxPages: int, got0: set<Event>, m0: Mark)
    returns (res: Result, m: Mark, got: set<Event>)
    requires HonestRelay(fetch, store, limit, cap) && g <= store(0)
    ensures got0 <= got && |got| == |got0| + res.news
    ensures m == if res.complete then NO_MARK else Mark(MaxStamp(oldest, m0.top), res.until)
    ensures RestIn(g, since, oldest, m0, got0) && res.complete ==> g <= got
    ensures RestIn(g, since, oldest, m0, got0) && maxPages > 0 ==> GroundIn(g, m, got)
    ensures maxPages > 0 && m0.cursor <= m0.top ==> m.cursor <= m.top
    ensures !res.complete ==> res.pages >= maxPages || !alive(res.pages) || CutAt(fetch, limit, res.pages)
    ensures m0.cursor <= m0.top ==> forall stamps :: Lasts(fetch, alive, limit, maxPages, stamps) ==> res.complete
  {
    ghost var cursors;
    res, got, cursors := Walk(fetch, alive, store, cap, since, oldest, limit, maxPages, got0, m0);
    m := if res.complete then NO_MARK else Mark(MaxStamp(oldest, m0.top), res.until);
    assert StoreOK(store(0), cap);
  }

  // ---- any number of connections ----

  /** One connection to the relay: its answer to the subscription, newest first up to
      firstLimit, then the pages its walk gets, and how long it lives. */
  datatype Connection = Connection(first: seq<Event>, firstLimit: int, fetch: Fetch, alive: nat -> bool)

  // the answers of a connection are those of an honest relay whose store is
  // store(0) as it subscribes; it hands out at least firstLimit at once
  ghost predicate HonestConnection(c: Connection, store: nat -> set<Event>, since: Stamp, limit: int, cap: nat) {
    && HonestRelay(c.fetch, store, limit, cap)
    && 0 < c.firstLimit <= cap
    && exists horizon ::
         && (forall e :: e in store(0) ==> e.at <= horizon)
         && HonestPage(store(0), since, horizon, c.firstLimit, cap, Reply(c.first, false))
  }

  // a first answer that is not full is the whole window, and a full one leaves
  // out nothing above where its walk begins
  lemma FirstAnswerTakes(c: Connection, store: nat -> set<Event>, since: Stamp, limit: int, cap: nat, e: Event)
    requires HonestConnection(c, store, since, limit, cap) && e in store(0) && e.at >= since
    ensures |c.first| < c.firstLimit ==> e in c.first
    ensures c.first != [] && e.at > Below(StampsOf(c.first), c.firstLimit) ==> e in c.first
  {
    var horizon :|
      && (forall e :: e in store(0) ==> e.at <= horizon)
      && HonestPage(store(0), since, horizon, c.firstLimit, cap, Reply(c.first, false));
    var all := Matching(store(0), since, horizon);
    var part := set f | f in c.first && f in all;
    assert e in all;
    if |c.first| < c.firstLimit {
      SetSeqSize(part, c.first);
    } else if e.at > Below(StampsOf(c.first), c.firstLimit) {
      NothingAboveIsMissed(store(0), since, horizon, c.firstLimit, cap, Reply(c.first, false), e);
    }
  }

  lemma {:induction false} SetSeqSize(part: set<Event>, evs: seq<Event>)
    requires forall e :: e in part ==> e in evs
    ensures |part| <= |evs|
  {
    if evs == [] {
      assert part == {};
    } else {
      var last := evs[|evs| - 1];
      assert evs == evs[..|evs| - 1] + [last];
      SetSeqSize(part - {last}, evs[..|evs| - 1]);
      assert part <= (part - {last}) + {last};
    }
  }

  // a connection whose first answer is the whole window, or that lasts for its walk
  ghost predicate Carries(c: Connection, limit: int, maxPages: int, stamps: set<Stamp>) {
    |c.first| < c.firstLimit || Lasts(c.fetch, c.alive, limit, maxPages, stamps)
  }

  // one connection, its first answer and the walk under it
  method CheckIn(c: Connection, ghost store: nat -> set<Event>, ghost cap: nat, ghost g: set<Event>,
                 since: Stamp, limit: int, maxPages: int, got0: set<Event>, m0: Mark)
    returns (got: set<Event>, m: Mark, done: bool)
    requires HonestConnection(c, store, since, limit, cap) && maxPages > 0
    requires g <= store(0) && (forall e :: e in g ==> e.at >= since) && GroundIn(g, m0, got0) && m0.cursor <= m0.top
    ensures got0 <= got && GroundIn(g, m, got) && m.cursor <= m.top && (done ==> g <= got && m == NO_MARK)
    ensures forall stamps :: Carries(c, limit, maxPages, stamps) ==> done
  {
    forall e | e in g
      ensures |c.first| < c.firstLimit ==> e in c.first
      ensures c.first != [] && e.at > Below(StampsOf(c.first), c.firstLimit) ==> e in c.first
    {
      FirstAnswerTakes(c, store, since, limit, cap, e);
    }
    var news;
    got, news := Deliver(c.first, got0);
    if |c.first| < c.firstLimit { return got, NO_MARK, true; }
    var res;
    res, m, got := Continue(c.fetch, c.alive, store, cap, g, since, Below(StampsOf(c.first), c.firstLimit), limit, maxPages, got, m0);
    done := res.complete;
  }

  /** Connection after connection on one window, each carrying the mark of the one
      before, until a walk is done or no more connect. However often they are cut,
      the mark names only ground whose events are in, and once one is done every
      event the relay had at the first of them, inside the window, was handed over.
      One that lasts is done. What reached the relay later and was stamped into walked
      ground is Hold's. */
  method CheckIns(conns: seq<Connection>, ghost stores: seq<nat -> set<Event>>, ghost cap: nat,
                  since: Stamp, limit: int, maxPages: int, got0: set<Event>)
    returns (got: set<Event>, m: Mark, done: bool)
    requires |stores| == |conns| && maxPages > 0
    requires forall k :: 0 <= k < |conns| ==> HonestConnection(conns[k], stores[k], since, limit, cap)
    requires forall k :: 0 <= k < |conns| ==> stores[0](0) <= stores[k](0)
    ensures got0 <= got
    ensures done ==> m == NO_MARK
    ensures conns != [] && done ==> forall e :: e in stores[0](0) && e.at >= since ==> e in got
    ensures conns != [] ==> forall e :: e in stores[0](0) && e.at >= since && m.Ground(e.at) ==> e in got
    ensures m.cursor <= m.top
    // it is done unless every connection broke off
    ensures forall k, stamps :: 0 <= k < |conns| && Carries(conns[k], limit, maxPages, stamps) ==> done
  {
    got, m, done := got0, NO_MARK, false;
    if conns == [] { return; }
    ghost var g := set e | e in stores[0](0) && e.at >= since;
    var k := 0;
    while k < |conns| && !done
      invariant 0 <= k <= |conns| && got0 <= got && m.cursor <= m.top
      invariant GroundIn(g, m, got)
      invariant done ==> g <= got && m == NO_MARK
      invariant !done ==> forall i, stamps :: 0 <= i < k ==> !Carries(conns[i], limit, maxPages, stamps)
    {
      got, m, done := CheckIn(conns[k], stores[k], cap, g, since, limit, maxPages, got, m);
      k := k + 1;
    }
  }

  lemma BelowAtMost(evs: seq<Event>, limit: int, until: Stamp)
    requires evs != [] && forall e :: e in evs ==> e.at <= until
    ensures Below(StampsOf(evs), limit) <= until
  {
    var s := StampsOf(evs);
    if Below(s, limit) > until {
      forall i | 0 <= i < |s| ensures s[i] < Below(s, limit) { assert evs[i] in evs; }
      AtLeastNone(s, Below(s, limit));
      assert false;
    }
  }
}
