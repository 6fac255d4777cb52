/**
 The stamp a walk continues from after a page (engine/catchup/catchup.go). In a full
 page that is the one ranked limit from the newest down, in any other the least. The
 forms that work while a page is still being read are proved equal to the simple ones.
 */
module Stamps {

  // seconds since the epoch
  type Stamp = int

  datatype Event = Event(id: nat, at: Stamp)

  // what `clear` leaves in a slice
  const NO_EVENT := Event(0, 0)

  function StampsOf(evs: seq<Event>): (s: seq<Stamp>)
    ensures |s| == |evs|
  {
    seq(|evs|, i requires 0 <= i < |evs| => evs[i].at)
  }

  // ---- counting: the reference the sorted forms are judged by ----

  // how many stamps are at b or above
  function AtLeast(s: seq<Stamp>, b: Stamp): (n: nat)
    ensures n <= |s|
  {
    if s == [] then 0
    else AtLeast(s[..|s| - 1], b) + (if s[|s| - 1] >= b then 1 else 0)
  }

  lemma {:induction false} AtLeastConcat(s: seq<Stamp>, t: seq<Stamp>, b: Stamp)
    ensures AtLeast(s + t, b) == AtLeast(s, b) + AtLeast(t, b)
  {
    if t == [] {
      assert s + t == s;
    } else {
      AtLeastConcat(s, t[..|t| - 1], b);
      assert (s + t)[..|s + t| - 1] == s + t[..|t| - 1];
    }
  }

  lemma {:induction false} AtLeastAntitone(s: seq<Stamp>, b: Stamp, c: Stamp)
    requires b <= c
    ensures AtLeast(s, c) <= AtLeast(s, b)
  {
    if s != [] { AtLeastAntitone(s[..|s| - 1], b, c); }
  }

  lemma {:induction false} AtLeastAll(s: seq<Stamp>, b: Stamp)
    requires forall i :: 0 <= i < |s| ==> s[i] >= b
    ensures AtLeast(s, b) == |s|
  {
    if s != [] { AtLeastAll(s[..|s| - 1], b); }
  }

  lemma {:induction false} AtLeastNone(s: seq<Stamp>, b: Stamp)
    requires forall i :: 0 <= i < |s| ==> s[i] < b
    ensures AtLeast(s, b) == 0
  {
    if s != [] { AtLeastNone(s[..|s| - 1], b); }
  }

  // one stamp is enough to be counted, or to leave the count short
  lemma {:induction false} AtLeastHit(s: seq<Stamp>, i: nat, b: Stamp)
    requires i < |s|
    ensures s[i] >= b ==> AtLeast(s, b) >= 1
    ensures s[i] < b ==> AtLeast(s, b) < |s|
  {
    if i < |s| - 1 { AtLeastHit(s[..|s| - 1], i, b); }
  }

  // ---- sorting, as slices.Sort leaves it ----

  ghost predicate Ascending(s: seq<Stamp>) {
    forall i, j :: 0 <= i < j < |s| ==> s[i] <= s[j]
  }

  // where x goes in s: after everything no newer than it
  function Insert(s: seq<Stamp>, x: Stamp): (r: seq<Stamp>)
    ensures |r| == |s| + 1
  {
    if s == [] || s[|s| - 1] <= x then s + [x]
    else Insert(s[..|s| - 1], x) + [s[|s| - 1]]
  }

  lemma {:induction false} InsertAscends(s: seq<Stamp>, x: Stamp)
    requires Ascending(s)
    ensures Ascending(Insert(s, x))
    ensures s != [] ==> Insert(s, x)[|s|] == if s[|s| - 1] <= x then x else s[|s| - 1]
  {
    if s != [] && s[|s| - 1] > x {
      InsertAscends(s[..|s| - 1], x);
    }
  }

  lemma {:induction false} InsertCounts(s: seq<Stamp>, x: Stamp, b: Stamp)
    ensures AtLeast(Insert(s, x), b) == AtLeast(s, b) + AtLeast([x], b)
  {
    if s == [] || s[|s| - 1] <= x {
      AtLeastConcat(s, [x], b);
    } else {
      InsertCounts(s[..|s| - 1], x, b);
      AtLeastConcat(Insert(s[..|s| - 1], x), [s[|s| - 1]], b);
    }
  }

  function Sort(s: seq<Stamp>): (r: seq<Stamp>)
    ensures |r| == |s|
  {
    if s == [] then [] else Insert(Sort(s[..|s| - 1]), s[|s| - 1])
  }

  lemma {:induction false} SortAscends(s: seq<Stamp>)
    ensures Ascending(Sort(s))
  {
    if s != [] {
      SortAscends(s[..|s| - 1]);
      InsertAscends(Sort(s[..|s| - 1]), s[|s| - 1]);
    }
  }

  // sorting changes no count, so it keeps every stamp as often as it came
  lemma {:induction false} SortCounts(s: seq<Stamp>, b: Stamp)
    ensures AtLeast(Sort(s), b) == AtLeast(s, b)
  {
    if s != [] {
      SortCounts(s[..|s| - 1], b);
      InsertCounts(Sort(s[..|s| - 1]), s[|s| - 1], b);
      assert s == s[..|s| - 1] + [s[|s| - 1]];
      AtLeastConcat(s[..|s| - 1], [s[|s| - 1]], b);
    }
  }

  // in an ascending sequence the count at b tells on which side of place k it falls
  lemma AscendingCount(s: seq<Stamp>, k: nat, b: Stamp)
    requires Ascending(s) && k < |s|
    ensures b <= s[k] ==> AtLeast(s[k..], b) == |s| - k
    ensures b > s[k] ==> AtLeast(s[..k + 1], b) == 0
    ensures AtLeast(s, b) == AtLeast(s[..k], b) + AtLeast(s[k..], b)
    ensures AtLeast(s, b) == AtLeast(s[..k + 1], b) + AtLeast(s[k + 1..], b)
  {
    AtLeastConcat(s[..k], s[k..], b);
    assert s == s[..k] + s[k..];
    AtLeastConcat(s[..k + 1], s[k + 1..], b);
    assert s == s[..k + 1] + s[k + 1..];
    if b <= s[k] { AtLeastAll(s[k..], b); } else { AtLeastNone(s[..k + 1], b); }
  }

  lemma AscendingNth(s: seq<Stamp>, k: nat)
    requires Ascending(s) && k < |s|
    ensures LimitTh(s, |s| - k, s[k])
  {
    AscendingCount(s, k, s[k]);
    AscendingCount(s, k, s[k] + 1);
  }

  // ---- Below ----

  function Below(stamps: seq<Stamp>, limit: int): (low: Stamp)
    ensures stamps == [] ==> low == 0
    ensures stamps != [] ==> LimitTh(stamps, Deciding(stamps, limit), low)
  {
    if stamps == [] then 0
    else
      var s := Sort(stamps);
      NthOfSort(stamps, Deciding(stamps, limit));
      if limit > 0 && |s| >= limit then s[|s| - limit] else s[0]
  }

  // which newest stamp decides: the limit-th of a full answer, the last of any other
  function Deciding(stamps: seq<Stamp>, limit: int): (n: int)
    requires stamps != []
    ensures 1 <= n <= |stamps|
  {
    if 0 < limit <= |stamps| then limit else |stamps|
  }

  // b is the n-th newest of s: at least n stamps reach it, fewer pass it
  ghost predicate LimitTh(s: seq<Stamp>, n: int, b: Stamp) {
    AtLeast(s, b) >= n > AtLeast(s, b + 1)
  }

  // an ascending sequence with the same counts tells the n-th newest
  lemma NthNewest(stamps: seq<Stamp>, s: seq<Stamp>, n: int, b: Stamp)
    requires 1 <= n <= |s| && Ascending(s) && b == s[|s| - n]
    requires AtLeast(s, b) == AtLeast(stamps, b) && AtLeast(s, b + 1) == AtLeast(stamps, b + 1)
    ensures LimitTh(stamps, n, b)
  {
    AscendingNth(s, |s| - n);
  }

  lemma SortedNth(stamps: seq<Stamp>, n: int) returns (b: Stamp)
    requires 1 <= n <= |stamps|
    ensures b == Sort(stamps)[|stamps| - n] && LimitTh(stamps, n, b)
  {
    SortAscends(stamps);
    b := Sort(stamps)[|stamps| - n];
    SortCounts(stamps, b);
    SortCounts(stamps, b + 1);
    NthNewest(stamps, Sort(stamps), n, b);
  }

  lemma NthOfSort(stamps: seq<Stamp>, n: int)
    requires 1 <= n <= |stamps|
    ensures LimitTh(stamps, n, Sort(stamps)[|stamps| - n])
  {
    var b := SortedNth(stamps, n);
  }

  lemma LimitThUnique(s: seq<Stamp>, limit: int, b: Stamp, c: Stamp)
    requires LimitTh(s, limit, b) && LimitTh(s, limit, c)
    ensures b == c
  {
    if b < c { AtLeastAntitone(s, b + 1, c); }
    if c < b { AtLeastAntitone(s, c + 1, b); }
  }

  // two answers that agree on every count up to the limit are walked from the
  // same stamp
  lemma SameCountsSameBelow(s: seq<Stamp>, t: seq<Stamp>, limit: int)
    requires limit > 0 && |s| >= limit && |t| >= limit
    requires forall b :: AtLeast(s, b) >= limit <==> AtLeast(t, b) >= limit
    ensures Below(s, limit) == Below(t, limit)
  {
    LimitThUnique(s, limit, Below(s, limit), Below(t, limit));
  }

  // longer answers never send a walk further down
  lemma MoreNeverLowersBelow(s: seq<Stamp>, t: seq<Stamp>, limit: int)
    requires limit > 0 && |s| >= limit
    ensures Below(s + t, limit) >= Below(s, limit)
  {
    var low := Below(s + t, limit);
    if low < Below(s, limit) {
      AtLeastConcat(s, t, low + 1);
      AtLeastAntitone(s, low + 1, Below(s, limit));
      assert false;
    }
  }

  // ---- Answer: Below of an answer while it comes ----

  // the newest limit stamps of s, which is all Below looks at once s is full
  lemma TailCounts(s: seq<Stamp>, limit: int, b: Stamp)
    requires 0 < limit <= |s|
    ensures AtLeast(Sort(s)[|s| - limit..], b) == if AtLeast(s, b) < limit then AtLeast(s, b) else limit
  {
    SortAscends(s);
    SortCounts(s, b);
    AscendingTail(Sort(s), |s| - limit, b);
  }

  lemma AscendingTail(s: seq<Stamp>, k: nat, b: Stamp)
    requires Ascending(s) && k < |s|
    ensures AtLeast(s[k..], b) == if AtLeast(s, b) < |s| - k then AtLeast(s, b) else |s| - k
  {
    AscendingCount(s, k, b);
    if b > s[k] { AtLeastNone(s[..k], b); }
  }

  class Answer {
    var limit: int
    var stamps: seq<Stamp>
    // every stamp added, in the order it came
    ghost var added: seq<Stamp>

    // what is kept decides every count up to the limit as all that came does
    ghost predicate Valid()
      reads this
    {
      && (limit <= 0 || |added| < limit ==> stamps == added)
      && (limit > 0 ==> |stamps| < 2 * limit && (|stamps| >= limit <==> |added| >= limit))
      && (limit > 0 ==> forall b :: Capped(AtLeast(stamps, b), limit) == Capped(AtLeast(added, b), limit))
    }

    static function Capped(n: nat, limit: int): int { if n < limit then n else limit }

    constructor (limit: int)
      ensures Valid() && added == [] && this.limit == limit
    {
      this.limit := limit;
      stamps := [];
      added := [];
    }

    method Add(ts: Stamp)
      requires Valid()
      modifies this
      ensures Valid() && added == old(added) + [ts] && limit == old(limit)
    {
      forall b ensures AtLeast(stamps + [ts], b) == AtLeast(stamps, b) + AtLeast([ts], b)
               ensures AtLeast(added + [ts], b) == AtLeast(added, b) + AtLeast([ts], b)
      {
        AtLeastConcat(stamps, [ts], b);
        AtLeastConcat(added, [ts], b);
      }
      stamps := stamps + [ts];
      added := added + [ts];
      if limit > 0 && |stamps| >= 2 * limit {
        forall b { TailCounts(stamps, limit, b); }
        stamps := Sort(stamps)[|stamps| - limit..];
      }
    }

    // the walk's start if the answer ended here, from fewer than twice the limit stamps
    method BelowSoFar() returns (low: Stamp)
      requires Valid()
      ensures low == Below(added, limit)
      ensures limit > 0 ==> |stamps| < 2 * limit
    {
      low := Below(stamps, limit);
      if limit > 0 && |stamps| >= limit {
        forall b ensures AtLeast(stamps, b) >= limit <==> AtLeast(added, b) >= limit {
          assert Capped(AtLeast(stamps, b), limit) == Capped(AtLeast(added, b), limit);
        }
        SameCountsSameBelow(stamps, added, limit);
      }
    }
  }

  // ---- Newest: a page keeps the events at its limit-th newest stamp or above ----

  function From(evs: seq<Event>, low: Stamp): (r: seq<Event>) {
    if evs == [] then []
    else From(evs[..|evs| - 1], low) + (if evs[|evs| - 1].at >= low then [evs[|evs| - 1]] else [])
  }

  lemma {:induction false} FromMembers(evs: seq<Event>, low: Stamp, e: Event)
    ensures e in From(evs, low) <==> e in evs && e.at >= low
  {
    if evs != [] {
      FromMembers(evs[..|evs| - 1], low, e);
      assert evs == evs[..|evs| - 1] + [evs[|evs| - 1]];
    }
  }

  function NewestOf(evs: seq<Event>, limit: int): (r: seq<Event>) {
    if limit <= 0 || |evs| <= limit then evs
    else From(evs, Below(StampsOf(evs), limit))
  }

  // trimming adds nothing and drops only what ranks under the limit
  lemma NewestOfMembers(evs: seq<Event>, limit: int, e: Event)
    ensures e in NewestOf(evs, limit) ==> e in evs
    ensures e in evs && e.at >= Below(StampsOf(evs), limit) ==> e in NewestOf(evs, limit)
  {
    if limit > 0 && |evs| > limit { FromMembers(evs, Below(StampsOf(evs), limit), e); }
  }

  lemma StampsOfConcat(a: seq<Event>, b: seq<Event>)
    ensures StampsOf(a + b) == StampsOf(a) + StampsOf(b)
  {
  }

  // dropping what lies below low changes no count from low up
  lemma {:induction false} FromCounts(evs: seq<Event>, low: Stamp, b: Stamp)
    requires low <= b
    ensures AtLeast(StampsOf(From(evs, low)), b) == AtLeast(StampsOf(evs), b)
  {
    if evs != [] {
      var front, last := evs[..|evs| - 1], evs[|evs| - 1];
      FromCounts(front, low, b);
      assert evs == front + [last];
      StampsOfConcat(front, [last]);
      AtLeastConcat(StampsOf(front), StampsOf([last]), b);
      var kept := From(front, low);
      StampsOfConcat(kept, [last]);
      AtLeastConcat(StampsOf(kept), StampsOf([last]), b);
      assert From(evs, low) == kept + (if last.at >= low then [last] else []);
      assert kept + [] == kept;
    }
  }

  lemma {:induction false} FromConcat(a: seq<Event>, b: seq<Event>, low: Stamp)
    ensures From(a + b, low) == From(a, low) + From(b, low)
  {
    if b == [] {
      assert a + b == a;
    } else {
      FromConcat(a, b[..|b| - 1], low);
      assert (a + b)[..|a + b| - 1] == a + b[..|b| - 1];
    }
  }

  lemma {:induction false} FromFrom(evs: seq<Event>, low: Stamp, high: Stamp)
    requires low <= high
    ensures From(From(evs, low), high) == From(evs, high)
  {
    if evs != [] {
      var front, last := evs[..|evs| - 1], evs[|evs| - 1];
      FromFrom(front, low, high);
      FromConcat(From(front, low), [last], high);
      if last.at < low {
        assert From(front, low) + [] == From(front, low);
      }
    }
  }

  // what is walked from does not change when a full page drops its oldest, and
  // stays so as more come
  lemma NewestKeepsBelow(evs: seq<Event>, more: seq<Event>, limit: int)
    requires limit > 0 && |evs| >= limit
    ensures |NewestOf(evs, limit)| >= limit
    ensures Below(StampsOf(NewestOf(evs, limit) + more), limit) == Below(StampsOf(evs + more), limit)
  {
    var low := Below(StampsOf(evs), limit);
    var kept := NewestOf(evs, limit);
    if |evs| > limit {
      FromCounts(evs, low, low);
      var s, t := StampsOf(kept + more), StampsOf(evs + more);
      forall b ensures AtLeast(s, b) >= limit <==> AtLeast(t, b) >= limit {
        StampsOfConcat(kept, more);
        StampsOfConcat(evs, more);
        AtLeastConcat(StampsOf(kept), StampsOf(more), b);
        AtLeastConcat(StampsOf(evs), StampsOf(more), b);
        if b >= low {
          FromCounts(evs, low, b);
        } else {
          AtLeastAntitone(StampsOf(evs), b, low);
          AtLeastAntitone(StampsOf(kept), b, low);
        }
      }
      SameCountsSameBelow(s, t, limit);
    }
  }

  // folding Newest event by event as a page is read is Newest of the whole page
  lemma NewestOfFold(evs: seq<Event>, more: seq<Event>, limit: int)
    ensures NewestOf(NewestOf(evs, limit) + more, limit) == NewestOf(evs + more, limit)
  {
    if limit > 0 && |evs| > limit {
      NewestKeepsBelow(evs, more, limit);
      var low, high := Below(StampsOf(evs), limit), Below(StampsOf(evs + more), limit);
      StampsOfConcat(evs, more);
      MoreNeverLowersBelow(StampsOf(evs), StampsOf(more), limit);
      FromFrom(evs, low, high);
      FromConcat(evs, more, high);
      FromConcat(From(evs, low), more, high);
      if |NewestOf(evs, limit) + more| <= limit {
        assert more == [] && evs + more == evs;
        assert From(evs, low) + more == From(evs, low);
      }
    }
  }

  // moves what stays to the front of the array without changing its order, and clears
  // the rest
  method Newest(evs: array<Event>, limit: int) returns (k: nat)
    modifies evs
    ensures k <= evs.Length
    ensures evs[..k] == NewestOf(old(evs[..]), limit)
    ensures forall i :: k <= i < evs.Length ==> evs[i] == NO_EVENT
  {
    if limit <= 0 || evs.Length <= limit {
      k := evs.Length;
      assert evs[..k] == evs[..];
      return;
    }
    ghost var was := evs[..];
    var low := Below(StampsOf(evs[..]), limit);
    k := 0;
    for i := 0 to evs.Length
      invariant k <= i
      invariant evs[..k] == From(was[..i], low)
      invariant forall j :: i <= j < evs.Length ==> evs[j] == was[j]
    {
      assert was[..i + 1][..i] == was[..i];
      if evs[i].at >= low {
        evs[k] := evs[i];
        k := k + 1;
      }
    }
    assert was[..evs.Length] == was;
    for i := k to evs.Length
      invariant evs[..k] == From(was, low)
      invariant forall j :: k <= j < i ==> evs[j] == NO_EVENT
    {
      evs[i] := NO_EVENT;
    }
  }

  // one page as engine/nostr.go reads it: each event appended, the buffer cut back
  // to the newest, at most READS times the limit read
  const PAGE_READS := 4

  // the buffer after one more event
  lemma NewestOneMore(wire: seq<Event>, read: nat, limit: int)
    requires read < |wire|
    ensures NewestOf(NewestOf(wire[..read], limit) + [wire[read]], limit) == NewestOf(wire[..read + 1], limit)
  {
    NewestOfFold(wire[..read], [wire[read]], limit);
    assert wire[..read] + [wire[read]] == wire[..read + 1];
  }

  lemma NewestSameBelow(evs: seq<Event>, limit: int)
    requires 0 < limit <= |evs|
    ensures Below(StampsOf(NewestOf(evs, limit)), limit) == Below(StampsOf(evs), limit)
  {
    NewestKeepsBelow(evs, [], limit);
    assert NewestOf(evs, limit) + [] == NewestOf(evs, limit) && evs + [] == evs;
  }

  method ReadPage(wire: seq<Event>, limit: int) returns (out: seq<Event>, read: nat)
    ensures read <= |wire|
    ensures out == NewestOf(wire[..read], limit)
    ensures read == |wire| || (limit > 0 && read == limit * PAGE_READS)
    ensures limit > 0 && read >= limit ==> Below(StampsOf(out), limit) == Below(StampsOf(wire[..read]), limit)
  {
    out, read := [], 0;
    while read < |wire|
      invariant read <= |wire|
      invariant out == NewestOf(wire[..read], limit)
      invariant limit > 0 ==> read < limit * PAGE_READS
    {
      NewestOneMore(wire, read, limit);
      out := NewestOf(out + [wire[read]], limit);
      read := read + 1;
      if limit > 0 && read >= limit * PAGE_READS {
        break;
      }
    }
    if limit > 0 && read >= limit { NewestSameBelow(wire[..read], limit); }
  }
}
