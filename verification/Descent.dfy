/**
 How many pages a walk can ask for (engine/catchup/catchup.go): its cursor only goes down,
 to a stamp the page brought or to just under it, so each stamp costs at most two pages.
 */
module Descent {
  import opened Stamps

  // the n-th newest of an answer is one of its stamps
  lemma BelowIsAStamp(s: seq<Stamp>, limit: int)
    requires s != []
    ensures Below(s, limit) in s
  {
    var b := Below(s, limit);
    if b !in s { NoneThere(s, b); }
  }

  lemma {:induction false} NoneThere(s: seq<Stamp>, b: Stamp)
    requires b !in s
    ensures AtLeast(s, b) == AtLeast(s, b + 1)
  {
    if s != [] {
      assert s == s[..|s| - 1] + [s[|s| - 1]];
      NoneThere(s[..|s| - 1], b);
    }
  }

  ghost function Under(stamps: set<Stamp>, u: Stamp): set<Stamp> { set s | s in stamps && s < u }

  // pages still to come from a cursor at u: two for each stamp under it, one for its own
  ghost function PagesFrom(stamps: set<Stamp>, u: Stamp): nat { 2 * |Under(stamps, u)| + (if u in stamps then 1 else 0) }

  lemma Smaller<T>(a: set<T>, b: set<T>)
    requires a <= b
    ensures |a| <= |b|
  {
    assert b == a + (b - a) && a !! (b - a);
  }

  lemma PagesAtMost(stamps: set<Stamp>, u: Stamp)
    ensures PagesFrom(stamps, u) <= 2 * |stamps|
  {
    if u in stamps {
      Smaller(Under(stamps, u) + {u}, stamps);
    } else {
      Smaller(Under(stamps, u), stamps);
    }
  }

  lemma LowerIsFewer(stamps: set<Stamp>, u: Stamp, v: Stamp)
    requires u <= v
    ensures PagesFrom(stamps, u) <= PagesFrom(stamps, v)
    ensures u < v && u in stamps ==> PagesFrom(stamps, u) < PagesFrom(stamps, v)
  {
    if u < v && u in stamps {
      Smaller(Under(stamps, u) + {u}, Under(stamps, v));
    } else {
      Smaller(Under(stamps, u), Under(stamps, v));
    }
  }

  // down to a stamp below, or from a stamp to just under it
  lemma StepIsFewer(stamps: set<Stamp>, low: Stamp, u: Stamp)
    requires low in stamps && low <= u
    ensures PagesFrom(stamps, if low < u then low else u - 1) < PagesFrom(stamps, u)
  {
    if low < u {
      LowerIsFewer(stamps, low, u);
    } else {
      LowerIsFewer(stamps, u - 1, u);
      assert u - 1 !in stamps ==> Under(stamps, u) == Under(stamps, u - 1);
    }
  }
}
