/**
 A runner's memory of event ids (engine/seen.go): a ring of those that opened, a ring of
 those that did not, the ones claimed and still in its hands, and the ones it leaves on
 the relay for later.
 */
module SeenSet {
  import opened Stamps

  type ID = nat

  const SEEN_KEEP := 3000
  const SEEN_UNOPENED_KEEP := 500
  const SEEN_HELD_KEEP := 200
  const SEEN_HELD_PER_GROUP := 512
  const SEEN_HELD_MOST := 2000
  const SEEN_HELD_FOR := 14 * 24 * 3600

  // ---- rings of bounded size ----

  // the ids of a ring oldest first, after one more
  function RingAdd(r: seq<ID>, max: nat, id: ID): (r': seq<ID>)
    requires max > 0
    ensures id in r'
    ensures |r| <= max ==> |r'| <= max
  {
    if id in r then r else if |r| < max then r + [id] else r[1..] + [id]
  }

  ghost predicate Distinct<T>(s: seq<T>) {
    forall i, j :: 0 <= i < j < |s| ==> s[i] != s[j]
  }

  function Members<T(==)>(s: seq<T>): set<T> { set x | x in s }

  function RingAddAll(r: seq<ID>, max: nat, ids: seq<ID>): seq<ID>
    requires max > 0
  {
    if ids == [] then r else RingAdd(RingAddAll(r, max, ids[..|ids| - 1]), max, ids[|ids| - 1])
  }

  lemma {:induction false} RingAddAllConcat(r: seq<ID>, max: nat, a: seq<ID>, b: seq<ID>)
    requires max > 0
    ensures RingAddAll(r, max, a + b) == RingAddAll(RingAddAll(r, max, a), max, b)
  {
    if b == [] {
      assert a + b == a;
    } else {
      RingAddAllConcat(r, max, a, b[..|b| - 1]);
      assert (a + b)[..|a + b| - 1] == a + b[..|b| - 1];
    }
  }

  // nothing is in a ring that was not, or was not added
  lemma {:induction false} RingAddAllFrom(r: seq<ID>, max: nat, ids: seq<ID>, id: ID)
    requires max > 0 && id in RingAddAll(r, max, ids)
    ensures id in r || id in ids
  {
    if ids != [] {
      assert ids == ids[..|ids| - 1] + [ids[|ids| - 1]];
      if id != ids[|ids| - 1] { RingAddAllFrom(r, max, ids[..|ids| - 1], id); }
    }
  }

  // a new id stays while fewer than a ring's length come after it
  lemma {:induction false} RingAddAllHas(r: seq<ID>, max: nat, ids: seq<ID>, k: nat)
    requires 0 < max && k < |ids| <= max && ids[k] !in r && Distinct(ids)
    ensures ids[k] in RingAddAll(r, max, ids)
    ensures exists p :: 0 <= p < |RingAddAll(r, max, ids)| && RingAddAll(r, max, ids)[p] == ids[k] && |RingAddAll(r, max, ids)| - p <= |ids| - k
  {
    var front, last := ids[..|ids| - 1], ids[|ids| - 1];
    assert ids == front + [last];
    var ring := RingAddAll(r, max, front);
    if k == |front| {
      if last in ring { RingAddAllFrom(r, max, front, last); }
      assert RingAddAll(r, max, ids)[|RingAddAll(r, max, ids)| - 1] == last;
    } else {
      RingAddAllHas(r, max, front, k);
      var p :| 0 <= p < |ring| && ring[p] == ids[k] && |ring| - p <= |front| - k;
      var next := RingAdd(ring, max, last);
      if last !in ring {
        if |ring| < max { assert next[p] == ids[k]; } else { assert next[p - 1] == ids[k]; }
      }
    }
  }

  // overwriting one place with a new id
  lemma OverwritePlace(s: seq<ID>, i: nat, id: ID)
    requires i < |s| && Distinct(s) && id !in s
    ensures Distinct(s[i := id])
    ensures Members(s[i := id]) == Members(s) - {s[i]} + {id}
  {
    forall x ensures x in s[i := id] <==> (x in s && x != s[i]) || x == id {
      if x in s && x != s[i] {
        var j :| 0 <= j < |s| && s[j] == x;
        assert s[i := id][j] == x;
      }
      assert s[i := id][i] == id;
    }
  }

  // the ring read from its oldest place on
  ghost function Unrolled(s: seq<ID>, next: nat): seq<ID>
    requires next <= |s|
  {
    s[next..] + s[..next]
  }

  // overwriting the oldest place and moving on drops the oldest and adds at the end
  lemma OverwriteOldest(s: seq<ID>, next: nat, id: ID)
    requires next < |s|
    ensures Unrolled(s[next := id], (next + 1) % |s|) == Unrolled(s, next)[1..] + [id]
  {
    if next + 1 < |s| {
      assert (next + 1) % |s| == next + 1;
    } else {
      assert (next + 1) % |s| == 0;
    }
  }

  lemma UnrolledMembers(s: seq<ID>, next: nat, id: ID)
    requires next <= |s|
    ensures id in Unrolled(s, next) <==> id in s
  {
    assert s == s[..next] + s[next..];
  }

  class IdRing {
    const max: nat
    var ids: set<ID>
    var ring: seq<ID>
    var next: nat

    // next is the oldest place once the ring is full
    ghost predicate Valid()
      reads this
    {
      && max > 0 && |ring| <= max
      && (if |ring| < max then next == 0 else next < max)
      && Distinct(ring) && ids == Members(ring)
    }

    // oldest first
    ghost function Contents(): seq<ID>
      reads this
      requires Valid()
    {
      Unrolled(ring, next)
    }

    constructor (max: nat)
      requires max > 0
      ensures Valid() && Contents() == [] && this.max == max
    {
      this.max := max;
      ids, ring, next := {}, [], 0;
    }

    method Has(id: ID) returns (r: bool)
      requires Valid()
      ensures r <==> id in Contents()
    {
      UnrolledMembers(ring, next, id);
      r := id in ids;
    }

    method Add(id: ID)
      requires Valid()
      modifies this
      ensures Valid() && Contents() == RingAdd(old(Contents()), max, id)
    {
      UnrolledMembers(ring, next, id);
      if id in ids { return; }
      ghost var was := Contents();
      if |ring| < max {
        ring := ring + [id];
        assert Unrolled(ring, next) == was + [id];
      } else {
        OverwritePlace(ring, next, id);
        OverwriteOldest(ring, next, id);
        ids := ids - {ring[next]};
        ring := ring[next := id];
        next := (next + 1) % |ring|;
        assert Unrolled(ring, next) == was[1..] + [id];
      }
      ids := ids + {id};
      assert Unrolled(ring, next) == RingAdd(was, max, id);
    }
  }

  // ---- held ids ----

  // held ids are capped per group: a text is a group of its own, a file's slices share
  // its name, which stands here for the hash of it
  datatype Group = Single(id: ID) | Named(name: string)

  function GroupOf(id: ID, name: string): Group { if name == "" then Single(id) else Named(name) }

  // one held id: its stamp, whether it is to be fetched again, its group, and bounds on
  // its arrival at the relay
  datatype HeldAt = HeldAt(at: Stamp, free: bool, group: Group, from: int, until: int)

  function Groups(held: map<ID, HeldAt>): set<Group> { set id | id in held :: held[id].group }

  function InGroup(held: map<ID, HeldAt>, g: Group): set<ID> { set id | id in held && held[id].group == g }

  // the caps leave room for another id in g
  predicate HeldRoom(held: map<ID, HeldAt>, g: Group) {
    && |held| < SEEN_HELD_MOST
    && (if |InGroup(held, g)| > 0 then |InGroup(held, g)| < SEEN_HELD_PER_GROUP else |Groups(held)| < SEEN_HELD_KEEP)
  }

  ghost predicate HeldInCaps(held: map<ID, HeldAt>) {
    && |held| <= SEEN_HELD_MOST && |Groups(held)| <= SEEN_HELD_KEEP
    && forall g :: |InGroup(held, g)| <= SEEN_HELD_PER_GROUP
  }

  lemma GroupsAdd(held: map<ID, HeldAt>, id: ID, h: HeldAt)
    requires id !in held
    ensures Groups(held[id := h]) == Groups(held) + {h.group}
  {
    var held' := held[id := h];
    forall g | g in Groups(held) + {h.group} ensures g in Groups(held') {
      var j := if g == h.group then id else var j :| j in held && held[j].group == g; j;
      assert held'[j].group == g;
    }
    forall g | g in Groups(held') ensures g in Groups(held) + {h.group} {
      var j :| j in held' && held'[j].group == g;
      assert j != id ==> held[j].group == g;
    }
  }

  lemma InGroupAdd(held: map<ID, HeldAt>, id: ID, h: HeldAt, g: Group)
    requires id !in held
    ensures InGroup(held[id := h], g) == InGroup(held, g) + (if g == h.group then {id} else {})
  {
  }

  // an id taken where there was room for it keeps every cap
  lemma HeldRoomKeepsCaps(held: map<ID, HeldAt>, id: ID, h: HeldAt)
    requires HeldInCaps(held) && id !in held && HeldRoom(held, h.group)
    ensures HeldInCaps(held[id := h])
  {
    var held' := held[id := h];
    assert held'.Keys == held.Keys + {id};
    assert |Groups(held')| <= SEEN_HELD_KEEP by {
      GroupsAdd(held, id, h);
      if |InGroup(held, h.group)| > 0 {
        var j :| j in InGroup(held, h.group);
        assert held[j].group == h.group;
        assert Groups(held) + {h.group} == Groups(held);
      }
    }
    forall g ensures |InGroup(held', g)| <= SEEN_HELD_PER_GROUP {
      InGroupAdd(held, id, h, g);
      assert |InGroup(held, g)| <= SEEN_HELD_PER_GROUP;
    }
  }

  // too old for any relay to have it still
  predicate HeldGone(at: Stamp, now: Stamp) { at < now - SEEN_HELD_FOR }

  function PruneHeld(held: map<ID, HeldAt>, now: Stamp): map<ID, HeldAt> {
    map id | id in held && !HeldGone(held[id].at, now) :: held[id]
  }

  // ---- one runner's set ----

  datatype Seen = Seen(path: string, openedIds: seq<ID>, unopenedIds: seq<ID>, queued: set<ID>, held: map<ID, HeldAt>) {

    // nothing known of the id stands against taking it
    predicate Claims(id: ID) {
      id !in openedIds && id !in unopenedIds && !(id in held && !held[id].free) && id !in queued
    }

    function Claim(id: ID): Seen { if Claims(id) then this.(queued := queued + {id}) else this }

    function Release(id: ID): Seen { this.(queued := queued - {id}) }

    function NotOpened(id: ID): Seen {
      Seen(path, openedIds, RingAdd(unopenedIds, SEEN_UNOPENED_KEEP, id), queued - {id}, held - {id})
    }

    function HandedOver(id: ID): Seen {
      Seen(path, RingAdd(openedIds, SEEN_KEEP, id), unopenedIds, queued - {id}, held - {id})
    }

    // whether a hold succeeds: the event is not too old, and is held already or fits
    predicate Holds(id: ID, at: Stamp, name: string, now: Stamp) {
      var kept := PruneHeld(held, now);
      !HeldGone(at, now) && (id in kept || HeldRoom(kept, GroupOf(id, name)))
    }

    function Hold(id: ID, at: Stamp, name: string, now: Stamp, from: int, until: int): Seen {
      var kept := PruneHeld(held, now);
      this.(queued := queued - {id},
            held := if Holds(id, at, name, now) then kept[id := HeldAt(at, false, GroupOf(id, name), from, until)] else kept)
    }

    // "!": every id held is fetched again
    function FreeHeld(): Seen { this.(held := map id | id in held :: held[id].(free := true)) }
  }
}
