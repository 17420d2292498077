/**
 The open-addressing set of project identifiers filled by the native census
 (deploy/storage-inventory.h), and the ordered list printed from it.
 */
module ProjectSets {
  import opened Common

  const MAX_PROJECTS: nat := 65536
  const HASH_SLOTS: nat := 131072

  /** Multiplicative hash in 32-bit arithmetic, masked to a slot number. */
  function HomeSlot(id: uint32): (slot: nat)
    ensures slot < HASH_SLOTS
  {
    (id * 2654435761 % 0x1_0000_0000) % HASH_SLOTS
  }

  function NextSlot(slot: nat): (next: nat)
    requires slot < HASH_SLOTS
    ensures next < HASH_SLOTS
  {
    if slot + 1 == HASH_SLOTS then 0 else slot + 1
  }

  /** The slot visited after `step` probes for `id`. */
  function SlotAt(id: uint32, step: nat): (slot: nat)
    requires step < HASH_SLOTS
    ensures slot < HASH_SLOTS
  {
    var s := HomeSlot(id) + step;
    if s < HASH_SLOTS then s else s - HASH_SLOTS
  }

  ghost function Occupied(slots: seq<uint32>): set<int> {
    set i | 0 <= i < |slots| && slots[i] != 0
  }

  ghost function MembersOf(slots: seq<uint32>): set<uint32> {
    set i | 0 <= i < |slots| && slots[i] != 0 :: slots[i]
  }

  /** Every slot a probe for `id` passes before `step` is in use. */
  ghost predicate Unbroken(slots: seq<uint32>, id: uint32, step: nat)
    requires |slots| == HASH_SLOTS && step < HASH_SLOTS
  {
    forall k: nat | k < step :: slots[SlotAt(id, k)] != 0
  }

  ghost predicate Reachable(slots: seq<uint32>, i: nat)
    requires |slots| == HASH_SLOTS && i < HASH_SLOTS
  {
    exists step: nat :: step < HASH_SLOTS && SlotAt(slots[i], step) == i && Unbroken(slots, slots[i], step)
  }

  ghost predicate WellFormed(slots: seq<uint32>, count: nat) {
    && |slots| == HASH_SLOTS
    && count == |Occupied(slots)| <= MAX_PROJECTS
    && (forall i, j | 0 <= i < j < HASH_SLOTS && slots[i] != 0 :: slots[i] != slots[j])
    && (forall i | 0 <= i < HASH_SLOTS && slots[i] != 0 :: Reachable(slots, i))
  }

  /** A full turn of probes visits every slot. */
  lemma ProbesCoverTable(id: uint32, i: nat) returns (step: nat)
    requires i < HASH_SLOTS
    ensures step < HASH_SLOTS && SlotAt(id, step) == i
  {
    var home := HomeSlot(id);
    step := if i >= home then i - home else i + HASH_SLOTS - home;
  }

  /** Half of the table is always free, so no probe can meet only used slots. */
  lemma TableHasRoom(slots: seq<uint32>, count: nat, id: uint32)
    requires WellFormed(slots, count)
    ensures exists step: nat :: step < HASH_SLOTS && slots[SlotAt(id, step)] == 0
  {
    if forall i | 0 <= i < HASH_SLOTS :: slots[i] != 0 {
      assert Occupied(slots) == Range(HASH_SLOTS);
      RangeSize(HASH_SLOTS);
    }
    var i :| 0 <= i < HASH_SLOTS && slots[i] == 0;
    var step := ProbesCoverTable(id, i);
  }

  /** An identifier in the table is met before any free slot of its path. */
  lemma PresentBeforeFree(slots: seq<uint32>, count: nat, id: uint32, step: nat)
    requires WellFormed(slots, count) && id != 0 && step < HASH_SLOTS
    requires forall k: nat | k < step :: slots[SlotAt(id, k)] != id
    ensures id in MembersOf(slots) ==> slots[SlotAt(id, step)] != 0
  {
    if id in MembersOf(slots) {
      var i :| 0 <= i < HASH_SLOTS && slots[i] == id;
      assert Reachable(slots, i);
    }
  }

  /** Filling a free slot breaks no path. */
  lemma InsertKeepsReachable(slots: seq<uint32>, i: nat, at: nat, id: uint32)
    requires |slots| == HASH_SLOTS && i < HASH_SLOTS && at < HASH_SLOTS && i != at
    requires id != 0 && Reachable(slots, i)
    ensures Reachable(slots[at := id], i)
  {
    var after := slots[at := id];
    var s: nat :| s < HASH_SLOTS && SlotAt(slots[i], s) == i && Unbroken(slots, slots[i], s);
    assert Unbroken(after, after[i], s);
  }

  lemma InsertIsReachable(slots: seq<uint32>, id: uint32, step: nat)
    requires |slots| == HASH_SLOTS && step < HASH_SLOTS && Unbroken(slots, id, step)
    requires id != 0 && slots[SlotAt(id, step)] == 0
    ensures Reachable(slots[SlotAt(id, step) := id], SlotAt(id, step))
  {
    var at := SlotAt(id, step);
    var after := slots[at := id];
    forall k: nat | k < step
      ensures after[SlotAt(id, k)] != 0
    {
      assert slots[SlotAt(id, k)] != 0;
    }
    assert after[at] == id && SlotAt(after[at], step) == at && Unbroken(after, after[at], step);
  }

  lemma InsertAddsMember(slots: seq<uint32>, at: nat, id: uint32)
    requires at < |slots| && slots[at] == 0 && id != 0
    ensures MembersOf(slots[at := id]) == MembersOf(slots) + {id}
    ensures Occupied(slots[at := id]) == Occupied(slots) + {at}
  {
    var after := slots[at := id];
    assert after[at] == id;
    assert forall i | 0 <= i < |slots| && i != at :: after[i] == slots[i];
  }

  lemma InsertKeepsWellFormed(slots: seq<uint32>, count: nat, id: uint32, step: nat)
    requires WellFormed(slots, count) && count < MAX_PROJECTS && id != 0 && step < HASH_SLOTS
    requires Unbroken(slots, id, step) && slots[SlotAt(id, step)] == 0
    requires id !in MembersOf(slots)
    ensures WellFormed(slots[SlotAt(id, step) := id], count + 1)
    ensures MembersOf(slots[SlotAt(id, step) := id]) == MembersOf(slots) + {id}
  {
    var at := SlotAt(id, step);
    var after := slots[at := id];
    InsertAddsMember(slots, at, id);
    assert forall k | 0 <= k < HASH_SLOTS && slots[k] != 0 :: slots[k] in MembersOf(slots);
    InsertIsReachable(slots, id, step);
    hide MembersOf, Reachable, Unbroken, SlotAt;
    AddOneSize(Occupied(slots), at);
    forall i | 0 <= i < HASH_SLOTS && after[i] != 0 && i != at
      ensures Reachable(after, i)
    {
      InsertKeepsReachable(slots, i, at, id);
    }
  }

  /** The used slots among the first n, in slot order. */
  ghost function UsedPrefix(slots: seq<uint32>, n: nat): seq<uint32>
    requires n <= |slots|
  {
    if n == 0 then []
    else UsedPrefix(slots, n - 1) + (if slots[n - 1] != 0 then [slots[n - 1]] else [])
  }

  lemma MembersStep(slots: seq<uint32>, n: nat)
    requires n < |slots|
    ensures MembersOf(slots[..n + 1]) == MembersOf(slots[..n]) + if slots[n] != 0 then {slots[n]} else {}
  {
    var shorter, longer := slots[..n], slots[..n + 1];
    assert forall i | 0 <= i < n :: longer[i] == shorter[i];
    assert longer[n] == slots[n];
  }

  lemma {:induction false} UsedPrefixMembers(slots: seq<uint32>, n: nat)
    requires forall i, j | 0 <= i < j < |slots| && slots[i] != 0 :: slots[i] != slots[j]
    requires n <= |slots|
    ensures Distinct(UsedPrefix(slots, n)) && 0 !in UsedPrefix(slots, n)
    ensures Elements(UsedPrefix(slots, n)) == MembersOf(slots[..n])
  {
    if n > 0 {
      UsedPrefixMembers(slots, n - 1);
      MembersStep(slots, n - 1);
      var front, last := UsedPrefix(slots, n - 1), slots[n - 1];
      if last != 0 {
        assert last !in MembersOf(slots[..n - 1]);
        assert Elements(front + [last]) == Elements(front) + {last};
      }
    }
  }

  lemma {:induction false} UsedPrefixLength(slots: seq<uint32>, n: nat)
    requires n <= |slots|
    ensures |UsedPrefix(slots, n)| == |Occupied(slots[..n])|
  {
    if n == 0 {
      assert Occupied(slots[..0]) == {};
    } else {
      UsedPrefixLength(slots, n - 1);
      var shorter, longer := slots[..n - 1], slots[..n];
      assert forall i | 0 <= i < n - 1 :: longer[i] == shorter[i];
      assert Occupied(longer) == Occupied(shorter) + (if slots[n - 1] != 0 then {n - 1} else {});
      AddOneSize(Occupied(shorter), n - 1);
    }
  }

  /** The table holds as many identifiers as it has used slots. */
  lemma MemberCount(slots: seq<uint32>, count: nat)
    requires WellFormed(slots, count)
    ensures |MembersOf(slots)| == count
  {
    assert slots[..HASH_SLOTS] == slots;
    UsedPrefixMembers(slots, HASH_SLOTS);
    UsedPrefixLength(slots, HASH_SLOTS);
    DistinctSize(UsedPrefix(slots, HASH_SLOTS));
  }

  class ProjectSet {
    const slots: array<uint32>
    var count: nat

    ghost predicate Valid()
      reads this, slots
    {
      WellFormed(slots[..], count)
    }

    ghost function Members(): set<uint32>
      reads slots
    {
      MembersOf(slots[..])
    }

    constructor ()
      ensures Valid() && fresh(slots) && Members() == {} && count == 0
    {
      slots := new uint32[HASH_SLOTS](_ => 0);
      count := 0;
      new;
      assert Occupied(slots[..]) == {};
    }

    /** The probe loop: stops on the identifier or on the free slot it belongs in. */
    method Probe(id: uint32) returns (slot: nat, ghost step: nat)
      requires Valid() && id != 0
      ensures step < HASH_SLOTS && slot == SlotAt(id, step)
      ensures Unbroken(slots[..], id, step)
      ensures slots[slot] == 0 || slots[slot] == id
      ensures slots[slot] == id <==> id in Members()
    {
      ghost var table := slots[..];
      TableHasRoom(table, count, id);
      ghost var room: nat :| room < HASH_SLOTS && table[SlotAt(id, room)] == 0;
      slot, step := HomeSlot(id), 0;
      while slots[slot] != 0 && slots[slot] != id
        invariant step <= room && slot == SlotAt(id, step)
        invariant forall k: nat | k < step :: table[SlotAt(id, k)] != 0 && table[SlotAt(id, k)] != id
        decreases room - step
      {
        slot, step := NextSlot(slot), step + 1;
      }
      PresentBeforeFree(table, count, id, step);
      assert table[slot] != 0 ==> table[slot] in MembersOf(table);
    }

    /** add_project: zero is accepted and ignored; a duplicate is never stored. */
    method AddProject(id: uint32) returns (ok: bool)
      requires Valid()
      modifies this`count, slots
      ensures Valid()
      ensures ok <==> id == 0 || |old(Members()) + {id}| <= MAX_PROJECTS
      ensures Members() == if ok && id != 0 then old(Members()) + {id} else old(Members())
      ensures count == |Members()|
    {
      ghost var table := slots[..];
      MemberCount(table, count);
      if id == 0 {
        return true;
      }
      ghost var step;
      var slot;
      slot, step := Probe(id);
      if slots[slot] == id {
        assert MembersOf(table) + {id} == MembersOf(table);
        return true;
      }
      if count == MAX_PROJECTS {
        return false;
      }
      InsertKeepsWellFormed(table, count, id, step);
      slots[slot] := id;
      count := count + 1;
      assert slots[..] == table[slot := id];
      return true;
    }

    /** The inventory's pass over the table, before the C library sorts the list. */
    method Collect() returns (ids: seq<uint32>)
      requires Valid()
      ensures Distinct(ids) && 0 !in ids
      ensures Elements(ids) == Members() && |ids| == count
    {
      ghost var table := slots[..];
      ids := [];
      for slot := 0 to HASH_SLOTS
        invariant ids == UsedPrefix(table, slot)
      {
        if slots[slot] != 0 {
          ids := ids + [slots[slot]];
        }
      }
      UsedPrefixMembers(table, HASH_SLOTS);
      assert table[..HASH_SLOTS] == table;
      MemberCount(table, count);
      DistinctSize(ids);
    }
  }

  ghost predicate StrictlyIncreasing(ids: seq<uint32>) {
    forall i, j | 0 <= i < j < |ids| :: ids[i] < ids[j]
  }

  /** Whatever sorted rearrangement the C library produces of the collected
      identifiers is strictly increasing, without zero, and lists the same set. */
  lemma SortedCensusIsStrict(ids: seq<uint32>, sorted: seq<uint32>)
    requires Distinct(ids) && 0 !in ids
    requires multiset(sorted) == multiset(ids)
    requires forall i, j | 0 <= i < j < |sorted| :: sorted[i] <= sorted[j]
    ensures StrictlyIncreasing(sorted) && 0 !in sorted
    ensures Elements(sorted) == Elements(ids) && |sorted| == |ids|
  {
    assert |multiset(sorted)| == |sorted| && |multiset(ids)| == |ids|;
    forall x
      ensures x in sorted <==> x in ids
    {
      assert x in multiset(sorted) <==> x in sorted;
      assert x in multiset(ids) <==> x in ids;
    }
    forall i, j | 0 <= i < j < |sorted|
      ensures sorted[i] < sorted[j]
    {
      if sorted[i] == sorted[j] {
        Repeated(sorted, i, j);
        NoRepeats(ids, sorted[i]);
      }
    }
  }

  /** The Go side's pass over the printed list (cmd/worker/quota_registry.go). */
  method CheckCensusIds(ids: seq<uint32>) returns (ok: bool)
    ensures ok <==> |ids| <= MAX_PROJECTS && StrictlyIncreasing(ids) && 0 !in ids
  {
    if |ids| > MAX_PROJECTS {
      return false;
    }
    var previous: uint32 := 0;
    for n := 0 to |ids|
      invariant previous == if n == 0 then 0 else ids[n - 1]
      invariant StrictlyIncreasing(ids[..n]) && 0 !in ids[..n]
      invariant forall k | 0 <= k < n :: ids[k] <= previous
    {
      if ids[n] == 0 || ids[n] <= previous {
        assert ids[n] == 0 || (n > 0 && ids[n] <= ids[n - 1]);
        return false;
      }
      previous := ids[n];
    }
    assert ids[..|ids|] == ids;
    return true;
  }
}
