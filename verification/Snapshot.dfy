/**
 The two read-only walks made before a claim: the audit of a tree and the collection of
 its inodes into the snapshot that becomes the journal (audit_tree in
 deploy/storage-inventory.h, collect_nodes in deploy/storage-authority.c).
 */
module Snapshots {
  import opened Common
  import opened Journals
  import opened TagStates
  import opened Census

  /** Realtime and realtime-inherit flags. */
  const REALTIME_FLAGS: bv32 := 0x101

  /** Every inode of a walk in the order in which it is met. */
  function Visits(v: View): (s: seq<View>)
    ensures |s| > 0
    decreases v, 0
  {
    [v] + if IsDir(v.mode) then EntryVisits(v.entries, |v.entries|) else []
  }

  function EntryVisits(entries: seq<View>, n: nat): seq<View>
    requires n <= |entries|
    decreases entries, n
  {
    if n == 0 then [] else EntryVisits(entries, n - 1) + Visits(entries[n - 1])
  }

  predicate PlainFile(v: View) {
    IsDir(v.mode) || (IsReg(v.mode) && v.nlink == 1)
  }

  /** An inode that an audit accepts: on the device, not the other root, without project. */
  predicate Auditable(v: View, device: nat, otherRoot: uint64) {
    !v.queryFails && v.device == device && v.ino != otherRoot && PlainFile(v) && v.project == 0
  }

  predicate Collectable(v: View) {
    !v.queryFails && PlainFile(v) && v.project == 0 && v.xflags & REALTIME_FLAGS == 0
  }

  /** Every inode of the walk satisfies `ok`, every entry opens, and nothing is too deep. */
  predicate WalkSatisfies(v: View, depth: nat, ok: View -> bool)
    decreases v, 0
  {
    depth <= MAX_DEPTH && ok(v) && (IsDir(v.mode) ==> !v.readFails && EntriesSatisfy(v.entries, |v.entries|, depth, ok))
  }

  predicate EntriesSatisfy(entries: seq<View>, n: nat, depth: nat, ok: View -> bool)
    requires n <= |entries|
    decreases entries, n
  {
    n == 0 || (EntriesSatisfy(entries, n - 1, depth, ok) && entries[n - 1].opens
               && WalkSatisfies(entries[n - 1], depth + 1, ok))
  }

  lemma {:induction false} EntriesSatisfyShrink(entries: seq<View>, n: nat, m: nat, depth: nat, ok: View -> bool)
    requires n <= m <= |entries| && EntriesSatisfy(entries, m, depth, ok)
    ensures EntriesSatisfy(entries, n, depth, ok)
  {
    if n < m {
      EntriesSatisfyShrink(entries, n, m - 1, depth, ok);
    }
  }

  lemma {:induction false} EntryVisitsGrow(entries: seq<View>, n: nat, m: nat)
    requires n <= m <= |entries|
    ensures |EntryVisits(entries, n)| <= |EntryVisits(entries, m)|
  {
    if n < m {
      EntryVisitsGrow(entries, n, m - 1);
    }
  }

  /** The walk of a directory extends by one entry, and accepts all entries only if it accepts the next. */
  lemma NextEntryVisits(entries: seq<View>, n: nat, depth: nat, ok: View -> bool)
    requires n < |entries|
    ensures EntryVisits(entries, n + 1) == EntryVisits(entries, n) + Visits(entries[n])
    ensures |EntryVisits(entries, n + 1)| <= |EntryVisits(entries, |entries|)|
    ensures EntriesSatisfy(entries, n + 1, depth, ok) <==>
              EntriesSatisfy(entries, n, depth, ok) && entries[n].opens && WalkSatisfies(entries[n], depth + 1, ok)
    ensures EntriesSatisfy(entries, |entries|, depth, ok) ==> EntriesSatisfy(entries, n + 1, depth, ok)
  {
    hide WalkSatisfies, Visits;
    EntryVisitsGrow(entries, n + 1, |entries|);
    if EntriesSatisfy(entries, |entries|, depth, ok) {
      EntriesSatisfyShrink(entries, n + 1, |entries|, depth, ok);
    }
  }

  /** audit_tree: accepts exactly the clean trees that stay within the inode limit. */
  method AuditTree(v: View, device: nat, otherRoot: uint64, depth: nat, count0: nat) returns (r: Verdict, count: nat)
    requires count0 <= MAX_INODES
    ensures r.Passed? <==> WalkSatisfies(v, depth, x => Auditable(x, device, otherRoot)) &&
                           count0 + |Visits(v)| <= MAX_INODES
    ensures r.Passed? ==> count == count0 + |Visits(v)|
    decreases v, 1
  {
    count := count0 + 1;
    if depth > MAX_DEPTH || count > MAX_INODES {
      return Refused("scan-limit"), count;
    }
    if !Auditable(v, device, otherRoot) {
      return Refused("tree-query"), count;
    }
    if !IsDir(v.mode) {
      return Passed, count;
    }
    r, count := AuditEntries(v.entries, device, otherRoot, depth, count);
    if r.Passed? && v.readFails {
      return Refused("tree-query"), count;
    }
  }

  method AuditEntries(entries: seq<View>, device: nat, otherRoot: uint64, depth: nat, count0: nat)
    returns (r: Verdict, count: nat)
    requires count0 <= MAX_INODES
    ensures r.Passed? <==> EntriesSatisfy(entries, |entries|, depth, x => Auditable(x, device, otherRoot)) &&
                           count0 + |EntryVisits(entries, |entries|)| <= MAX_INODES
    ensures r.Passed? ==> count == count0 + |EntryVisits(entries, |entries|)|
    decreases entries, 0
  {
    count := count0;
    ghost var ok := x => Auditable(x, device, otherRoot);
    assert EntriesSatisfy(entries, 0, depth, ok) && EntryVisits(entries, 0) == [];
    hide *;
    for n := 0 to |entries|
      invariant EntriesSatisfy(entries, n, depth, ok)
      invariant count == count0 + |EntryVisits(entries, n)| <= MAX_INODES
    {
      NextEntryVisits(entries, n, depth, ok);
      if !entries[n].opens {
        return Refused("tree-query"), count;
      }
      r, count := AuditTree(entries[n], device, otherRoot, depth + 1, count);
      if r.Refused? {
        return;
      }
    }
    return Passed, count;
  }

  function NodeOf(v: View, tree: uint32): Node {
    Node(v.ino, v.generation, v.xflags, v.mode, tree)
  }

  function NodesOf(visits: seq<View>, tree: uint32): (nodes: seq<Node>)
    ensures |nodes| == |visits|
  {
    seq(|visits|, i requires 0 <= i < |visits| => NodeOf(visits[i], tree))
  }

  lemma NodesOfAppend(a: seq<View>, b: seq<View>, tree: uint32)
    ensures NodesOf(a + b, tree) == NodesOf(a, tree) + NodesOf(b, tree)
  {
  }

  /** The snapshot buffer filled by collect_nodes. */
  class Snapshot {
    var nodes: seq<Node>

    constructor ()
      ensures nodes == []
    {
      nodes := [];
    }

    /** collect_nodes: appends exactly the inodes of the walk, in order. */
    method CollectNodes(v: View, tree: uint32, depth: nat) returns (r: Verdict)
      requires |nodes| <= PLAN_MAX_NODES
      modifies this
      ensures |nodes| <= PLAN_MAX_NODES
      ensures r.Passed? <==> WalkSatisfies(v, depth, Collectable) && |old(nodes)| + |Visits(v)| <= PLAN_MAX_NODES
      ensures r.Passed? ==> nodes == old(nodes) + NodesOf(Visits(v), tree)
      decreases v, 1
    {
      if depth > MAX_DEPTH || |nodes| == PLAN_MAX_NODES {
        return Refused("plan-limit");
      }
      if !Collectable(v) {
        return Refused("tree-changed");
      }
      ghost var before := nodes;
      nodes := nodes + [NodeOf(v, tree)];
      if !IsDir(v.mode) {
        assert Visits(v) == [v];
        return Passed;
      }
      NodesOfAppend([v], EntryVisits(v.entries, |v.entries|), tree);
      r := CollectEntries(v.entries, tree, depth);
      assert (before + [NodeOf(v, tree)]) + NodesOf(EntryVisits(v.entries, |v.entries|), tree) ==
             before + ([NodeOf(v, tree)] + NodesOf(EntryVisits(v.entries, |v.entries|), tree));
      if r.Passed? && v.readFails {
        return Refused("plan-query");
      }
    }

    method CollectEntries(entries: seq<View>, tree: uint32, depth: nat) returns (r: Verdict)
      requires |nodes| <= PLAN_MAX_NODES
      modifies this
      ensures |nodes| <= PLAN_MAX_NODES
      ensures r.Passed? <==> EntriesSatisfy(entries, |entries|, depth, Collectable) &&
                             |old(nodes)| + |EntryVisits(entries, |entries|)| <= PLAN_MAX_NODES
      ensures r.Passed? ==> nodes == old(nodes) + NodesOf(EntryVisits(entries, |entries|), tree)
      decreases entries, 0
    {
      ghost var before := nodes;
      assert EntriesSatisfy(entries, 0, depth, Collectable) && EntryVisits(entries, 0) == [];
      assert NodesOf([], tree) == [];
      hide *;
      for n := 0 to |entries|
        invariant EntriesSatisfy(entries, n, depth, Collectable)
        invariant nodes == before + NodesOf(EntryVisits(entries, n), tree) && |nodes| <= PLAN_MAX_NODES
      {
        NextEntryVisits(entries, n, depth, Collectable);
        NodesOfAppend(EntryVisits(entries, n), Visits(entries[n]), tree);
        if !entries[n].opens {
          return Refused("tree-changed");
        }
        r := CollectNodes(entries[n], tree, depth + 1);
        if r.Refused? {
          return;
        }
        AppendAssociates(before, NodesOf(EntryVisits(entries, n), tree), NodesOf(Visits(entries[n]), tree));
      }
      return Passed;
    }
  }
}
