/**
 The disk of a tagging run (deploy/storage-tagging.h): attributes that may be lost until they
 are synced, what runs and crashes may do to them, and the same trees seen through them.
 */
module TagDisks {
  import opened Common
  import opened Journals
  import opened Pinning
  import opened TagStates
  import opened Census
  import opened Ownership

  /** The quota attributes of one inode. */
  datatype Attr = Attr(project: uint32, xflags: bv32)

  type Attrs = map<uint64, Attr>

  // ---- What a run may do to the disk ----

  function TaggedAttr(j: JournalFile, n: Node): Attr {
    Attr(j.header.project, TaggedFlags(n))
  }

  predicate UntouchedAttr(n: Node, a: Attr) {
    Untouched(n, a.project, a.xflags)
  }

  /** Some journal node records this inode with attributes `a`, and `b` is its tagged form. */
  ghost predicate TaggedFrom(j: JournalFile, ino: uint64, a: Attr, b: Attr) {
    exists i :: 0 <= i < |j.nodes| && j.nodes[i].inode == ino && UntouchedAttr(j.nodes[i], a)
      && b == TaggedAttr(j, j.nodes[i])
  }

  /** From `a` to `b` nothing happened but complete tagging of untouched journal inodes. */
  ghost predicate Advanced(j: JournalFile, a: Attrs, b: Attrs) {
    a.Keys == b.Keys && forall ino | ino in a :: b[ino] == a[ino] || TaggedFrom(j, ino, a[ino], b[ino])
  }

  lemma AdvancedTransitive(j: JournalFile, a: Attrs, b: Attrs, c: Attrs)
    requires j.header.project != 0 && Advanced(j, a, b) && Advanced(j, b, c)
    ensures Advanced(j, a, c)
  {
    forall ino | ino in a
      ensures c[ino] == a[ino] || TaggedFrom(j, ino, a[ino], c[ino])
    {
      assert b[ino] != a[ino] ==> b[ino].project == j.header.project;
    }
  }

  ghost predicate AllTagged(j: JournalFile, a: Attrs) {
    forall i | 0 <= i < |j.nodes| :: j.nodes[i].inode in a && a[j.nodes[i].inode] == TaggedAttr(j, j.nodes[i])
  }

  /** One atomic tagging of the whole journal. */
  ghost function TagEverything(j: JournalFile, a: Attrs): Attrs
    requires DistinctInodes(j.nodes)
  {
    map ino | ino in a ::
      if exists i :: 0 <= i < |j.nodes| && j.nodes[i].inode == ino && UntouchedAttr(j.nodes[i], a[ino])
      then var i :| 0 <= i < |j.nodes| && j.nodes[i].inode == ino && UntouchedAttr(j.nodes[i], a[ino]);
           TaggedAttr(j, j.nodes[i])
      else a[ino]
  }

  /** Reaching "all tagged" by any advances is the same as tagging atomically. */
  lemma AdvancesReachAtomicTagging(j: JournalFile, a: Attrs, b: Attrs)
    requires Ordered(j) && Advanced(j, a, b) && AllTagged(j, b)
    ensures b == TagEverything(j, a)
  {
    forall ino | ino in a
      ensures b[ino] == TagEverything(j, a)[ino]
    {
      if i :| 0 <= i < |j.nodes| && j.nodes[i].inode == ino && UntouchedAttr(j.nodes[i], a[ino]) {
        assert b[ino] == TaggedAttr(j, j.nodes[i]);
      }
    }
  }

  // ---- Runs and crashes ----

  /** `live` is what running programs see; `durable` is what survives a crash. */
  datatype Disk = Disk(live: Attrs, durable: Attrs)

  ghost predicate Behind(j: JournalFile, d: Disk) {
    Advanced(j, d.durable, d.live)
  }

  /** A crash keeps or loses each unsynced change independently. */
  ghost predicate CrashStep(a: Disk, b: Disk) {
    && b.live == b.durable && b.live.Keys == a.live.Keys
    && forall ino | ino in a.live && ino in a.durable :: b.live[ino] == a.live[ino] || b.live[ino] == a.durable[ino]
  }

  /** The contract of TagData below, as a step. */
  ghost predicate RunStep(j: JournalFile, a: Disk, b: Disk) {
    Advanced(j, a.live, b.live) && Advanced(j, a.durable, b.durable) && Behind(j, b)
  }

  ghost predicate History(j: JournalFile, disks: seq<Disk>) {
    |disks| > 0 && forall k | 0 <= k < |disks| - 1 ::
        RunStep(j, disks[k], disks[k + 1]) || CrashStep(disks[k], disks[k + 1])
  }

  /** After any number of runs and crashes every inode is as it was at first or completely
      tagged from there, and nothing outside the journal has changed. */
  lemma {:induction false} CrashesLeaveNothingHalfTagged(j: JournalFile, origin: Attrs, disks: seq<Disk>)
    requires j.header.project != 0 && History(j, disks) && disks[0] == Disk(origin, origin)
    ensures Advanced(j, origin, disks[|disks| - 1].live)
    ensures Advanced(j, origin, disks[|disks| - 1].durable)
    ensures Behind(j, disks[|disks| - 1])
  {
    if |disks| > 1 {
      var front := disks[..|disks| - 1];
      assert forall k | 0 <= k < |front| :: front[k] == disks[k];
      CrashesLeaveNothingHalfTagged(j, origin, front);
      var a, b := disks[|disks| - 2], disks[|disks| - 1];
      assert RunStep(j, a, b) || CrashStep(a, b);
      if RunStep(j, a, b) {
        AdvancedTransitive(j, origin, a.live, b.live);
        AdvancedTransitive(j, origin, a.durable, b.durable);
      }
    }
  }

  /** Crash-and-retry refines one atomic tagging: whenever a history ends with every node
      tagged, the disk is exactly what a single uninterrupted tagging of the original makes. */
  lemma RetryRefinesAtomicTagging(j: JournalFile, origin: Attrs, disks: seq<Disk>)
    requires Ordered(j) && History(j, disks) && disks[0] == Disk(origin, origin)
    requires AllTagged(j, disks[|disks| - 1].live)
    ensures disks[|disks| - 1].live == TagEverything(j, origin)
  {
    CrashesLeaveNothingHalfTagged(j, origin, disks);
    AdvancesReachAtomicTagging(j, origin, disks[|disks| - 1].live);
  }

  // ---- Trees seen through the disk ----

  /** The same directory tree as observed with the attributes now on the disk. */
  function Look(v: View, a: Attrs): View {
    var entries := seq(|v.entries|, i requires 0 <= i < |v.entries| => Look(v.entries[i], a));
    if v.ino in a then v.(project := a[v.ino].project, xflags := a[v.ino].xflags, entries := entries)
    else v.(queryFails := true, entries := entries)
  }

  /** Same nodes in the same order, whatever project is seen on them. */
  ghost predicate SameNodes(a: seq<Mark>, b: seq<Mark>) {
    |a| == |b| && forall k | 0 <= k < |a| :: a[k].index == b[k].index
  }

  ghost predicate AllKnown(marks: seq<Mark>) {
    forall k | 0 <= k < |marks| :: marks[k].index >= 0
  }

  lemma LookKeepsIndex(j: JournalFile, tree: uint32, v: View, a: Attrs, b: Attrs)
    requires Ordered(j) && Advanced(j, a, b) && v.ino in a
    requires VisitIndex(j, tree, Look(v, a)) >= 0
    ensures VisitIndex(j, tree, Look(v, b)) == VisitIndex(j, tree, Look(v, a))
  {
    var i := VisitIndex(j, tree, Look(v, a));
    if b[v.ino] != a[v.ino] {
      var k :| 0 <= k < |j.nodes| && j.nodes[k].inode == v.ino && UntouchedAttr(j.nodes[k], a[v.ino])
        && b[v.ino] == TaggedAttr(j, j.nodes[k]);
      assert k == i;
    }
  }

  lemma {:induction false} LookKeepsMarks(j: JournalFile, tree: uint32, v: View, depth: nat, device: nat, a: Attrs,
                                          b: Attrs)
    requires Ordered(j) && Advanced(j, a, b)
    requires Walkable(Look(v, a), depth, device) && AllKnown(Marks(j, tree, Look(v, a)))
    ensures Walkable(Look(v, b), depth, device) && SameNodes(Marks(j, tree, Look(v, a)), Marks(j, tree, Look(v, b)))
    decreases v, 0
  {
    var x, y := Look(v, a), Look(v, b);
    assert v.ino in a && v.ino in b;
    assert Marks(j, tree, x)[0] == MarkOf(j, tree, x);
    LookKeepsIndex(j, tree, v, a, b);
    if IsDir(v.mode) {
      AllKnownAppend([MarkOf(j, tree, x)], EntryMarks(j, tree, x.entries, |x.entries|));
      LookKeepsEntryMarks(j, tree, v.entries, x.entries, y.entries, |v.entries|, depth, device, a, b);
    }
  }

  lemma {:induction false} LookKeepsEntryMarks(
    j: JournalFile, tree: uint32, entries: seq<View>, x: seq<View>, y: seq<View>, n: nat,
    depth: nat, device: nat, a: Attrs, b: Attrs)
    requires Ordered(j) && Advanced(j, a, b) && n <= |entries| == |x| == |y|
    requires forall i | 0 <= i < |entries| :: x[i] == Look(entries[i], a) && y[i] == Look(entries[i], b)
    requires EntriesWalkable(x, n, depth, device) && AllKnown(EntryMarks(j, tree, x, n))
    ensures EntriesWalkable(y, n, depth, device)
    ensures SameNodes(EntryMarks(j, tree, x, n), EntryMarks(j, tree, y, n))
    decreases entries, n
  {
    if n > 0 {
      var u := entries[n - 1];
      assert x[n - 1] == Look(u, a) && y[n - 1] == Look(u, b);
      hide Advanced, Look, AllKnown, SameNodes, Walkable, Marks, Sorted, DistinctInodes;
      AllKnownAppend(EntryMarks(j, tree, x, n - 1), Marks(j, tree, x[n - 1]));
      LookKeepsEntryMarks(j, tree, entries, x, y, n - 1, depth, device, a, b);
      LookKeepsMarks(j, tree, u, depth + 1, device, a, b);
      SameNodesAppend(EntryMarks(j, tree, x, n - 1), EntryMarks(j, tree, y, n - 1),
                      Marks(j, tree, x[n - 1]), Marks(j, tree, y[n - 1]));
    }
  }

  lemma AllKnownAppend(a: seq<Mark>, b: seq<Mark>)
    ensures AllKnown(a + b) ==> AllKnown(a) && AllKnown(b)
  {
    assert forall k | 0 <= k < |b| :: b[k] == (a + b)[|a| + k];
    assert forall k | 0 <= k < |a| :: a[k] == (a + b)[k];
  }

  lemma SameNodesAppend(a: seq<Mark>, b: seq<Mark>, c: seq<Mark>, d: seq<Mark>)
    requires SameNodes(a, b) && SameNodes(c, d)
    ensures SameNodes(a + c, b + d)
  {
  }

  /** Acceptance depends on node numbers and free slots only. */
  lemma {:induction false} AcceptsByIndex(s: PinState, t: PinState, a: seq<Mark>, b: seq<Mark>)
    requires |s.fds| == |s.projects| == |t.fds| == |t.projects| && SameNodes(a, b)
    requires PinnedNodes(s.fds) == PinnedNodes(t.fds)
    ensures Accepts(s, a) <==> Accepts(t, b)
    ensures PinnedNodes(PinAll(s, a).fds) == PinnedNodes(PinAll(t, b).fds)
  {
    if a != [] {
      var m := |a| - 1;
      AcceptsByIndex(s, t, a[..m], b[..m]);
      var u, w := PinAll(s, a[..m]), PinAll(t, b[..m]);
      assert forall i | 0 <= i < |s.fds| :: u.fds[i].Some? <==> i in PinnedNodes(u.fds);
      assert forall i | 0 <= i < |s.fds| :: w.fds[i].Some? <==> i in PinnedNodes(w.fds);
      assert a[m].index == b[m].index;
      var p, q := PinOne(u, a[m]).fds, PinOne(w, b[m]).fds;
      assert forall i | 0 <= i < |s.fds| :: p[i].Some? <==> q[i].Some?;
    }
  }

  lemma AcceptedAreKnown(s: PinState, marks: seq<Mark>)
    requires |s.fds| == |s.projects| && Accepts(s, marks)
    ensures AllKnown(marks)
  {
    AcceptedMarksDistinct(s, marks);
  }

  // ---- What the walks of an undisturbed site show ----

  predicate Recognised(j: JournalFile, n: Node, a: Attr) {
    UntouchedAttr(n, a) || a == TaggedAttr(j, n)
  }

  /** A mark of a walk over the disk tells the disk's project for its node. */
  ghost predicate Truthful(j: JournalFile, a: Attrs, m: Mark) {
    0 <= m.index < |j.nodes| ==>
      var n := j.nodes[m.index];
      m.inode == n.inode && n.inode in a && m.project == a[n.inode].project && Recognised(j, n, a[n.inode])
  }

  ghost predicate AllTruthful(j: JournalFile, a: Attrs, marks: seq<Mark>) {
    forall k | 0 <= k < |marks| :: Truthful(j, a, marks[k])
  }

  lemma {:induction false} LookIsTruthful(j: JournalFile, tree: uint32, v: View, depth: nat, device: nat, a: Attrs)
    requires Ordered(j) && Walkable(Look(v, a), depth, device)
    ensures AllTruthful(j, a, Marks(j, tree, Look(v, a)))
    decreases v, 0
  {
    var x := Look(v, a);
    assert v.ino in a;
    if IsDir(v.mode) {
      EntriesAreTruthful(j, tree, v.entries, x.entries, |v.entries|, depth, device, a);
    }
  }

  lemma {:induction false} EntriesAreTruthful(
    j: JournalFile, tree: uint32, entries: seq<View>, x: seq<View>, n: nat, depth: nat, device: nat, a: Attrs)
    requires Ordered(j) && n <= |entries| == |x| && EntriesWalkable(x, n, depth, device)
    requires forall i | 0 <= i < |entries| :: x[i] == Look(entries[i], a)
    ensures AllTruthful(j, a, EntryMarks(j, tree, x, n))
    decreases entries, n
  {
    if n > 0 {
      EntriesAreTruthful(j, tree, entries, x, n - 1, depth, device, a);
      LookIsTruthful(j, tree, entries[n - 1], depth + 1, device, a);
    }
  }

  /** The pins that a complete walk over the disk must produce. */
  ghost function DiskPins(j: JournalFile, a: Attrs): PinState
    requires forall i | 0 <= i < |j.nodes| :: j.nodes[i].inode in a
  {
    PinState(seq(|j.nodes|, i requires 0 <= i < |j.nodes| => Some(j.nodes[i].inode)),
             seq(|j.nodes|, i requires 0 <= i < |j.nodes| => a[j.nodes[i].inode].project))
  }

  ghost predicate Unpinned(s: PinState) {
    forall i | 0 <= i < |s.fds| :: s.fds[i].None?
  }

  lemma CompleteWalkShowsDisk(j: JournalFile, s: PinState, marks: seq<Mark>, a: Attrs)
    requires |s.fds| == |s.projects| == |j.nodes| && Unpinned(s)
    requires Accepts(s, marks) && AllTruthful(j, a, marks)
    requires |PinnedNodes(PinAll(s, marks).fds)| == |j.nodes|
    ensures forall i | 0 <= i < |j.nodes| :: j.nodes[i].inode in a && Recognised(j, j.nodes[i], a[j.nodes[i].inode])
    ensures PinAll(s, marks) == DiskPins(j, a)
  {
    var t := PinAll(s, marks);
    forall i | 0 <= i < |j.nodes|
      ensures j.nodes[i].inode in a && Recognised(j, j.nodes[i], a[j.nodes[i].inode])
      ensures t.fds[i] == Some(j.nodes[i].inode) && t.projects[i] == a[j.nodes[i].inode].project
    {
      AllPinned(t, i);
      PinAllContents(s, marks);
      var k :| 0 <= k < |marks| && marks[k].index == i;
      AcceptedMarksProjects(s, marks, k);
      assert Truthful(j, a, marks[k]);
    }
  }

  /** What one walk over both trees and the following global check accept. */
  ghost predicate SurveyAccepted(
    j: JournalFile, s: PinState, wp: View, db: View, device: nat, view: GlobalView, complete: bool)
    requires Ordered(j) && Fits(|j.nodes|, s)
  {
    var marks := Marks(j, 0, wp) + Marks(j, 1, db);
    var t := PinAll(s, marks);
    && Walkable(wp, 0, device) && Walkable(db, 0, device) && Accepts(s, marks)
    && |PinnedNodes(t.fds)| == |j.nodes| && (complete ==> |TaggedNodes(t)| == |j.nodes|)
    && exists n, m :: GloballyOwned(j, t, view, n, m)
  }

  ghost function EmptyPins(j: JournalFile): PinState {
    PinState(seq(|j.nodes|, _ => None), seq(|j.nodes|, _ => 0))
  }

  ghost function TaggedPins(j: JournalFile): PinState {
    PinState(seq(|j.nodes|, i requires 0 <= i < |j.nodes| => Some(j.nodes[i].inode)),
             seq(|j.nodes|, _ => j.header.project))
  }

  lemma AllTruthfulAppend(j: JournalFile, a: Attrs, x: seq<Mark>, y: seq<Mark>)
    requires AllTruthful(j, a, x) && AllTruthful(j, a, y)
    ensures AllTruthful(j, a, x + y)
  {
  }

  lemma TaggedDiskPins(j: JournalFile, tagged: Attrs)
    requires AllTagged(j, tagged) && j.header.project != 0
    ensures DiskPins(j, tagged) == TaggedPins(j) && |TaggedNodes(TaggedPins(j))| == |j.nodes|
  {
    assert TaggedNodes(TaggedPins(j)) == Range(|j.nodes|);
    RangeSize(|j.nodes|);
  }

  lemma SecondWalkAccepts(j: JournalFile, live: Attrs, tagged: Attrs, wp: View, db: View, device: nat, s: PinState)
    requires Ordered(j) && Advanced(j, live, tagged) && |s.fds| == |s.projects| == |j.nodes| && Unpinned(s)
    requires Walkable(Look(wp, live), 0, device) && Walkable(Look(db, live), 0, device)
    requires var a := Marks(j, 0, Look(wp, live)) + Marks(j, 1, Look(db, live));
             Accepts(EmptyPins(j), a) && |PinnedNodes(PinAll(EmptyPins(j), a).fds)| == |j.nodes|
    ensures Walkable(Look(wp, tagged), 0, device) && Walkable(Look(db, tagged), 0, device)
    ensures var b := Marks(j, 0, Look(wp, tagged)) + Marks(j, 1, Look(db, tagged));
            Accepts(s, b) && |PinnedNodes(PinAll(s, b).fds)| == |j.nodes|
  {
    var e := EmptyPins(j);
    NothingPinned(e);
    NothingPinned(s);
    assert |e.fds| == |e.projects| == |s.fds| && PinnedNodes(e.fds) == {} == PinnedNodes(s.fds);
    hide EmptyPins, Unpinned, PinnedNodes, Searchable, DistinctInodes, Sorted;
    var wp1, db1 := Marks(j, 0, Look(wp, live)), Marks(j, 1, Look(db, live));
    var wp2, db2 := Marks(j, 0, Look(wp, tagged)), Marks(j, 1, Look(db, tagged));
    AcceptedAreKnown(e, wp1 + db1);
    AllKnownAppend(wp1, db1);
    hide AllKnown, SameNodes, Look, Walkable, Marks, Advanced;
    LookKeepsMarks(j, 0, wp, 0, device, live, tagged);
    LookKeepsMarks(j, 1, db, 0, device, live, tagged);
    SameNodesAppend(wp1, wp2, db1, db2);
    AcceptsByIndex(e, s, wp1 + db1, wp2 + db2);
  }

  lemma NothingPinned(s: PinState)
    ensures Unpinned(s) ==> PinnedNodes(s.fds) == {}
  {
  }
}
