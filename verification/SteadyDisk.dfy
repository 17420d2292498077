/**
 An undisturbed filesystem: its inodes, both trees and the quota records do not change apart
 from tags, and every answer of the kernel tells what is on the disk. From this alone, every
 walk and every global check of a tagging run passes (deploy/storage-tagging.h).
 */
module SteadyDisks {
  import opened Common
  import opened Journals
  import opened Pinning
  import opened TagStates
  import opened ProjectSets
  import opened Census
  import opened Ownership
  import opened TagDisks

  /** What does not change: the two trees, the census record of every inode up to its project
      and flags, and the identifiers that have quota records. */
  datatype Steady = Steady(wp: View, db: View, device: nat, inodes: seq<InodeStat>, ids: set<uint32>)

  function ShownRecord(st: InodeStat, a: Attrs): InodeStat {
    if st.ino in a then st.(project := a[st.ino].project, xflags := a[st.ino].xflags) else st
  }

  /** The census of the disk: every inode's record with the attributes now on it. */
  function Shown(inodes: seq<InodeStat>, a: Attrs): (r: seq<InodeStat>)
    ensures |r| == |inodes|
  {
    if inodes == [] then []
    else Shown(inodes[..|inodes| - 1], a) + [ShownRecord(inodes[|inodes| - 1], a)]
  }

  lemma {:induction false} ShownAt(inodes: seq<InodeStat>, a: Attrs, k: nat)
    requires k < |inodes|
    ensures Shown(inodes, a)[k] == ShownRecord(inodes[k], a)
  {
    if k < |inodes| - 1 {
      ShownAt(inodes[..|inodes| - 1], a, k);
    }
  }

  ghost predicate InJournal(j: JournalFile, ino: uint64) {
    exists i :: 0 <= i < |j.nodes| && j.nodes[i].inode == ino
  }

  /** Space of the journal's inodes in 512-byte units, tagged or not. */
  ghost function OwnSectors(j: JournalFile, inodes: seq<InodeStat>): nat {
    if inodes == [] then 0
    else
      OwnSectors(j, inodes[..|inodes| - 1]) +
      if InJournal(j, inodes[|inodes| - 1].ino) then SectorCount(inodes[|inodes| - 1]) else 0
  }

  /** The inode is still the one recorded in the journal. */
  predicate Described(n: Node, st: InodeStat) {
    && st.generation == n.generation && st.mode == n.mode && st.nlink != 0 && (IsReg(st.mode) ==> st.nlink == 1)
    && SaneBlocks(st)
  }

  ghost predicate Rising(inodes: seq<InodeStat>) {
    forall i, k | 0 <= i < k < |inodes| :: inodes[i].ino < inodes[k].ino
  }

  /** The disk lists exactly these inodes, at most as many as a census may scan; the journal's
      are described by it, and their space has 64 bits. */
  ghost predicate Inventoried(j: JournalFile, f: Steady, a: Attrs) {
    && Rising(f.inodes) && |f.inodes| <= MAX_INODES
    && (forall ino :: ino in a <==> exists k :: 0 <= k < |f.inodes| && f.inodes[k].ino == ino)
    && (forall i, k | 0 <= i < |j.nodes| && 0 <= k < |f.inodes| && f.inodes[k].ino == j.nodes[i].inode ::
          Described(j.nodes[i], f.inodes[k]))
    && OwnSectors(j, f.inodes) <= UINT64_MAX
  }

  /** No inode outside the journal carries its project. */
  ghost predicate NoForeignCarrier(j: JournalFile, a: Attrs) {
    forall ino | ino in a && a[ino].project == j.header.project :: InJournal(j, ino)
  }

  /** The identifiers in use fit the table, also with the journal's own. */
  ghost predicate IdentifiersFit(j: JournalFile, f: Steady, a: Attrs) {
    |f.ids + {j.header.project} + ProjectsOf(Shown(f.inodes, a))| <= MAX_PROJECTS
  }

  /** Both trees consist of exactly the journal's inodes, untouched or tagged. */
  ghost predicate TreesMatch(j: JournalFile, f: Steady, a: Attrs)
    requires Ordered(j)
  {
    var marks := Marks(j, 0, Look(f.wp, a)) + Marks(j, 1, Look(f.db, a));
    && Walkable(Look(f.wp, a), 0, f.device) && Walkable(Look(f.db, a), 0, f.device)
    && Accepts(EmptyPins(j), marks) && |PinnedNodes(PinAll(EmptyPins(j), marks).fds)| == |j.nodes|
  }

  /** The journal describes the filesystem as it stands. */
  ghost predicate Matches(j: JournalFile, f: Steady, a: Attrs) {
    && Ordered(j) && j.header.project != 0
    && Inventoried(j, f, a) && NoForeignCarrier(j, a) && IdentifiersFit(j, f, a) && TreesMatch(j, f, a)
  }

  ghost predicate Scans(bulk: nat -> BulkReply, n: nat, records: seq<InodeStat>) {
    GoodCalls(bulk, n) && bulk(n).Batch? && bulk(n).ocount == 0 && Seen(bulk, n) == records
  }

  ghost predicate EnumeratesOf(quota: nat -> QuotaReply, m: nat, ids: set<uint32>) {
    Enumerates(quota, m) && QuotaIds(quota, m) <= ids
  }

  /** The answers to one global check tell what is on the disk: no call fails, no limits are
      set, the scan lists the inodes as they are, and the accounting is theirs. */
  ghost predicate Faithful(j: JournalFile, f: Steady, a: Attrs, view: GlobalView) {
    && !view.syncFails && WithoutLimits(view.defaults) && WithoutLimits(view.usage)
    && (exists n :: Scans(view.bulk, n, Shown(f.inodes, a)))
    && (exists m :: EnumeratesOf(view.quota, m, f.ids + {j.header.project}))
    && UsageIs(view.usage, MatchCount(j.header.project, Shown(f.inodes, a)),
               SectorSum(j.header.project, Shown(f.inodes, a)))
  }

  // ---- Tagging keeps the match ----

  lemma {:induction false} TaggedProjects(j: JournalFile, inodes: seq<InodeStat>, a: Attrs, b: Attrs)
    requires Advanced(j, a, b)
    ensures ProjectsOf(Shown(inodes, b)) <= ProjectsOf(Shown(inodes, a)) + {j.header.project}
  {
    if inodes != [] {
      var n := |inodes| - 1;
      TaggedProjects(j, inodes[..n], a, b);
      assert Shown(inodes, a)[..n] == Shown(inodes[..n], a) && Shown(inodes, b)[..n] == Shown(inodes[..n], b);
      var x, y := ShownRecord(inodes[n], a), ShownRecord(inodes[n], b);
      assert y.project == x.project || y.project == j.header.project;
    }
  }

  lemma AdvancedFits(j: JournalFile, f: Steady, a: Attrs, b: Attrs)
    requires Advanced(j, a, b) && IdentifiersFit(j, f, a)
    ensures IdentifiersFit(j, f, b)
  {
    TaggedProjects(j, f.inodes, a, b);
    hide Advanced, Shown, ProjectsOf;
    SubsetSize(f.ids + {j.header.project} + ProjectsOf(Shown(f.inodes, b)),
               f.ids + {j.header.project} + ProjectsOf(Shown(f.inodes, a)));
  }

  lemma AdvancedCarriers(j: JournalFile, f: Steady, a: Attrs, b: Attrs)
    requires Advanced(j, a, b) && NoForeignCarrier(j, a) && Inventoried(j, f, a)
    ensures NoForeignCarrier(j, b) && Inventoried(j, f, b)
  {
    hide Rising, OwnSectors, Described, UntouchedAttr, TaggedAttr;
    forall ino | ino in b && b[ino].project == j.header.project
      ensures InJournal(j, ino)
    {
      assert ino in a;
    }
  }

  lemma AdvancedTrees(j: JournalFile, f: Steady, a: Attrs, b: Attrs)
    requires Ordered(j) && Advanced(j, a, b) && TreesMatch(j, f, a)
    ensures TreesMatch(j, f, b)
  {
    NothingPinned(EmptyPins(j));
    hide Advanced, Look, Marks, Walkable, Accepts, PinAll, PinnedNodes, Searchable, DistinctInodes;
    SecondWalkAccepts(j, a, b, f.wp, f.db, f.device, EmptyPins(j));
  }

  /** Whatever runs and crashes did, the journal still describes the filesystem. */
  lemma AdvancedMatches(j: JournalFile, f: Steady, a: Attrs, b: Attrs)
    requires Matches(j, f, a) && Advanced(j, a, b)
    ensures Matches(j, f, b)
  {
    hide Ordered, Inventoried, NoForeignCarrier, IdentifiersFit, TreesMatch, Advanced;
    AdvancedCarriers(j, f, a, b);
    AdvancedFits(j, f, a, b);
    AdvancedTrees(j, f, a, b);
  }

  // ---- What the walks and the census then show ----

  /** Every journal inode is on the disk, untouched or tagged. */
  lemma NodesOnDisk(j: JournalFile, f: Steady, a: Attrs)
    requires Ordered(j) && TreesMatch(j, f, a)
    ensures forall i | 0 <= i < |j.nodes| :: j.nodes[i].inode in a && Recognised(j, j.nodes[i], a[j.nodes[i].inode])
    ensures PinAll(EmptyPins(j), Marks(j, 0, Look(f.wp, a)) + Marks(j, 1, Look(f.db, a))) == DiskPins(j, a)
  {
    PinsShowDisk(j, f, a, EmptyPins(j));
  }

  /** Both walks, begun with no descriptor, pin exactly what is on the disk. */
  lemma PinsShowDisk(j: JournalFile, f: Steady, a: Attrs, s: PinState)
    requires Ordered(j) && TreesMatch(j, f, a) && Fits(|j.nodes|, s) && Unpinned(s)
    ensures forall i | 0 <= i < |j.nodes| :: j.nodes[i].inode in a && Recognised(j, j.nodes[i], a[j.nodes[i].inode])
    ensures var marks := Marks(j, 0, Look(f.wp, a)) + Marks(j, 1, Look(f.db, a));
            Accepts(s, marks) && |PinnedNodes(PinAll(s, marks).fds)| == |j.nodes| && PinAll(s, marks) == DiskPins(j, a)
  {
    var x, y := Marks(j, 0, Look(f.wp, a)), Marks(j, 1, Look(f.db, a));
    assert Advanced(j, a, a);
    LookIsTruthful(j, 0, f.wp, 0, f.device, a);
    LookIsTruthful(j, 1, f.db, 0, f.device, a);
    AllTruthfulAppend(j, a, x, y);
    hide Advanced, AllTruthful, Look, Marks, Walkable, Accepts, PinAll, PinnedNodes, Searchable, DistinctInodes;
    SecondWalkAccepts(j, a, a, f.wp, f.db, f.device, s);
    CompleteWalkShowsDisk(j, s, x + y, a);
  }

  lemma {:induction false} MatchSectors(j: JournalFile, inodes: seq<InodeStat>, a: Attrs)
    requires NoForeignCarrier(j, a) && forall k | 0 <= k < |inodes| :: inodes[k].ino in a
    ensures SectorSum(j.header.project, Shown(inodes, a)) <= OwnSectors(j, inodes)
  {
    if inodes != [] {
      var n := |inodes| - 1;
      MatchSectors(j, inodes[..n], a);
      assert Shown(inodes, a)[..n] == Shown(inodes[..n], a);
      assert SectorCount(ShownRecord(inodes[n], a)) == SectorCount(inodes[n]);
      hide SectorCount, InJournal;
    }
  }

  /** The record of a carrier on the disk passes the census check. */
  lemma CarrierIsOwned(j: JournalFile, f: Steady, a: Attrs, k: nat)
    requires Ordered(j) && j.header.project != 0 && Inventoried(j, f, a) && NoForeignCarrier(j, a) && k < |f.inodes|
    requires forall i | 0 <= i < |j.nodes| :: j.nodes[i].inode in a && Recognised(j, j.nodes[i], a[j.nodes[i].inode])
    ensures var st := ShownRecord(f.inodes[k], a);
            st.project == j.header.project ==> OwnedRecord(j, DiskPins(j, a).projects, st) && SaneBlocks(st)
  {
    var st := ShownRecord(f.inodes[k], a);
    assert f.inodes[k].ino in a;
    if st.project == j.header.project {
      var i :| 0 <= i < |j.nodes| && j.nodes[i].inode == st.ino;
      InodeIndexInverse(j, i);
      assert Described(j.nodes[i], f.inodes[k]) && Recognised(j, j.nodes[i], a[st.ino]);
      hide Inventoried, NoForeignCarrier, Ordered, SaneBlocks;
    }
  }

  /** Records that are each owned, with space for all of them, pass one after the other. */
  lemma {:induction false} OwnedRecordsPass(j: JournalFile, projects: seq<uint32>, records: seq<InodeStat>)
    requires Searchable(j.nodes) && |projects| == |j.nodes| && SectorSum(j.header.project, records) <= UINT64_MAX
    requires forall k | 0 <= k < |records| && records[k].project == j.header.project ::
               OwnedRecord(j, projects, records[k]) && SaneBlocks(records[k])
    ensures RecordsPass(j, projects, 0, records)
  {
    hide Searchable, OwnedRecord, SaneBlocks, SectorCount;
    if records != [] {
      OwnedRecordsPass(j, projects, records[..|records| - 1]);
    }
  }

  /** The whole census of the disk passes. */
  lemma DiskRecordsPass(j: JournalFile, f: Steady, a: Attrs)
    requires Matches(j, f, a)
    requires forall i | 0 <= i < |j.nodes| :: j.nodes[i].inode in a && Recognised(j, j.nodes[i], a[j.nodes[i].inode])
    ensures Searchable(j.nodes) && RecordsPass(j, DiskPins(j, a).projects, 0, Shown(f.inodes, a))
  {
    forall k | 0 <= k < |f.inodes|
      ensures f.inodes[k].ino in a
    {
    }
    MatchSectors(j, f.inodes, a);
    assert OwnSectors(j, f.inodes) <= UINT64_MAX && Searchable(j.nodes);
    hide TreesMatch, IdentifiersFit, OwnedRecord, SaneBlocks, OwnSectors;
    var projects, records := DiskPins(j, a).projects, Shown(f.inodes, a);
    forall k | 0 <= k < |records| && records[k].project == j.header.project
      ensures OwnedRecord(j, projects, records[k]) && SaneBlocks(records[k])
    {
      CarrierIsOwned(j, f, a, k);
      ShownAt(f.inodes, a, k);
    }
    hide Matches, Inventoried, NoForeignCarrier, Recognised, Searchable, DiskPins, Shown;
    OwnedRecordsPass(j, projects, records);
  }

  lemma ShownRises(inodes: seq<InodeStat>, a: Attrs)
    requires Rising(inodes)
    ensures Rising(Shown(inodes, a))
  {
    forall k | 0 <= k < |inodes|
      ensures Shown(inodes, a)[k].ino == inodes[k].ino
    {
      ShownAt(inodes, a, k);
    }
  }

  /** The carriers that the census shows are the tagged journal inodes. */
  lemma CarriersOnDisk(j: JournalFile, f: Steady, a: Attrs)
    requires Matches(j, f, a) && forall i | 0 <= i < |j.nodes| :: j.nodes[i].inode in a
    ensures Carriers(j.header.project, Shown(f.inodes, a)) == TaggedInodes(j, DiskPins(j, a).projects, |j.nodes|)
  {
    assert |DiskPins(j, a).projects| == |j.nodes|;
    hide *;
    forall ino: uint64
      ensures ino in Carriers(j.header.project, Shown(f.inodes, a)) <==>
              ino in TaggedInodes(j, DiskPins(j, a).projects, |j.nodes|)
    {
      CarrierIsTagged(j, f, a, ino);
    }
  }

  lemma CarrierIsTagged(j: JournalFile, f: Steady, a: Attrs, ino: uint64)
    requires Matches(j, f, a) && forall i | 0 <= i < |j.nodes| :: j.nodes[i].inode in a
    ensures ino in Carriers(j.header.project, Shown(f.inodes, a)) <==>
            ino in TaggedInodes(j, DiskPins(j, a).projects, |j.nodes|)
  {
    CarrierOnDisk(j, f, a, ino);
    hide Matches, DiskPins, Shown, Carriers, TaggedInodes;
    CarriersMeaning(j.header.project, Shown(f.inodes, a), ino);
    TaggedInodesMeaning(j, DiskPins(j, a).projects, |j.nodes|, ino);
  }

  lemma CarrierOnDisk(j: JournalFile, f: Steady, a: Attrs, ino: uint64)
    requires Matches(j, f, a) && forall i | 0 <= i < |j.nodes| :: j.nodes[i].inode in a
    ensures (exists st :: st in Shown(f.inodes, a) && st.project == j.header.project && st.ino == ino) <==>
            exists i :: 0 <= i < |j.nodes| && DiskPins(j, a).projects[i] == j.header.project && j.nodes[i].inode == ino
  {
    hide TreesMatch, IdentifiersFit, Ordered, OwnSectors, Described, Shown;
    var records := Shown(f.inodes, a);
    if st :| st in records && st.project == j.header.project && st.ino == ino {
      var k :| 0 <= k < |records| && records[k] == st;
      ShownAt(f.inodes, a, k);
      assert f.inodes[k].ino in a;
      var i :| 0 <= i < |j.nodes| && j.nodes[i].inode == ino;
      assert DiskPins(j, a).projects[i] == j.header.project;
    }
    if i :| 0 <= i < |j.nodes| && DiskPins(j, a).projects[i] == j.header.project && j.nodes[i].inode == ino {
      var k :| 0 <= k < |f.inodes| && f.inodes[k].ino == ino;
      ShownAt(f.inodes, a, k);
      assert records[k] in records;
    }
  }

  /** The census shows as many carriers as nodes are tagged. */
  lemma CountOnDisk(j: JournalFile, f: Steady, a: Attrs)
    requires Matches(j, f, a)
    requires forall i | 0 <= i < |j.nodes| :: j.nodes[i].inode in a && Recognised(j, j.nodes[i], a[j.nodes[i].inode])
    ensures MatchCount(j.header.project, Shown(f.inodes, a)) == |TaggedNodes(DiskPins(j, a))|
  {
    var s, records := DiskPins(j, a), Shown(f.inodes, a);
    ShownRises(f.inodes, a);
    DiskPinsAreKnown(j, a);
    CarriersOnDisk(j, f, a);
    assert Rising(records) && j.header.project != 0 && DistinctInodes(j.nodes);
    hide Matches, DiskPins, Shown, Recognised, DistinctInodes, Carriers, TaggedInodes, TaggedNodes;
    CarrierCount(j.header.project, records);
    TaggedInodeCount(j, s.projects, |j.nodes|);
    TaggedNodeCount(j.header.project, s, |j.nodes|);
    TaggedPrefixOfAll(s);
  }

  lemma DiskPinsAreKnown(j: JournalFile, a: Attrs)
    requires forall i | 0 <= i < |j.nodes| :: j.nodes[i].inode in a && Recognised(j, j.nodes[i], a[j.nodes[i].inode])
    ensures Fits(|j.nodes|, DiskPins(j, a)) && AllPinnedDown(DiskPins(j, a)) && Consistent(j, DiskPins(j, a))
  {
  }

  lemma ScanCertified(j: JournalFile, f: Steady, a: Attrs, bulk: nat -> BulkReply, n: nat)
    requires Matches(j, f, a) && Scans(bulk, n, Shown(f.inodes, a))
    requires forall i | 0 <= i < |j.nodes| :: j.nodes[i].inode in a && Recognised(j, j.nodes[i], a[j.nodes[i].inode])
    ensures CheckFits(Owned(j, DiskPins(j, a).projects, 0))
    ensures InodesCertified(bulk, {}, Owned(j, DiskPins(j, a).projects, 0), n)
  {
    hide Recognised, RecordsPass, ProjectsOf, Shown, TreesMatch, NoForeignCarrier, GoodCalls, Seen, Searchable;
    var known := ProjectsOf(Shown(f.inodes, a));
    assert |f.ids + {j.header.project} + known| <= MAX_PROJECTS && |f.inodes| <= MAX_INODES;
    hide Inventoried, IdentifiersFit;
    DiskRecordsPass(j, f, a);
    hide Matches, DiskPins, Ordered;
    SubsetSize({} + known, f.ids + {j.header.project} + known);
  }

  lemma RecordsCertified(j: JournalFile, f: Steady, a: Attrs, quota: nat -> QuotaReply, m: nat)
    requires IdentifiersFit(j, f, a) && EnumeratesOf(quota, m, f.ids + {j.header.project})
    ensures QuotasCertified(quota, {} + ProjectsOf(Shown(f.inodes, a)), m)
  {
    hide ProjectsOf, Shown, Enumerates, QuotaIds;
    var known := ProjectsOf(Shown(f.inodes, a));
    SubsetSize({} + known + QuotaIds(quota, m), f.ids + {j.header.project} + known);
  }

  /** Faithful answers about a matching filesystem pass the global check. */
  lemma GlobalCheckPasses(j: JournalFile, f: Steady, a: Attrs, view: GlobalView)
    requires Matches(j, f, a) && Faithful(j, f, a, view)
    ensures forall i | 0 <= i < |j.nodes| :: j.nodes[i].inode in a
    ensures exists n, m :: GloballyOwned(j, DiskPins(j, a), view, n, m)
  {
    NodesOnDisk(j, f, a);
    hide Inventoried, NoForeignCarrier, TreesMatch, TaggedNodes, DiskPins, Ordered, Recognised, Shown, ProjectsOf;
    var n :| Scans(view.bulk, n, Shown(f.inodes, a));
    var m :| EnumeratesOf(view.quota, m, f.ids + {j.header.project});
    ScanCertified(j, f, a, view.bulk, n);
    RecordsCertified(j, f, a, view.quota, m);
    CountOnDisk(j, f, a);
    hide Matches, InodesCertified, QuotasCertified, EnumeratesOf, CheckFits;
    assert GloballyOwned(j, DiskPins(j, a), view, n, m);
  }

  /** A whole survey of an undisturbed filesystem passes; the one after tagging, as well. */
  lemma SurveyPasses(j: JournalFile, f: Steady, a: Attrs, s: PinState, view: GlobalView, complete: bool)
    requires Matches(j, f, a) && Faithful(j, f, a, view) && Fits(|j.nodes|, s) && Unpinned(s)
    requires complete ==> AllTagged(j, a)
    ensures SurveyAccepted(j, s, Look(f.wp, a), Look(f.db, a), f.device, view, complete)
  {
    PinsShowDisk(j, f, a, s);
    GlobalCheckPasses(j, f, a, view);
    if complete {
      TaggedDiskPins(j, a);
    }
    hide Inventoried, NoForeignCarrier, IdentifiersFit, Faithful, Ordered, GloballyOwned, PinAll, PinnedNodes,
         Accepts, Look;
  }
}
