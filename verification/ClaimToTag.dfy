/**
 From a claim to tagging (deploy/storage-authority.c, deploy/storage-tagging.h): the journal
 that a claim publishes about a filesystem is one that tagging accepts on that filesystem.
 */
module ClaimedJournals {
  import opened Common
  import opened Journals
  import opened Pinning
  import opened ProjectSets
  import opened TagStates
  import opened Census
  import opened Ownership
  import opened Snapshots
  import opened TagDisks
  import opened SteadyDisks
  import A = Authorities
  import T = Tagging

  // ---- The two walks meet the same inodes ----

  function MarksOf(j: JournalFile, tree: uint32, visits: seq<View>): (r: seq<Mark>)
    requires Sorted(j.nodes)
    ensures |r| == |visits| && forall k | 0 <= k < |r| :: r[k] == MarkOf(j, tree, visits[k])
  {
    seq(|visits|, k requires 0 <= k < |visits| => MarkOf(j, tree, visits[k]))
  }

  lemma MarksOfAppend(j: JournalFile, tree: uint32, a: seq<View>, b: seq<View>)
    requires Sorted(j.nodes)
    ensures MarksOf(j, tree, a + b) == MarksOf(j, tree, a) + MarksOf(j, tree, b)
  {
    hide MarkOf, Sorted;
  }

  /** The walk of tagging visits what the walk of the claim visited, in the same order. */
  lemma {:induction false} MarksAreVisits(j: JournalFile, tree: uint32, v: View)
    requires Sorted(j.nodes)
    ensures Marks(j, tree, v) == MarksOf(j, tree, Visits(v))
    decreases v, 0
  {
    hide MarkOf, Sorted;
    if IsDir(v.mode) {
      EntryMarksAreVisits(j, tree, v.entries, |v.entries|);
      MarksOfAppend(j, tree, [v], EntryVisits(v.entries, |v.entries|));
    }
  }

  lemma {:induction false} EntryMarksAreVisits(j: JournalFile, tree: uint32, entries: seq<View>, n: nat)
    requires Sorted(j.nodes) && n <= |entries|
    ensures EntryMarks(j, tree, entries, n) == MarksOf(j, tree, EntryVisits(entries, n))
    decreases entries, n
  {
    hide MarkOf, Sorted;
    if n > 0 {
      EntryMarksAreVisits(j, tree, entries, n - 1);
      MarksAreVisits(j, tree, entries[n - 1]);
      MarksOfAppend(j, tree, EntryVisits(entries, n - 1), Visits(entries[n - 1]));
    }
  }

  lemma {:induction false} VisitsSatisfy(v: View, depth: nat, ok: View -> bool)
    requires WalkSatisfies(v, depth, ok)
    ensures forall k | 0 <= k < |Visits(v)| :: ok(Visits(v)[k])
    decreases v, 0
  {
    if IsDir(v.mode) {
      EntryVisitsSatisfy(v.entries, |v.entries|, depth, ok);
    }
  }

  lemma {:induction false} EntryVisitsSatisfy(entries: seq<View>, n: nat, depth: nat, ok: View -> bool)
    requires n <= |entries| && EntriesSatisfy(entries, n, depth, ok)
    ensures forall k | 0 <= k < |EntryVisits(entries, n)| :: ok(EntryVisits(entries, n)[k])
    decreases entries, n
  {
    if n > 0 {
      EntryVisitsSatisfy(entries, n - 1, depth, ok);
      VisitsSatisfy(entries[n - 1], depth + 1, ok);
    }
  }

  // ---- Every visit is its own node ----

  /** What an existing inode has. */
  predicate Real(visits: seq<View>) {
    forall k | 0 <= k < |visits| :: visits[k].ino != 0 && visits[k].nlink != 0
  }

  lemma KnownVisit(j: JournalFile, tree: uint32, v: View)
    requires Sorted(j.nodes) && DistinctInodes(j.nodes) && NodeOf(v, tree) in j.nodes
    requires Collectable(v) && v.nlink != 0
    ensures VisitIndex(j, tree, v) >= 0
  {
    var k :| 0 <= k < |j.nodes| && j.nodes[k] == NodeOf(v, tree);
    var i := NodeIndex(j.nodes, v.ino, tree);
    assert i >= 0;
    assert i == k;
  }

  lemma {:induction false} DifferentMarksAccepted(s: PinState, marks: seq<Mark>)
    requires |s.fds| == |s.projects| && forall k | 0 <= k < |marks| :: Free(s, marks[k])
    requires forall k, m | 0 <= k < m < |marks| :: marks[k].index != marks[m].index
    ensures Accepts(s, marks)
  {
    if marks != [] {
      var front := marks[..|marks| - 1];
      assert forall k | 0 <= k < |front| :: front[k] == marks[k];
      DifferentMarksAccepted(s, front);
      PinAllContents(s, front);
    }
  }

  lemma SnapshotAt(wp: View, db: View)
    ensures var n, raw := |Visits(wp)|, A.SnapshotNodes(wp, db);
            && |raw| == n + |Visits(db)|
            && (forall k | 0 <= k < n :: raw[k] == NodeOf(Visits(wp)[k], 0))
            && (forall k | 0 <= k < |Visits(db)| :: raw[n + k] == NodeOf(Visits(db)[k], 1))
  {
    hide Visits;
  }

  ghost predicate Claimable(wp: View, db: View) {
    && WalkSatisfies(wp, 0, Collectable) && WalkSatisfies(db, 0, Collectable)
    && |Visits(wp)| + |Visits(db)| <= PLAN_MAX_NODES
    && Real(Visits(wp)) && Real(Visits(db)) && DistinctInodes(A.SnapshotNodes(wp, db))
  }

  lemma VisitsAreCollectable(v: View)
    requires WalkSatisfies(v, 0, Collectable)
    ensures forall k | 0 <= k < |Visits(v)| :: Collectable(Visits(v)[k])
  {
    hide Collectable, Visits, WalkSatisfies;
    VisitsSatisfy(v, 0, Collectable);
  }

  lemma CollectedIsWellFormed(v: View, tree: uint32)
    requires Collectable(v) && v.ino != 0 && tree <= 1
    ensures WellFormedNode(NodeOf(v, tree))
  {
    hide IsDir, IsReg;
  }

  /** The visit behind the k-th node of the snapshot. */
  lemma SnapshotVisit(wp: View, db: View, k: nat) returns (v: View, tree: uint32)
    requires Claimable(wp, db) && k < |A.SnapshotNodes(wp, db)|
    ensures tree == (if k < |Visits(wp)| then 0 else 1)
    ensures k < |Visits(wp)| ==> v == Visits(wp)[k]
    ensures k >= |Visits(wp)| ==> k - |Visits(wp)| < |Visits(db)| && v == Visits(db)[k - |Visits(wp)|]
    ensures Collectable(v) && v.ino != 0 && v.nlink != 0 && A.SnapshotNodes(wp, db)[k] == NodeOf(v, tree)
  {
    hide Visits, WalkSatisfies, A.SnapshotNodes, Collectable, DistinctInodes;
    VisitsAreCollectable(wp);
    VisitsAreCollectable(db);
    SnapshotAt(wp, db);
    if k < |Visits(wp)| {
      v, tree := Visits(wp)[k], 0;
    } else {
      v, tree := Visits(db)[k - |Visits(wp)|], 1;
    }
  }

  lemma SnapshotIsWellFormed(wp: View, db: View)
    requires Claimable(wp, db)
    ensures forall n | n in A.SnapshotNodes(wp, db) :: WellFormedNode(n)
  {
    hide *;
    var raw := A.SnapshotNodes(wp, db);
    forall n | n in raw
      ensures WellFormedNode(n)
    {
      var k :| 0 <= k < |raw| && raw[k] == n;
      var v, tree := SnapshotVisit(wp, db, k);
      CollectedIsWellFormed(v, tree);
    }
  }

  lemma SortedKeeps(raw: seq<Node>)
    ensures |A.SortNodes(raw)| == |raw| && forall k | 0 <= k < |raw| :: raw[k] in A.SortNodes(raw)
  {
    forall k | 0 <= k < |raw|
      ensures raw[k] in A.SortNodes(raw)
    {
      assert raw[k] in multiset(raw);
      assert raw[k] in multiset(A.SortNodes(raw));
    }
  }

  /** The journal of such trees is valid and lists the inode of every visit. */
  lemma JournalListsVisits(q: A.Request, wp: View, db: View)
    requires A.ValidRequest(q) && Claimable(wp, db)
    ensures var j := A.JournalFor(q, wp, db);
            && ValidJournal(j) && |j.nodes| == |Visits(wp)| + |Visits(db)| && j.header.project == q.project
            && (forall k | 0 <= k < |Visits(wp)| :: NodeOf(Visits(wp)[k], 0) in j.nodes)
            && (forall k | 0 <= k < |Visits(db)| :: NodeOf(Visits(db)[k], 1) in j.nodes)
  {
    var raw, j := A.SnapshotNodes(wp, db), A.JournalFor(q, wp, db);
    assert j.nodes == A.SortNodes(raw) && j.header.project == q.project;
    hide A.JournalFor, WellFormedNode, ValidJournal, DistinctInodes, A.SortNodes, A.ValidRequest;
    SnapshotIsWellFormed(wp, db);
    SnapshotAt(wp, db);
    hide A.SnapshotNodes, Visits, WalkSatisfies, Real;
    A.PublishedJournalIsValid(q, wp, db);
    SortedKeeps(raw);
    forall k | 0 <= k < |Visits(db)|
      ensures NodeOf(Visits(db)[k], 1) in j.nodes
    {
      assert raw[|Visits(wp)| + k] in j.nodes;
    }
  }

  /** All visits of both trees are accepted, and pin every node. */
  lemma VisitsAreAccepted(q: A.Request, wp: View, db: View)
    requires A.ValidRequest(q) && Claimable(wp, db)
    ensures var j := A.JournalFor(q, wp, db);
            && ValidJournal(j)
            && var marks := Marks(j, 0, wp) + Marks(j, 1, db);
            && Accepts(EmptyPins(j), marks) && |PinnedNodes(PinAll(EmptyPins(j), marks).fds)| == |j.nodes|
  {
    var j := A.JournalFor(q, wp, db);
    hide A.JournalFor, Claimable, Visits, Marks, MarksOf, ValidJournal, Sorted, DistinctInodes, Accepts, PinAll,
         A.ValidRequest;
    JournalListsVisits(q, wp, db);
    assert Ordered(j);
    MarksAreVisits(j, 0, wp);
    MarksAreVisits(j, 1, db);
    EachVisitIsFree(j, wp, db);
    hide *;
    assert |Marks(j, 0, wp) + Marks(j, 1, db)| == |j.nodes|;
    DifferentMarksPinAll(j, Marks(j, 0, wp) + Marks(j, 1, db));
  }

  /** As many visits as nodes, each to a node of its own, leave none unpinned. */
  lemma DifferentMarksPinAll(j: JournalFile, marks: seq<Mark>)
    requires |marks| == |j.nodes| && forall k | 0 <= k < |marks| :: Free(EmptyPins(j), marks[k])
    requires forall k, m | 0 <= k < m < |marks| :: marks[k].index != marks[m].index
    ensures Accepts(EmptyPins(j), marks) && |PinnedNodes(PinAll(EmptyPins(j), marks).fds)| == |j.nodes|
  {
    NoPinsAtFirst(j);
    hide EmptyPins, PinnedNodes, Free, Accepts, PinAll;
    DifferentMarksAccepted(EmptyPins(j), marks);
    AcceptedMarksCount(EmptyPins(j), marks);
  }

  lemma NoPinsAtFirst(j: JournalFile)
    ensures |EmptyPins(j).fds| == |EmptyPins(j).projects| == |j.nodes| && PinnedNodes(EmptyPins(j).fds) == {}
  {
  }

  /** The k-th visit of both walks resolves to the node of its own inode. */
  lemma VisitNode(j: JournalFile, wp: View, db: View, k: nat)
    requires Ordered(j) && Claimable(wp, db) && k < |A.SnapshotNodes(wp, db)| == |Visits(wp)| + |Visits(db)|
    requires forall k | 0 <= k < |Visits(wp)| :: NodeOf(Visits(wp)[k], 0) in j.nodes
    requires forall k | 0 <= k < |Visits(db)| :: NodeOf(Visits(db)[k], 1) in j.nodes
    ensures var m := (MarksOf(j, 0, Visits(wp)) + MarksOf(j, 1, Visits(db)))[k];
            0 <= m.index < |j.nodes| && j.nodes[m.index].inode == A.SnapshotNodes(wp, db)[k].inode
  {
    var v, tree := SnapshotVisit(wp, db, k);
    hide Claimable, Visits, A.SnapshotNodes, MarksOf, Collectable, VisitIndex, Sorted, DistinctInodes;
    assert NodeOf(v, tree) in j.nodes;
    KnownVisit(j, tree, v);
  }

  lemma EachVisitIsFree(j: JournalFile, wp: View, db: View)
    requires Ordered(j) && Claimable(wp, db)
    requires forall k | 0 <= k < |Visits(wp)| :: NodeOf(Visits(wp)[k], 0) in j.nodes
    requires forall k | 0 <= k < |Visits(db)| :: NodeOf(Visits(db)[k], 1) in j.nodes
    ensures var marks := MarksOf(j, 0, Visits(wp)) + MarksOf(j, 1, Visits(db));
            && (forall k | 0 <= k < |marks| :: Free(EmptyPins(j), marks[k]))
            && (forall k, m | 0 <= k < m < |marks| :: marks[k].index != marks[m].index)
  {
    var raw := A.SnapshotNodes(wp, db);
    var marks := MarksOf(j, 0, Visits(wp)) + MarksOf(j, 1, Visits(db));
    SnapshotAt(wp, db);
    assert DistinctInodes(raw);
    hide Claimable, Visits, A.SnapshotNodes, MarksOf, Ordered;
    forall k | 0 <= k < |marks|
      ensures 0 <= marks[k].index < |j.nodes| && j.nodes[marks[k].index].inode == raw[k].inode
    {
      VisitNode(j, wp, db, k);
    }
  }

  /** The trees of a filesystem match the journal that a claim makes of them. */
  lemma ClaimedTreesMatch(q: A.Request, f: Steady, a: Attrs)
    requires A.ValidRequest(q) && Claimable(Look(f.wp, a), Look(f.db, a))
    requires Walkable(Look(f.wp, a), 0, f.device) && Walkable(Look(f.db, a), 0, f.device)
    ensures var j := A.JournalFor(q, Look(f.wp, a), Look(f.db, a));
            ValidJournal(j) && TreesMatch(j, f, a)
  {
    VisitsAreAccepted(q, Look(f.wp, a), Look(f.db, a));
    hide Claimable, ValidJournal, A.JournalFor, Marks, Accepts, Walkable, Look;
  }

  // ---- The whole filesystem ----

  /** The inode list of a filesystem, and that the walks see the inodes it lists. */
  ghost predicate Surveyed(f: Steady, a: Attrs) {
    && Rising(f.inodes) && |f.inodes| <= MAX_INODES
    && (forall ino :: ino in a <==> exists k :: 0 <= k < |f.inodes| && f.inodes[k].ino == ino)
    && Agrees(Visits(Look(f.wp, a)), f.inodes) && Agrees(Visits(Look(f.db, a)), f.inodes)
  }

  ghost predicate Agrees(visits: seq<View>, inodes: seq<InodeStat>) {
    forall i, k | 0 <= i < |visits| && 0 <= k < |inodes| && inodes[k].ino == visits[i].ino ::
      && inodes[k].generation == visits[i].generation && inodes[k].mode == visits[i].mode
      && inodes[k].nlink == visits[i].nlink && SaneBlocks(inodes[k])
  }

  /** Every node of the sorted snapshot is that of some visit. */
  lemma NodeOfSomeVisit(wp: View, db: View, i: nat) returns (visits: seq<View>, k: nat, tree: uint32)
    requires i < |A.SortNodes(A.SnapshotNodes(wp, db))|
    ensures visits == Visits(wp) || visits == Visits(db)
    ensures k < |visits| && A.SortNodes(A.SnapshotNodes(wp, db))[i] == NodeOf(visits[k], tree)
  {
    var raw := A.SnapshotNodes(wp, db);
    SnapshotAt(wp, db);
    hide Visits, A.SnapshotNodes, A.SortNodes;
    A.SortedNode(raw, i);
    var m :| 0 <= m < |raw| && raw[m] == A.SortNodes(raw)[i];
    if m < |Visits(wp)| {
      visits, k, tree := Visits(wp), m, 0;
    } else {
      visits, k, tree := Visits(db), m - |Visits(wp)|, 1;
    }
  }

  lemma VisitIsDescribed(v: View, tree: uint32, st: InodeStat)
    requires Collectable(v) && v.nlink != 0
    requires st.generation == v.generation && st.mode == v.mode && st.nlink == v.nlink && SaneBlocks(st)
    ensures Described(NodeOf(v, tree), st)
  {
    DirOrFile(v.mode);
    hide IsDir, IsReg;
  }

  lemma DirOrFile(mode: bv32)
    ensures !(IsDir(mode) && IsReg(mode))
  {
  }

  lemma NodesAreDescribed(q: A.Request, f: Steady, a: Attrs)
    requires A.ValidRequest(q) && Claimable(Look(f.wp, a), Look(f.db, a)) && Surveyed(f, a)
    ensures var nodes := A.JournalFor(q, Look(f.wp, a), Look(f.db, a)).nodes;
            forall i, k | 0 <= i < |nodes| && 0 <= k < |f.inodes| && f.inodes[k].ino == nodes[i].inode ::
              Described(nodes[i], f.inodes[k])
  {
    var wp, db := Look(f.wp, a), Look(f.db, a);
    var nodes := A.JournalFor(q, wp, db).nodes;
    assert nodes == A.SortNodes(A.SnapshotNodes(wp, db));
    hide A.JournalFor, Look, A.SortNodes, A.SnapshotNodes, A.ValidRequest;
    VisitsSatisfy(wp, 0, Collectable);
    VisitsSatisfy(db, 0, Collectable);
    hide Visits, WalkSatisfies, DistinctInodes, SaneBlocks, Collectable, Described, Rising;
    forall i, k | 0 <= i < |nodes| && 0 <= k < |f.inodes| && f.inodes[k].ino == nodes[i].inode
      ensures Described(nodes[i], f.inodes[k])
    {
      var visits, m, tree := NodeOfSomeVisit(wp, db, i);
      assert Agrees(visits, f.inodes) && Real(visits);
      VisitIsDescribed(visits[m], tree, f.inodes[k]);
    }
  }

  lemma UnusedHasNoCarrier(j: JournalFile, f: Steady, a: Attrs)
    requires forall ino :: ino in a <==> exists k :: 0 <= k < |f.inodes| && f.inodes[k].ino == ino
    requires j.header.project != 0 && j.header.project !in ProjectsOf(Shown(f.inodes, a))
    ensures NoForeignCarrier(j, a)
  {
    forall ino | ino in a
      ensures a[ino].project != j.header.project
    {
      var k :| 0 <= k < |f.inodes| && f.inodes[k].ino == ino;
      ShownAt(f.inodes, a, k);
      ProjectsOfMeaning(Shown(f.inodes, a), j.header.project);
      assert Shown(f.inodes, a)[k] in Shown(f.inodes, a);
    }
  }

  /** The identifiers that a census meets once the project is in use. */
  ghost function Identifiers(q: A.Request, f: Steady, a: Attrs): set<uint32>
    requires A.ValidRequest(q)
  {
    f.ids + {q.project} + ProjectsOf(Shown(f.inodes, a))
  }

  /** The journal of claimable trees, whose project is unused, matches the filesystem exactly if
      there is room for one more identifier in the census. */
  lemma ClaimedJournalMatches(q: A.Request, f: Steady, a: Attrs)
    requires A.ValidRequest(q) && Claimable(Look(f.wp, a), Look(f.db, a)) && Surveyed(f, a)
    requires Walkable(Look(f.wp, a), 0, f.device) && Walkable(Look(f.db, a), 0, f.device)
    requires OwnSectors(A.JournalFor(q, Look(f.wp, a), Look(f.db, a)), f.inodes) <= UINT64_MAX
    requires q.project !in ProjectsOf(Shown(f.inodes, a))
    ensures var j := A.JournalFor(q, Look(f.wp, a), Look(f.db, a));
            ValidJournal(j) && (Matches(j, f, a) <==> |Identifiers(q, f, a)| <= MAX_PROJECTS)
  {
    hide WalkSatisfies, Real, A.SnapshotNodes, ValidJournal, A.JournalFor, Look, Walkable, Visits, Agrees, TreesMatch,
         A.ValidRequest, Rising, Described, OwnSectors, Shown, ProjectsOf, Searchable, DistinctInodes;
    var j := A.JournalFor(q, Look(f.wp, a), Look(f.db, a));
    JournalListsVisits(q, Look(f.wp, a), Look(f.db, a));
    ClaimedTreesMatch(q, f, a);
    NodesAreDescribed(q, f, a);
    assert Ordered(j) && j.header.project != 0;
    UnusedHasNoCarrier(j, f, a);
    assert Inventoried(j, f, a);
    hide Inventoried, NoForeignCarrier;
  }

  /** The first empty reply decides what a scan shows. */
  lemma ScansAgree(bulk: nat -> BulkReply, n: nat, m: nat)
    requires GoodCalls(bulk, n) && bulk(n).Batch? && bulk(n).ocount == 0
    requires GoodCalls(bulk, m) && bulk(m).Batch? && bulk(m).ocount == 0
    ensures n == m
  {
    if n < m {
      GoodCallsEach(bulk, m, n);
    } else if m < n {
      GoodCallsEach(bulk, n, m);
    }
  }

  /** Tagging takes no identifier out of use, and puts the journal's own into use. */
  lemma IdentifiersInUse(j: JournalFile, inodes: seq<InodeStat>, a: Attrs, b: Attrs)
    requires Advanced(j, a, b) && AllTagged(j, b) && j.nodes != [] && j.header.project != 0
    requires forall ino :: ino in b <==> exists k :: 0 <= k < |inodes| && inodes[k].ino == ino
    ensures ProjectsOf(Shown(inodes, a)) + {j.header.project} <= ProjectsOf(Shown(inodes, b))
  {
    hide ProjectsOf, Shown;
    assert j.nodes[0].inode in b;
    var k :| 0 <= k < |inodes| && inodes[k].ino == j.nodes[0].inode;
    ShownAt(inodes, b, k);
    ProjectIsShown(inodes, b, k);
    hide AllTagged;
    forall p | p in ProjectsOf(Shown(inodes, a))
      ensures p in ProjectsOf(Shown(inodes, b))
    {
      ProjectStaysInUse(j, inodes, a, b, p);
    }
  }

  lemma ProjectIsShown(inodes: seq<InodeStat>, a: Attrs, k: nat)
    requires k < |inodes|
    ensures ShownRecord(inodes[k], a).project == 0 || ShownRecord(inodes[k], a).project in ProjectsOf(Shown(inodes, a))
  {
    hide ProjectsOf, Shown, ShownRecord;
    ShownAt(inodes, a, k);
    assert Shown(inodes, a)[k] in Shown(inodes, a);
    ProjectsOfMeaning(Shown(inodes, a), ShownRecord(inodes[k], a).project);
  }

  lemma ProjectStaysInUse(j: JournalFile, inodes: seq<InodeStat>, a: Attrs, b: Attrs, p: uint32)
    requires Advanced(j, a, b) && p in ProjectsOf(Shown(inodes, a))
    ensures p in ProjectsOf(Shown(inodes, b))
  {
    hide ProjectsOf, Shown;
    ProjectsOfMeaning(Shown(inodes, a), p);
    var st :| st in Shown(inodes, a) && st.project == p;
    var i :| 0 <= i < |inodes| && Shown(inodes, a)[i] == st;
    ShownAt(inodes, a, i);
    ProjectIsShown(inodes, b, i);
  }

  /** Without room for the identifier no survey of the tagged trees is ever accepted, as long as
      the scans tell the truth: the claim is prepared, and its tagging never ends. */
  lemma FullCensusRefuses(j: JournalFile, f: Steady, a: Attrs, b: Attrs, s: PinState, wp: View, db: View,
                          view: GlobalView, complete: bool)
    requires Ordered(j) && Fits(|j.nodes|, s) && j.nodes != [] && Advanced(j, a, b) && AllTagged(j, b)
    requires forall ino :: ino in b <==> exists k :: 0 <= k < |f.inodes| && f.inodes[k].ino == ino
    requires |f.ids + {j.header.project} + ProjectsOf(Shown(f.inodes, a))| > MAX_PROJECTS
    requires exists n :: Scans(view.bulk, n, Shown(f.inodes, b))
    requires forall m | Enumerates(view.quota, m) :: f.ids <= QuotaIds(view.quota, m)
    ensures !SurveyAccepted(j, s, wp, db, f.device, view, complete)
  {
    if SurveyAccepted(j, s, wp, db, f.device, view, complete) {
      IdentifiersInUse(j, f.inodes, a, b);
      var x :| Scans(view.bulk, x, Shown(f.inodes, b));
      hide Shown, ProjectsOf, QuotaIds, Admits, GoodCalls, Enumerates, Walkable, Marks, Ordered;
      var pins := PinAll(s, Marks(j, 0, wp) + Marks(j, 1, db));
      var n, m :| GloballyOwned(j, pins, view, n, m);
      ScansAgree(view.bulk, x, n);
      SubsetSize(f.ids + {j.header.project} + ProjectsOf(Shown(f.inodes, a)),
                 {} + ProjectsOf(Shown(f.inodes, b)) + QuotaIds(view.quota, m));
    }
  }

  // ---- From a prepared claim to the tagged trees ----

  /** What is so on any filesystem at rest: the walks work, inodes exist and occur once, the
      inode list is right, and the space of the trees has 64 bits. */
  ghost predicate Standing(q: A.Request, f: Steady, a: Attrs) {
    var wp, db := Look(f.wp, a), Look(f.db, a);
    && Walkable(wp, 0, f.device) && Walkable(db, 0, f.device) && Real(Visits(wp)) && Real(Visits(db))
    && DistinctInodes(A.SnapshotNodes(wp, db)) && Surveyed(f, a)
    && (A.ValidRequest(q) && |Visits(wp)| + |Visits(db)| <= PLAN_MAX_NODES ==>
          OwnSectors(A.JournalFor(q, wp, db), f.inodes) <= UINT64_MAX)
  }

  /** The claim's answers tell what is on the disk. */
  ghost predicate Told(k: A.Scene, f: Steady, a: Attrs) {
    && k.collectWp == Look(f.wp, a) && k.collectDb == Look(f.db, a)
    && (exists n :: Scans(k.bulk, n, Shown(f.inodes, a)))
  }

  /** A claim that ended prepared found the trees claimable and the project unused. */
  lemma PreparedIsClaimable(q: A.Request, k: A.Scene, f: Steady, a: Attrs)
    requires A.ValidRequest(q) && A.TreesClear(k) && A.CensusClear(q, k) && Standing(q, f, a) && Told(k, f, a)
    ensures Claimable(Look(f.wp, a), Look(f.db, a))
    ensures q.project !in ProjectsOf(Shown(f.inodes, a))
  {
    var x, y :| A.CensusCertified(k, x, y);
    var n :| Scans(k.bulk, n, Shown(f.inodes, a));
    hide WalkSatisfies, Look, Visits, Shown, A.SnapshotNodes, Walkable, Surveyed, ProjectsOf, DistinctInodes, Real,
         OwnSectors, A.JournalFor, QuotaIds, Admits, GoodCalls, QuotasCertified;
    ScansAgree(k.bulk, x, n);
  }

  /** So its journal matches the filesystem, exactly if there is room for the identifier. */
  lemma PreparedJournalMatches(q: A.Request, k: A.Scene, f: Steady, a: Attrs)
    requires A.ValidRequest(q) && A.TreesClear(k) && A.CensusClear(q, k) && Standing(q, f, a) && Told(k, f, a)
    ensures var j := A.JournalFor(q, k.collectWp, k.collectDb);
            && ValidJournal(j) && j.header.project == q.project > 0
            && (Matches(j, f, a) <==> |Identifiers(q, f, a)| <= MAX_PROJECTS)
  {
    PreparedIsClaimable(q, k, f, a);
    hide A.TreesClear, A.CensusClear, A.JournalFor, Matches, Claimable, Surveyed, Walkable, Look, Visits, Real,
         DistinctInodes, ValidJournal, A.SnapshotNodes, Identifiers;
    ClaimedJournalMatches(q, f, a);
    var j := A.JournalFor(q, k.collectWp, k.collectDb);
    assert Ordered(j);
    A.JournalForRequest(q, k.collectWp, k.collectDb);
  }

  lemma ClaimIsRetried(
    j: JournalFile, args: Header, env: T.Env, f: Steady, origin: Attrs, past: seq<Disk>, now: Disk)
    requires Matches(j, f, origin) && History(j, past) && past[0] == Disk(origin, origin) && past[|past| - 1] == now
    requires T.Undisturbed(j, args, env, f, now.live)
    ensures T.Retry(j, args, env, f, origin, past, now)
  {
    hide Matches, History, T.Undisturbed;
  }

  /** A claim and, after any interrupted tagging runs, one undisturbed one: if the claim ends
      prepared, the tagging succeeds and leaves exactly the atomic tagging of the claimed trees. */
  method ClaimAndTag(
    authority: A.Authority, q: A.Request, k: A.Scene, fs: T.Filesystem, args: Header, env: T.Env,
    ghost f: Steady, ghost origin: Attrs, ghost past: seq<Disk>)
    returns (o: A.Outcome, t: T.Outcome)
    requires A.Lists(k.listing, authority.State())
    requires past != [] && past[0] == Disk(origin, origin) && past[|past| - 1] == fs.State()
    requires Standing(q, f, origin) && Told(k, f, origin)
    requires A.ValidRequest(q) && A.TreesClear(k) ==> History(A.JournalFor(q, k.collectWp, k.collectDb), past)
    modifies authority, fs
    ensures A.RunStep(old(authority.State()), authority.State(), q)
    ensures !o.Prepared? ==> fs.State() == old(fs.State())
    ensures o.Prepared? ==>
              && A.ValidRequest(q) && A.TreesClear(k)
              && var j := A.JournalFor(q, k.collectWp, k.collectDb);
              && q.site in authority.journals && authority.journals[q.site] == j && ValidJournal(j)
              && (|Identifiers(q, f, origin)| <= MAX_PROJECTS && T.Undisturbed(j, args, env, f, old(fs.live)) ==>
                    t == T.Finished(Passed) && fs.live == TagEverything(j, origin))
  {
    t := T.Finished(Refused("not prepared"));
    assert fs.State().live == fs.live;
    hide *;
    o := authority.Prepare(q, k);
    if o.Prepared? {
      var j := authority.journals[q.site];
      PreparedJournalMatches(q, k, f, origin);
      CrashesLeaveNothingHalfTagged(j, origin, past);
      ghost var room := |Identifiers(q, f, origin)| <= MAX_PROJECTS;
      if room && T.Undisturbed(j, args, env, f, fs.live) {
        ClaimIsRetried(j, args, env, f, origin, past, fs.State());
      }
      var calls;
      t, calls := T.TagData(j, args, fs, env, f, origin, past);
    }
  }
}
