/**
 The filesystem-wide quota authority (prepare in deploy/storage-authority.c): an owner
 record bound to the inodes of its own metadata, an append-only index of burned
 reservations, and one immutable journal per site. Every durable write can be the last
 one before the process dies.
 */
module Authorities {
  import opened Common
  import opened Journals
  import opened TagStates
  import opened ProjectSets
  import opened Census
  import opened Ownership
  import opened Snapshots
  import Tagging

  const PLAN_MAX_SITES: nat := 4096

  /** The owner file names the installation and the identities of the other three files. */
  datatype OwnerRecord = OwnerRecord(
    owner: string, daemon: string, state: string, uuid: string, lock: nat, plans: nat, burned: nat)

  datatype OwnerFile = NoOwner | TornOwner | OwnerIs(record: OwnerRecord)

  /** The durable state. `torn` says that the index ends in an incomplete tuple. */
  datatype Store = Store(
    lock: Option<nat>, plans: Option<nat>, index: Option<nat>, owner: OwnerFile,
    burned: seq<Reservation>, torn: bool, journals: map<string, JournalFile>, pending: set<string>)

  const EMPTY_STORE := Store(None, None, None, NoOwner, [], false, map[], {})

  datatype Mode = Claim | Existing | Tag

  datatype Request = Request(owner: string, daemon: string, state: string, uuid: string, site: string, project: nat,
                             mode: Mode)

  /** What the kernel shows during one run: identity checks, fresh inode identities for the
      files it may create, the census, both walks of both trees, and the directory order.
      `steps` counts the durable writes before the run stops; `killed` says whether it stops
      by dying or by an I/O error. */
  datatype Scene = Scene(
    rootGood: bool, busy: bool, newLock: nat, newPlans: nat, newIndex: nat,
    bulk: nat -> BulkReply, quota: nat -> QuotaReply,
    device: nat, wpRoot: uint64, dbRoot: uint64,
    auditWp: View, auditDb: View, collectWp: View, collectDb: View,
    listing: seq<string>, steps: nat, killed: bool)

  datatype Outcome = Died | Prepared | Rejected(reason: string) | ReadyToTag

  function Stopped(k: Scene, reason: string): Outcome {
    if k.killed then Died else Rejected(reason)
  }

  predicate ValidRequest(q: Request) {
    && HexString(q.owner, 32) && HexString(q.daemon, 64) && HexString(q.state, 64) && HexString(q.uuid, 32)
    && HexString(q.site, 16) && 0 < q.project <= UINT32_MAX
  }

  function ExpectedOwner(s: Store, q: Request): OwnerRecord
    requires s.lock.Some? && s.plans.Some? && s.index.Some?
  {
    OwnerRecord(q.owner, q.daemon, q.state, q.uuid, s.lock.value, s.plans.value, s.index.value)
  }

  // ---- What the protocol keeps ----

  /** Metadata are complete and belong to the requester. */
  predicate Opened(s: Store, q: Request) {
    && s.lock.Some? && s.plans.Some? && s.index.Some? && !s.torn
    && |s.burned| <= PLAN_MAX_SITES && s.owner == OwnerIs(ExpectedOwner(s, q))
  }

  ghost predicate JournalsIndexed(s: Store) {
    forall site | site in s.journals ::
      s.journals[site].header.site == site && Indexed(s.burned, s.journals[site].header)
  }

  /** The index repeats no site and no project, and every published journal is indexed. */
  ghost predicate Sound(s: Store) {
    && DistinctReservations(s.burned) && JournalsIndexed(s)
    && (s.index.None? ==> s.burned == [] && !s.torn)
    && (s.plans.None? ==> s.journals == map[] && s.pending == {})
    && (s.lock.None? ==> s == EMPTY_STORE)
  }

  /** Nothing burned is forgotten or reordered, and no journal is rewritten or removed. */
  ghost predicate Extends(a: Store, b: Store) {
    && a.burned <= b.burned
    && (forall site | site in a.journals :: site in b.journals && b.journals[site] == a.journals[site])
  }

  /** As many journals as reservations, and no unfinished publication. */
  ghost predicate Balanced(s: Store) {
    s.pending == {} && |s.journals| == |s.burned|
  }

  /** Metadata of an interrupted initialisation or publication. */
  ghost predicate Interrupted(s: Store) {
    && s.lock.Some?
    && (s.plans.None? || s.index.None? || !s.owner.OwnerIs? || s.torn || !Balanced(s))
  }

  // ---- One run as a step ----

  ghost predicate InitialisedFrom(a: Store, b: Store, q: Request) {
    && a.lock.None? && b.lock.Some?
    && b.burned == a.burned && b.torn == a.torn && b.journals == a.journals && b.pending == a.pending
    && (b.plans == a.plans || (q.mode.Claim? && a.plans.None?))
    && (b.index == a.index || (q.mode.Claim? && a.index.None? && b.plans.Some?))
    && (b.owner == a.owner || (q.mode.Claim? && a.owner.NoOwner? && b.plans.Some? && b.index.Some? &&
          (b.owner.TornOwner? || b.owner == OwnerIs(ExpectedOwner(b, q)))))
  }

  /** The effects that burning and publishing can have, completely or up to some write. */
  ghost predicate BurnEffect(u: Store, b: Store, q: Request)
    requires ValidRequest(q)
  {
    b == u.(torn := true) || b == Burnt(u, q) || b == Burnt(u, q).(pending := {q.site})
    || exists j: JournalFile :: b == Published(u, q, j) && j.header.site == q.site && j.header.project == q.project
  }

  /** Opened, balanced, and the pair of the request does not occur among the journals. */
  ghost predicate ReadyToBurn(u: Store, q: Request) {
    && ValidRequest(q) && q.mode.Claim? && Opened(u, q) && Balanced(u) && JournalsIndexed(u)
    && DistinctReservations(u.burned)
    && q.site !in u.journals && forall site | site in u.journals :: u.journals[site].header.project != q.project
  }

  /** What one run may do to the durable state: nothing, (part of) the initialisation, or,
      from a state that is ready for it, (part of) a burn with its journal. */
  ghost predicate RunStep(a: Store, b: Store, q: Request) {
    || b == a
    || InitialisedFrom(a, b, q)
    || exists u :: (u == a || InitialisedFrom(a, u, q)) && ReadyToBurn(u, q) && BurnEffect(u, b, q)
  }

  function Burnt(u: Store, q: Request): Store
    requires ValidRequest(q)
  {
    u.(burned := u.burned + [Reservation(q.site, q.project)])
  }

  function Published(u: Store, q: Request, j: JournalFile): Store
    requires ValidRequest(q)
  {
    Burnt(u, q).(journals := u.journals[q.site := j])
  }

  /** Equal counts prove the new pair unused: every reservation then has its own journal, so
      a reused site or project would show up among the journals. */
  lemma EqualCountsMeanUnused(s: Store, site: string, project: nat)
    requires DistinctReservations(s.burned) && JournalsIndexed(s) && |s.journals| == |s.burned|
    requires site !in s.journals && forall x | x in s.journals :: s.journals[x].header.project != project
    ensures forall i | 0 <= i < |s.burned| :: s.burned[i].site != site && s.burned[i].project != project
  {
    SiteCount(s.burned);
    forall x | x in s.journals.Keys
      ensures x in Sites(s.burned)
    {
      assert Indexed(s.burned, s.journals[x].header);
    }
    SubsetSize(s.journals.Keys, Sites(s.burned));
    forall i | 0 <= i < |s.burned|
      ensures s.burned[i].site != site && s.burned[i].project != project
    {
      var x := s.burned[i].site;
      assert x in s.journals.Keys;
      assert Indexed(s.burned, s.journals[x].header);
      var k :| 0 <= k < |s.burned| && s.burned[k].project == s.journals[x].header.project && s.burned[k].site == x;
      assert k == i;
    }
  }

  lemma IndexedGrows(burned: seq<Reservation>, r: Reservation, h: Header)
    ensures Indexed(burned, h) ==> Indexed(burned + [r], h)
    ensures r.site == h.site && r.project == h.project ==> Indexed(burned + [r], h)
  {
    if Indexed(burned, h) {
      var i :| 0 <= i < |burned| && burned[i].project == h.project && burned[i].site == h.site;
      assert (burned + [r])[i] == burned[i];
    }
    assert (burned + [r])[|burned|] == r;
  }

  /** A burn with a fresh pair keeps the index free of repetition and the journals indexed. */
  lemma BurnKeepsSound(u: Store, q: Request)
    requires ValidRequest(q) && DistinctReservations(u.burned) && JournalsIndexed(u)
    requires forall i | 0 <= i < |u.burned| :: u.burned[i].site != q.site && u.burned[i].project != q.project
    ensures DistinctReservations(Burnt(u, q).burned) && JournalsIndexed(Burnt(u, q))
    ensures forall j: JournalFile | j.header.site == q.site && j.header.project == q.project ::
              JournalsIndexed(Published(u, q, j))
  {
    var b := Burnt(u, q).burned;
    assert forall i | 0 <= i < |u.burned| :: b[i] == u.burned[i];
    forall h: Header
      ensures Indexed(u.burned, h) || (h.site == q.site && h.project == q.project) ==> Indexed(b, h)
    {
      IndexedGrows(u.burned, Reservation(q.site, q.project), h);
    }
  }

  lemma InitialisingKeepsSound(a: Store, b: Store, q: Request)
    requires Sound(a) && InitialisedFrom(a, b, q)
    ensures Sound(b) && Extends(a, b)
  {
    hide DistinctReservations, HexString;
  }

  lemma BurningExtends(u: Store, b: Store, q: Request)
    requires Sound(u) && ValidRequest(q) && Opened(u, q)
    requires forall i | 0 <= i < |u.burned| :: u.burned[i].site != q.site && u.burned[i].project != q.project
    requires q.site !in u.journals && BurnEffect(u, b, q)
    ensures Sound(b) && Extends(u, b)
  {
    BurnKeepsSound(u, q);
    hide DistinctReservations, Indexed, HexString;
  }

  /** Every step keeps the store sound and only extends it. */
  lemma StepKeepsSound(a: Store, b: Store, q: Request)
    requires Sound(a) && RunStep(a, b, q)
    ensures Sound(b) && Extends(a, b)
  {
    if InitialisedFrom(a, b, q) {
      InitialisingKeepsSound(a, b, q);
    } else if b != a {
      var u :| (u == a || InitialisedFrom(a, u, q)) && ReadyToBurn(u, q) && BurnEffect(u, b, q);
      EqualCountsMeanUnused(u, q.site, q.project);
      if InitialisedFrom(a, u, q) {
        InitialisingKeepsSound(a, u, q);
      }
      BurningExtends(u, b, q);
      hide DistinctReservations, JournalsIndexed, HexString, Published, Burnt, Opened;
    }
  }

  /** An interrupted initialisation or publication stays refused: no later run, whatever it
      requests, changes anything. */
  lemma InterruptedNeverChanges(a: Store, b: Store, q: Request)
    requires Interrupted(a) && RunStep(a, b, q)
    ensures b == a
  {
  }

  /** On an empty filesystem only a claim can succeed: any other request that changes anything
      leaves the lock behind, and with it a state that refuses every later claim. */
  lemma OnlyAClaimComesFirst(b: Store, q: Request)
    requires RunStep(EMPTY_STORE, b, q) && !q.mode.Claim? && b != EMPTY_STORE
    ensures Interrupted(b) && b == EMPTY_STORE.(lock := b.lock)
    ensures forall c, r | RunStep(b, c, r) :: c == b
  {
    forall c, r | RunStep(b, c, r)
      ensures c == b
    {
      InterruptedNeverChanges(b, c, r);
    }
  }

  ghost predicate History(stores: seq<Store>, requests: seq<Request>) {
    && |stores| == |requests| + 1 && stores[0] == EMPTY_STORE
    && forall k | 0 <= k < |requests| :: RunStep(stores[k], stores[k + 1], requests[k])
  }

  /** Over every sequence of runs, completed, failed or killed at any write: the index never
      repeats a site or a project, and each state extends all earlier ones. */
  lemma {:induction false} EveryHistoryIsSound(stores: seq<Store>, requests: seq<Request>, i: nat, k: nat)
    requires History(stores, requests) && i <= k < |stores|
    ensures Sound(stores[k]) && Extends(stores[i], stores[k])
    ensures Interrupted(stores[i]) ==> stores[k] == stores[i]
    decreases k
  {
    if k == 0 {
      assert Sound(EMPTY_STORE);
    } else {
      EveryHistoryIsSound(stores, requests, k - 1, k - 1);
      StepKeepsSound(stores[k - 1], stores[k], requests[k - 1]);
      if i < k {
        EveryHistoryIsSound(stores, requests, i, k - 1);
        if Interrupted(stores[i]) {
          InterruptedNeverChanges(stores[k - 1], stores[k], requests[k - 1]);
        }
      }
    }
  }

  // ---- The journal that a claim publishes ----

  predicate Ascending(nodes: seq<Node>) {
    |nodes| <= 1 || (CompareNode(nodes[0], nodes[1]) <= 0 && Ascending(nodes[1..]))
  }

  /** The C library's qsort on journal nodes. */
  function SortNodes(nodes: seq<Node>): (sorted: seq<Node>)
    ensures multiset(sorted) == multiset(nodes) && |sorted| == |nodes|
    ensures Ascending(sorted)
  {
    if nodes == [] then []
    else
      assert nodes == nodes[..|nodes| - 1] + [nodes[|nodes| - 1]];
      InsertNode(nodes[|nodes| - 1], SortNodes(nodes[..|nodes| - 1]))
  }

  function InsertNode(n: Node, sorted: seq<Node>): (r: seq<Node>)
    requires Ascending(sorted)
    ensures multiset(r) == multiset(sorted) + multiset{n} && |r| == |sorted| + 1
    ensures Ascending(r) && (r[0] == n || (sorted != [] && r[0] == sorted[0]))
  {
    if sorted == [] then [n]
    else if CompareNode(n, sorted[0]) <= 0 then
      assert ([n] + sorted)[1..] == sorted;
      [n] + sorted
    else
      assert sorted == [sorted[0]] + sorted[1..];
      var rest := InsertNode(n, sorted[1..]);
      assert ([sorted[0]] + rest)[1..] == rest;
      [sorted[0]] + rest
  }

  lemma {:induction false} AscendingFirst(nodes: seq<Node>, j: nat)
    requires Ascending(nodes) && j < |nodes|
    ensures CompareNode(nodes[0], nodes[j]) <= 0
  {
    if j > 0 {
      AscendingFirst(nodes[1..], j - 1);
    }
  }

  lemma {:induction false} AscendingPairs(nodes: seq<Node>, i: nat, j: nat)
    requires Ascending(nodes) && i < j < |nodes|
    ensures CompareNode(nodes[i], nodes[j]) <= 0
  {
    if i == 0 {
      AscendingFirst(nodes, j);
    } else {
      AscendingPairs(nodes[1..], i - 1, j - 1);
    }
  }

  function JournalFor(q: Request, wp: View, db: View): JournalFile
    requires ValidRequest(q)
    requires |Visits(wp)| + |Visits(db)| <= PLAN_MAX_NODES
  {
    JournalFile(
      Header("panel4wp-quota-plan-v1", q.owner, q.daemon, q.state, q.uuid, q.site, q.project,
             |Visits(wp)| + |Visits(db)|, |Visits(wp)|, |Visits(db)|),
      SortNodes(SnapshotNodes(wp, db)), true)
  }

  // ---- A published journal is one that tagging accepts ----

  function WordPressNodes(nodes: seq<Node>): (n: nat)
    ensures n <= |nodes|
  {
    if nodes == [] then 0 else (if nodes[0].tree == 0 then 1 else 0) + WordPressNodes(nodes[1..])
  }

  lemma {:induction false} WordPressAppend(a: seq<Node>, b: seq<Node>)
    ensures WordPressNodes(a + b) == WordPressNodes(a) + WordPressNodes(b)
  {
    if a == [] {
      assert a + b == b;
    } else {
      assert (a + b)[1..] == a[1..] + b;
      WordPressAppend(a[1..], b);
    }
  }

  lemma {:induction false} InsertCounts(n: Node, sorted: seq<Node>)
    requires Ascending(sorted)
    ensures WordPressNodes(InsertNode(n, sorted)) == WordPressNodes(sorted) + if n.tree == 0 then 1 else 0
  {
    if sorted == [] || CompareNode(n, sorted[0]) <= 0 {
      assert ([n] + sorted)[1..] == sorted;
    } else {
      InsertCounts(n, sorted[1..]);
      assert ([sorted[0]] + InsertNode(n, sorted[1..]))[1..] == InsertNode(n, sorted[1..]);
    }
  }

  lemma LastCounts(nodes: seq<Node>)
    requires nodes != []
    ensures WordPressNodes(nodes) ==
            WordPressNodes(nodes[..|nodes| - 1]) + if nodes[|nodes| - 1].tree == 0 then 1 else 0
  {
    var front, last := nodes[..|nodes| - 1], nodes[|nodes| - 1];
    assert nodes == front + [last];
    WordPressAppend(front, [last]);
    assert [last][1..] == [];
    assert WordPressNodes([]) == 0;
  }

  lemma SortStep(nodes: seq<Node>)
    requires nodes != []
    ensures SortNodes(nodes) == InsertNode(nodes[|nodes| - 1], SortNodes(nodes[..|nodes| - 1]))
  {
    hide InsertNode;
  }

  lemma {:induction false} SortCounts(nodes: seq<Node>)
    ensures WordPressNodes(SortNodes(nodes)) == WordPressNodes(nodes)
  {
    if nodes != [] {
      var front, last := nodes[..|nodes| - 1], nodes[|nodes| - 1];
      SortStep(nodes);
      hide SortNodes, Ascending, InsertNode, CompareNode, WordPressNodes;
      SortCounts(front);
      LastCounts(nodes);
      InsertCounts(last, SortNodes(front));
    }
  }

  lemma {:induction false} SameTree(nodes: seq<Node>, tree: uint32)
    requires forall i | 0 <= i < |nodes| :: nodes[i].tree == tree
    ensures WordPressNodes(nodes) == if tree == 0 then |nodes| else 0
  {
    if nodes != [] {
      SameTree(nodes[1..], tree);
    }
  }

  /** In tree order the WordPress nodes are exactly the first ones. */
  lemma {:induction false} WordPressFirst(nodes: seq<Node>, i: nat)
    requires Ascending(nodes) && i < |nodes|
    ensures nodes[i].tree == 0 <==> i < WordPressNodes(nodes)
  {
    if nodes[0].tree != 0 {
      forall k | 0 <= k < |nodes|
        ensures nodes[k].tree != 0
      {
        AscendingFirst(nodes, k);
      }
      NoWordPress(nodes);
    } else if i > 0 {
      WordPressFirst(nodes[1..], i - 1);
    }
  }

  lemma {:induction false} NoWordPress(nodes: seq<Node>)
    requires forall k | 0 <= k < |nodes| :: nodes[k].tree != 0
    ensures WordPressNodes(nodes) == 0
  {
    if nodes != [] {
      NoWordPress(nodes[1..]);
    }
  }

  /** Rearranging does not create or remove a repeated inode. */
  lemma RearrangedInodes(a: seq<Node>, b: seq<Node>)
    requires multiset(a) == multiset(b) && DistinctInodes(a)
    ensures DistinctInodes(b)
  {
    forall i, j | 0 <= i < j < |b|
      ensures b[i].inode != b[j].inode
    {
      assert b[i] in multiset(b) && b[j] in multiset(b);
      assert b[i] in a && b[j] in a;
      if b[i] == b[j] {
        Repeated(b, i, j);
        NoRepeats(a, b[i]);
      }
    }
  }

  /** The snapshot's nodes before sorting. */
  function SnapshotNodes(wp: View, db: View): seq<Node> {
    NodesOf(Visits(wp), 0) + NodesOf(Visits(db), 1)
  }

  lemma PublishedHeaderIsValid(q: Request, wp: View, db: View)
    requires ValidRequest(q) && |Visits(wp)| + |Visits(db)| <= PLAN_MAX_NODES
    ensures ValidHeader(JournalFor(q, wp, db).header)
    ensures var j := JournalFor(q, wp, db);
            j.sound && |j.nodes| == j.header.count && j.header.wordpress == |Visits(wp)|
              && j.nodes == SortNodes(SnapshotNodes(wp, db))
  {
    hide HexString;
  }

  lemma SortedSnapshotIsOrdered(raw: seq<Node>)
    requires DistinctInodes(raw)
    ensures Sorted(SortNodes(raw)) && DistinctInodes(SortNodes(raw))
  {
    var nodes := SortNodes(raw);
    RearrangedInodes(raw, nodes);
    forall i, k | 0 <= i < k < |nodes|
      ensures CompareNode(nodes[i], nodes[k]) < 0
    {
      AscendingPairs(nodes, i, k);
    }
  }

  lemma SortedSnapshotBoundary(wp: View, db: View, i: nat)
    requires i < |SortNodes(SnapshotNodes(wp, db))|
    ensures var nodes := SortNodes(SnapshotNodes(wp, db));
            (nodes[i].tree == 0 <==> i < |Visits(wp)|) && nodes[i] in SnapshotNodes(wp, db)
  {
    SnapshotCount(wp, db);
    hide SnapshotNodes;
    var raw := SnapshotNodes(wp, db);
    SortedNode(raw, i);
    SortCounts(raw);
    hide SortNodes;
    WordPressFirst(SortNodes(raw), i);
  }

  lemma SnapshotCount(wp: View, db: View)
    ensures WordPressNodes(SnapshotNodes(wp, db)) == |Visits(wp)|
  {
    var a, b := NodesOf(Visits(wp), 0), NodesOf(Visits(db), 1);
    SameTree(a, 0);
    SameTree(b, 1);
    hide Visits, NodesOf;
    WordPressAppend(a, b);
  }

  lemma SortedNode(raw: seq<Node>, i: nat)
    requires i < |SortNodes(raw)|
    ensures SortNodes(raw)[i] in raw
  {
    assert SortNodes(raw)[i] in multiset(SortNodes(raw));
    assert SortNodes(raw)[i] in multiset(raw);
  }

  /** What a claim publishes is read back as valid by tagging exactly if the two walks met
      no inode twice (and no inode zero, which the filesystem never uses). */
  lemma PublishedJournalIsValid(q: Request, wp: View, db: View)
    requires ValidRequest(q) && |Visits(wp)| + |Visits(db)| <= PLAN_MAX_NODES
    requires forall n | n in SnapshotNodes(wp, db) :: WellFormedNode(n)
    ensures ValidJournal(JournalFor(q, wp, db)) <==> DistinctInodes(SnapshotNodes(wp, db))
  {
    var raw, j := SnapshotNodes(wp, db), JournalFor(q, wp, db);
    assert j.nodes == SortNodes(raw);
    hide ValidHeader, JournalFor, SnapshotNodes, WellFormedNode, Sorted, SortNodes;
    PublishedHeaderIsValid(q, wp, db);
    PublishedNodes(q, wp, db);
    SameDistinctness(raw);
    if DistinctInodes(raw) {
      SortedSnapshotIsOrdered(raw);
    }
    hide DistinctInodes;
  }

  lemma PublishedNode(q: Request, wp: View, db: View, i: nat)
    requires ValidRequest(q) && |Visits(wp)| + |Visits(db)| <= PLAN_MAX_NODES
    requires i < |JournalFor(q, wp, db).nodes|
    ensures var j := JournalFor(q, wp, db);
            j.nodes[i] in SnapshotNodes(wp, db) && (j.nodes[i].tree == 0 <==> i < j.header.wordpress)
  {
    PublishedHeaderIsValid(q, wp, db);
    SortedSnapshotBoundary(wp, db, i);
    hide *;
  }

  lemma PublishedNodes(q: Request, wp: View, db: View)
    requires ValidRequest(q) && |Visits(wp)| + |Visits(db)| <= PLAN_MAX_NODES
    requires forall n | n in SnapshotNodes(wp, db) :: WellFormedNode(n)
    ensures var j := JournalFor(q, wp, db);
            forall i | 0 <= i < |j.nodes| ::
                WellFormedNode(j.nodes[i]) && (j.nodes[i].tree == 0 <==> i < j.header.wordpress)
  {
    hide *;
    var j := JournalFor(q, wp, db);
    forall i | 0 <= i < |j.nodes|
      ensures WellFormedNode(j.nodes[i]) && (j.nodes[i].tree == 0 <==> i < j.header.wordpress)
    {
      PublishedNode(q, wp, db, i);
    }
  }

  lemma SameDistinctness(raw: seq<Node>)
    ensures DistinctInodes(raw) <==> DistinctInodes(SortNodes(raw))
  {
    var nodes := SortNodes(raw);
    assert multiset(nodes) == multiset(raw);
    hide DistinctInodes, SortNodes;
    if DistinctInodes(raw) {
      RearrangedInodes(raw, nodes);
    } else if DistinctInodes(nodes) {
      RearrangedInodes(nodes, raw);
    }
  }

  // ---- The program ----

  ghost predicate ValidIndex(reservations: seq<Reservation>) {
    && DistinctReservations(reservations)
    && forall i | 0 <= i < |reservations| :: HexString(reservations[i].site, 16) && reservations[i].project != 0
  }

  /** The duplicate check over the index read back from the disk. */
  method ValidateIndex(reservations: seq<Reservation>) returns (ok: bool)
    ensures ok <==> ValidIndex(reservations)
  {
    for i := 0 to |reservations|
      invariant forall a, b | 0 <= a < b < i ::
        reservations[a].site != reservations[b].site && reservations[a].project != reservations[b].project
      invariant forall a | 0 <= a < i :: HexString(reservations[a].site, 16) && reservations[a].project != 0
    {
      if !HexString(reservations[i].site, 16) || reservations[i].project == 0 {
        return false;
      }
      for j := 0 to i
        invariant forall a | 0 <= a < j ::
          reservations[a].site != reservations[i].site && reservations[a].project != reservations[i].project
      {
        if reservations[i].project == reservations[j].project || reservations[i].site == reservations[j].site {
          return false;
        }
      }
    }
    return true;
  }

  function TempName(site: string): string {
    "." + site + "-pending"
  }

  /** A directory reports each published journal and each leftover exactly once. */
  ghost predicate Lists(listing: seq<string>, s: Store) {
    && (forall i, j | 0 <= i < j < |listing| :: listing[i] != listing[j])
    && (forall i | 0 <= i < |listing| ::
          listing[i] in s.journals || exists p :: p in s.pending && listing[i] == TempName(p))
    && (forall x | x in s.journals :: x in listing)
    && (forall p | p in s.pending :: TempName(p) in listing)
  }

  predicate OwnJournal(j: JournalFile, name: string, q: Request) {
    && j.sound && ValidHeader(j.header) && |j.nodes| == j.header.count && j.header.site == name
    && j.header.owner == q.owner && j.header.daemon == q.daemon && j.header.state == q.state && j.header.uuid == q.uuid
  }

  /** One name of the plans directory as the scan requires it. */
  predicate GoodName(s: Store, name: string, q: Request) {
    && HexString(name, 16) && name in s.journals && OwnJournal(s.journals[name], name, q)
    && Indexed(s.burned, s.journals[name].header)
    && (s.journals[name].header.project == q.project ==> name == q.site)
  }

  /** The scan of the plans directory. */
  method ScanPlans(s: Store, listing: seq<string>, q: Request) returns (r: Verdict)
    ensures r.Passed? <==> |listing| <= PLAN_MAX_SITES && forall i | 0 <= i < |listing| :: GoodName(s, listing[i], q)
  {
    for n := 0 to |listing|
      invariant n <= PLAN_MAX_SITES
      invariant forall i | 0 <= i < n :: GoodName(s, listing[i], q)
    {
      var name := listing[n];
      if !HexString(name, 16) || n + 1 > PLAN_MAX_SITES {
        return Refused("plan-state");
      }
      if name !in s.journals || !OwnJournal(s.journals[name], name, q) || !Indexed(s.burned, s.journals[name].header) {
        return Refused("plan-state");
      }
      if s.journals[name].header.project == q.project && name != q.site {
        return Refused("project-reserved");
      }
    }
    return Passed;
  }

  lemma TempNameIsNotHex(site: string)
    ensures !HexString(TempName(site), 16)
  {
    assert TempName(site)[0] == '.';
    assert '.' in TempName(site);
  }

  /** Hexadecimal names only: the listing is then the set of published journals. */
  lemma HexNamesAreJournals(s: Store, listing: seq<string>)
    requires Lists(listing, s) && forall i | 0 <= i < |listing| :: HexString(listing[i], 16)
    ensures s.pending == {} && |listing| == |s.journals|
  {
    forall p | p in s.pending
      ensures false
    {
      TempNameIsNotHex(p);
    }
    DistinctSize(listing);
    assert Elements(listing) == s.journals.Keys;
  }

  /** An accepted scan met every journal once and no leftover of a publication. */
  lemma ScanMeansJournals(s: Store, listing: seq<string>, q: Request)
    requires Lists(listing, s) && forall i | 0 <= i < |listing| :: GoodName(s, listing[i], q)
    ensures s.pending == {} && |listing| == |s.journals| && JournalsIndexed(s)
    ensures forall x | x in s.journals :: GoodName(s, x, q)
  {
    HexNamesAreJournals(s, listing);
  }

  /** A requester that can use the store: its own complete metadata, or a first claim. */
  ghost predicate Usable(s: Store, q: Request) {
    ValidRequest(q) && ((Opened(s, q) && ValidIndex(s.burned)) || (s == EMPTY_STORE && q.mode.Claim?))
  }

  ghost predicate CensusClear(q: Request, k: Scene) {
    && (exists n, m :: CensusCertified(k, n, m))
    && forall n, m | CensusCertified(k, n, m) ::
         && q.project !in ProjectsOf(Seen(k.bulk, n)) + QuotaIds(k.quota, m)
         && |Visits(k.collectWp)| + |Visits(k.collectDb)| <= |Seen(k.bulk, n)|
  }

  ghost predicate CensusCertified(k: Scene, n: nat, m: nat) {
    InodesCertified(k.bulk, {}, Unchecked, n) && QuotasCertified(k.quota, {} + ProjectsOf(Seen(k.bulk, n)), m)
  }

  /** Both trees are clean and the two walks agree. */
  ghost predicate TreesClear(k: Scene) {
    && WalkSatisfies(k.auditWp, 0, x => Auditable(x, k.device, k.dbRoot)) && |Visits(k.auditWp)| <= MAX_INODES
    && WalkSatisfies(k.auditDb, 0, x => Auditable(x, k.device, k.wpRoot)) && |Visits(k.auditDb)| <= MAX_INODES
    && WalkSatisfies(k.collectWp, 0, Collectable) && WalkSatisfies(k.collectDb, 0, Collectable)
    && |Visits(k.collectWp)| == |Visits(k.auditWp)| && |Visits(k.collectDb)| == |Visits(k.auditDb)|
    && |Visits(k.collectWp)| + |Visits(k.collectDb)| <= PLAN_MAX_NODES
  }

  /** The journals allow publishing or confirming j: all good, as many as reservations, and
      the site's own journal unchanged if it exists. */
  ghost predicate JournalsAllow(s: Store, q: Request, j: JournalFile) {
    && Balanced(s) && |s.journals| <= PLAN_MAX_SITES && (forall x | x in s.journals :: GoodName(s, x, q))
    && if q.site in s.journals then s.journals[q.site] == j else q.mode.Claim? && |s.journals| < PLAN_MAX_SITES
  }

  datatype Opening = Halted(outcome: Outcome) | Ready(left: nat)

  class Authority {
    var lock: Option<nat>
    var plans: Option<nat>
    var index: Option<nat>
    var owner: OwnerFile
    var burned: seq<Reservation>
    var torn: bool
    var journals: map<string, JournalFile>
    var pending: set<string>

    constructor ()
      ensures State() == EMPTY_STORE
    {
      lock, plans, index, owner := None, None, None, NoOwner;
      burned, torn, journals, pending := [], false, map[], {};
    }

    function State(): Store
      reads this
    {
      Store(lock, plans, index, owner, burned, torn, journals, pending)
    }

    /** First half of prepare: lock, one-time initialisation, owner and index checks. */
    method Open(q: Request, k: Scene) returns (r: Opening)
      modifies this
      ensures State() == old(State()) || (ValidRequest(q) && InitialisedFrom(old(State()), State(), q))
      ensures r.Ready? ==> ValidRequest(q) && Opened(State(), q) && ValidIndex(burned)
      ensures r.Ready? ==> r.left + 5 >= k.steps
      ensures r.Ready? && !q.mode.Claim? ==> State() == old(State())
      ensures Usable(old(State()), q) && k.rootGood && !k.busy && k.steps >= 5 ==> r.Ready?
      ensures r.Halted? ==> !r.outcome.Prepared? && !r.outcome.ReadyToTag? && (r.outcome.Died? ==> k.killed)
    {
      hide HexString;
      if !ValidRequest(q) {
        return Halted(Rejected("arguments"));
      }
      if !k.rootGood {
        return Halted(Rejected("filesystem-root"));
      }
      var left := k.steps;
      var created := lock.None?;
      if created {
        if left == 0 {
          return Halted(Stopped(k, "authority-lock"));
        }
        lock, left := Some(k.newLock), left - 1;
      }
      if k.busy {
        return Halted(Rejected("authority-busy"));
      }
      if created && (!owner.NoOwner? || plans.Some? || index.Some?) {
        return Halted(Rejected("authority-state-loss"));
      }
      if created && q.mode.Claim? {
        if left == 0 {
          return Halted(Stopped(k, "authority-initialization"));
        }
        plans := Some(k.newPlans);
        if left == 1 {
          return Halted(Stopped(k, "authority-initialization"));
        }
        index, left := Some(k.newIndex), left - 2;
      }
      if plans.None? || index.None? || torn || |burned| > PLAN_MAX_SITES {
        return Halted(Rejected("authority-plans"));
      }
      if created && q.mode.Claim? {
        if left == 0 {
          return Halted(Stopped(k, "authority-owner"));
        }
        owner := TornOwner;
        if left == 1 {
          return Halted(Stopped(k, "authority-sync"));
        }
        owner, left := OwnerIs(ExpectedOwner(State(), q)), left - 2;
      } else if owner != OwnerIs(ExpectedOwner(State(), q)) {
        return Halted(Rejected("authority-owner"));
      }
      var valid := ValidateIndex(burned);
      return if valid then Ready(left) else Halted(Rejected("authority-reservations"));
    }

    /** The last part of a claim: burn the pair first, then publish the journal. */
    method Burn(q: Request, k: Scene, j: JournalFile, left: nat) returns (o: Outcome)
      requires ValidRequest(q) && j.header.site == q.site && j.header.project == q.project && pending == {}
      modifies this
      ensures State() == old(State()) || BurnEffect(old(State()), State(), q)
      ensures o.Prepared? ==> State() == Published(old(State()), q, j)
      ensures left >= 5 ==> o.Prepared?
      ensures o.Prepared? || o == Stopped(k, "plan-sync")
    {
      if left == 0 {
        return Stopped(k, "plan-sync");
      }
      if left == 1 {
        torn := true;
        return Stopped(k, "plan-sync");
      }
      burned := burned + [Reservation(q.site, q.project)];
      if left == 2 {
        return Stopped(k, "plan-sync");
      }
      pending := pending + {q.site};
      if left == 3 {
        return Stopped(k, "plan-sync");
      }
      journals := journals[q.site := j];
      pending := pending - {q.site};
      return if left == 4 then Stopped(k, "plan-sync") else Prepared;
    }

    /** The census, and the search of its table for the requested project. */
    method FindFree(q: Request, k: Scene) returns (r: Verdict, scanned: nat)
      requires ValidRequest(q)
      ensures r.Passed? ==> exists n, m :: CensusCertified(k, n, m)
      ensures r.Passed? ==> forall n, m | CensusCertified(k, n, m) ::
                q.project !in ProjectsOf(Seen(k.bulk, n)) + QuotaIds(k.quota, m) && scanned == |Seen(k.bulk, n)|
      ensures r.Refused? ==> forall n, m | CensusCertified(k, n, m) ::
                q.project in ProjectsOf(Seen(k.bulk, n)) + QuotaIds(k.quota, m)
    {
      var projects := new ProjectSet();
      var n, m;
      assert projects.Members() == {};
      hide ProjectSet.Valid, InodesCertified, QuotasCertified, ValidRequest, ProjectSet.Members;
      ghost var known := projects.Members();
      r, scanned, n, m := CheckedCensus(k.bulk, k.quota, projects, null);
      assert known == {};
      if r.Refused? {
        return;
      }
      assert CensusCertified(k, n, m);
      OneCensus(k, n, m);
      var ids := projects.Collect();
      assert q.project in ids <==> q.project in Elements(ids);
      if q.project in ids {
        return Refused("project-occupied"), scanned;
      }
    }

    /** Both audits, then both collections, which must agree in number. */
    method CollectTrees(k: Scene, scanned: nat) returns (r: Verdict, nodes: seq<Node>)
      ensures r.Passed? <==> TreesClear(k) && |Visits(k.collectWp)| + |Visits(k.collectDb)| <= scanned
      ensures r.Passed? ==> nodes == NodesOf(Visits(k.collectWp), 0) + NodesOf(Visits(k.collectDb), 1)
    {
      nodes := [];
      hide Auditable, Collectable, WalkSatisfies, Visits, NodesOf;
      var wpCount, dbCount;
      r, wpCount := AuditTree(k.auditWp, k.device, k.dbRoot, 0, 0);
      if r.Refused? {
        return;
      }
      r, dbCount := AuditTree(k.auditDb, k.device, k.wpRoot, 0, 0);
      if r.Refused? {
        return;
      }
      var snapshot := new Snapshot();
      r := snapshot.CollectNodes(k.collectWp, 0, 0);
      if r.Refused? {
        return;
      }
      var wp := |snapshot.nodes|;
      r := snapshot.CollectNodes(k.collectDb, 1, 0);
      if r.Refused? {
        return;
      }
      nodes := snapshot.nodes;
      if wp != wpCount || |nodes| - wp != dbCount || |nodes| > scanned {
        return Refused("tree-changed"), nodes;
      }
    }

    /** Census, audits and snapshot. */
    method TakeSnapshot(q: Request, k: Scene) returns (r: Verdict, nodes: seq<Node>)
      requires ValidRequest(q)
      ensures r.Passed? <==> TreesClear(k) && CensusClear(q, k)
      ensures r.Passed? ==> nodes == NodesOf(Visits(k.collectWp), 0) + NodesOf(Visits(k.collectDb), 1)
    {
      hide TreesClear, CensusCertified, ValidRequest;
      var scanned;
      r, scanned := FindFree(q, k);
      if r.Refused? {
        return r, [];
      }
      r, nodes := CollectTrees(k, scanned);
    }

    /** The scan of the plans directory and what follows it. */
    method Publish(q: Request, k: Scene, j: JournalFile, left: nat) returns (o: Outcome)
      requires Lists(k.listing, State()) && Opened(State(), q) && ValidRequest(q) && DistinctReservations(burned)
      requires j.header.site == q.site && j.header.project == q.project
      modifies this
      ensures State() == old(State()) || (ReadyToBurn(old(State()), q) && BurnEffect(old(State()), State(), q))
      ensures o.Prepared? ==>
                && Opened(State(), q) && Balanced(State()) && Balanced(old(State()))
                && q.site in journals && journals[q.site] == j && Indexed(burned, j.header)
      ensures JournalsAllow(old(State()), q, j) && left >= 5 ==> o.Prepared?
      ensures !o.ReadyToTag? && (o.Died? ==> k.killed)
    {
      hide HexString, DistinctReservations, GoodName, Indexed;
      ghost var u := State();
      assert DistinctReservations(u.burned);
      var r := ScanPlans(State(), k.listing, q);
      if r.Refused? {
        if JournalsAllow(u, q, j) {
          AllowedListing(u, k.listing, q);
        }
        return Rejected(r.reason);
      }
      ScanMeansJournals(u, k.listing, q);
      GoodNamesAllowClaim(u, q);
      hide Lists;
      if |k.listing| != |burned| {
        return Rejected("plan-state-loss");
      }
      if q.site in journals {
        return if journals[q.site] == j then Prepared else Rejected("plan-changed");
      }
      if !q.mode.Claim? {
        return Rejected("plan-missing");
      }
      if |k.listing| >= PLAN_MAX_SITES {
        return Rejected("plan-limit");
      }
      o := Burn(q, k, j, left);
      if o.Prepared? {
        PublishedIsBalanced(u, q, j);
      }
    }

    /** prepare for a claim or a repeated preparation. */
    method Prepare(q: Request, k: Scene) returns (o: Outcome)
      requires Lists(k.listing, State())
      modifies this
      ensures RunStep(old(State()), State(), q)
      ensures o.Prepared? ==>
                && ValidRequest(q) && TreesClear(k) && CensusClear(q, k) && Opened(State(), q) && Balanced(State())
                && q.site in journals && journals[q.site] == JournalFor(q, k.collectWp, k.collectDb)
                && Indexed(burned, journals[q.site].header)
      ensures Interrupted(old(State())) ==> !o.Prepared?
      ensures o.ReadyToTag? ==> q.mode.Tag? && Opened(State(), q) && ValidIndex(burned) && State() == old(State())
      ensures o.Died? ==> k.killed
      ensures (&& !q.mode.Tag? && Usable(old(State()), q) && k.rootGood && !k.busy && k.steps >= 10
               && TreesClear(k) && CensusClear(q, k)
               && JournalsAllow(old(State()), q, JournalFor(q, k.collectWp, k.collectDb))) ==> o.Prepared?
      ensures q.mode.Tag? && Usable(old(State()), q) && k.rootGood && !k.busy && k.steps >= 5 ==> o.ReadyToTag?
    {
      hide HexString, DistinctReservations, CensusClear, TreesClear, BurnEffect, JournalFor, Indexed, JournalsAllow,
           ReadyToBurn, InitialisedFrom, Opened, Balanced, Interrupted, Lists, Usable;
      ghost var a := State();
      var opening := Open(q, k);
      ghost var u := State();
      if opening.Halted? {
        return opening.outcome;
      }
      if q.mode.Tag? {
        return ReadyToTag;
      }
      AfterOpening(a, u, q, k);
      o := PrepareJournal(q, k, opening.left);
    }

    /** Second half of prepare: the snapshot and its journal. */
    method PrepareJournal(q: Request, k: Scene, left: nat) returns (o: Outcome)
      requires Lists(k.listing, State()) && Opened(State(), q) && ValidRequest(q) && DistinctReservations(burned)
      modifies this
      ensures State() == old(State()) || (ReadyToBurn(old(State()), q) && BurnEffect(old(State()), State(), q))
      ensures o.Prepared? ==>
                && TreesClear(k) && CensusClear(q, k)
                && Opened(State(), q) && Balanced(State()) && Balanced(old(State()))
                && q.site in journals && journals[q.site] == JournalFor(q, k.collectWp, k.collectDb)
                && Indexed(burned, journals[q.site].header)
      ensures (&& TreesClear(k) && CensusClear(q, k) && left >= 5
               && JournalsAllow(old(State()), q, JournalFor(q, k.collectWp, k.collectDb))) ==> o.Prepared?
      ensures !o.ReadyToTag? && (o.Died? ==> k.killed)
    {
      hide HexString, DistinctReservations, CensusClear, WalkSatisfies, Collectable, BurnEffect, JournalFor, Indexed,
           JournalsAllow, ReadyToBurn, Opened, Balanced, Lists, ValidRequest;
      var r, nodes := TakeSnapshot(q, k);
      if r.Refused? {
        return Rejected(r.reason);
      }
      JournalForRequest(q, k.collectWp, k.collectDb);
      o := Publish(q, k, JournalFor(q, k.collectWp, k.collectDb), left);
    }
  }

  /** What held before the opening still does: the directory's names, a journal that the state
      allows, and what tells an interrupted authority. */
  lemma AfterOpening(a: Store, u: Store, q: Request, k: Scene)
    requires u == a || InitialisedFrom(a, u, q)
    requires Lists(k.listing, a) && ValidRequest(q) && Opened(u, q) && ValidIndex(u.burned)
    ensures Lists(k.listing, u) && DistinctReservations(u.burned)
    ensures Balanced(u) ==> !Interrupted(a)
    ensures TreesClear(k) ==>
              var j := JournalFor(q, k.collectWp, k.collectDb);
              JournalsAllow(a, q, j) ==> JournalsAllow(u, q, j)
  {
    hide HexString, DistinctReservations, GoodName, Indexed, JournalFor, WalkSatisfies;
    if TreesClear(k) {
      var j := JournalFor(q, k.collectWp, k.collectDb);
      if JournalsAllow(a, q, j) {
        AllowedAfterOpening(a, u, q, j);
      }
    }
  }

  /** Scanned names leave a pair whose site has no journal free among the journals. */
  lemma GoodNamesAllowClaim(u: Store, q: Request)
    requires forall x | x in u.journals :: GoodName(u, x, q)
    ensures q.site !in u.journals ==> forall x | x in u.journals :: u.journals[x].header.project != q.project
    ensures forall x | x in u.journals :: Indexed(u.burned, u.journals[x].header)
  {
    hide OwnJournal, HexString;
  }

  lemma PublishedIsBalanced(u: Store, q: Request, j: JournalFile)
    requires ValidRequest(q) && Balanced(u) && q.site !in u.journals && Opened(u, q)
    requires |u.burned| < PLAN_MAX_SITES && j.header.site == q.site && j.header.project == q.project
    ensures Balanced(Published(u, q, j)) && Opened(Published(u, q, j), q)
    ensures Indexed(Published(u, q, j).burned, j.header)
  {
    IndexedGrows(u.burned, Reservation(q.site, q.project), j.header);
    assert u.journals[q.site := j].Keys == u.journals.Keys + {q.site};
  }

  lemma JournalForRequest(q: Request, wp: View, db: View)
    requires ValidRequest(q) && |Visits(wp)| + |Visits(db)| <= PLAN_MAX_NODES
    ensures JournalFor(q, wp, db).header.site == q.site && JournalFor(q, wp, db).header.project == q.project
  {
  }

  lemma AllowedAfterOpening(a: Store, u: Store, q: Request, j: JournalFile)
    requires JournalsAllow(a, q, j) && (u == a || InitialisedFrom(a, u, q))
    ensures JournalsAllow(u, q, j)
  {
    hide OwnJournal, HexString;
  }

  /** Tagging is refused as well while a publication is unfinished: journals that match the
      reservations one by one leave nothing interrupted (validate_journals). */
  lemma AdmissibleTaggingIsBalanced(s: Store, q: Request, listing: seq<string>, file: JournalFile, args: Header,
                                    env: Tagging.Env)
    requires Opened(s, q) && Lists(listing, s)
    requires env.reservations == s.burned && |env.entries| == |listing|
    requires forall i | 0 <= i < |listing| :: env.entries[i].name == listing[i]
    requires Tagging.Admissible(file, args, env)
    ensures Balanced(s) && !Interrupted(s)
  {
    forall i | 0 <= i < |listing|
      ensures HexString(listing[i], 16)
    {
      assert GoodEntry(env.entries[i], env.reservations, file);
    }
    HexNamesAreJournals(s, listing);
  }

  lemma OneCensus(k: Scene, n: nat, m: nat)
    requires CensusCertified(k, n, m)
    ensures forall x, y | CensusCertified(k, x, y) :: x == n && QuotaIds(k.quota, y) == QuotaIds(k.quota, m)
  {
    forall x, y | CensusCertified(k, x, y)
      ensures x == n && QuotaIds(k.quota, y) == QuotaIds(k.quota, m)
    {
      CertifiedOnce(k.bulk, {}, Unchecked, x, n);
      QuotasCertifiedOnce(k.quota, {} + ProjectsOf(Seen(k.bulk, n)), y, m);
    }
  }

  lemma AllowedListing(s: Store, listing: seq<string>, q: Request)
    requires Lists(listing, s) && s.pending == {}
    requires |s.journals| <= PLAN_MAX_SITES && forall x | x in s.journals :: GoodName(s, x, q)
    ensures |listing| <= PLAN_MAX_SITES && forall i | 0 <= i < |listing| :: GoodName(s, listing[i], q)
  {
    DistinctSize(listing);
    assert Elements(listing) == s.journals.Keys;
  }
}
