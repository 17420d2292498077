/**
 The two global ownership checks of a tagging run (deploy/storage-tagging.h): every inode
 carrying the project is a tagged node of this journal, and every journal on the disk
 belongs to exactly one burned reservation.
 */
module Ownership {
  import opened Common
  import opened Journals
  import opened Pinning
  import opened TagStates
  import opened ProjectSets
  import opened Census

  datatype QuotaQuery = NoRecord | QueryError
    | Record(proper: bool, limited: bool, inodes: nat, sectors: nat, realtime: nat)

  /** What the kernel answers during one verify_global_project. */
  datatype GlobalView = GlobalView(
    syncFails: bool, defaults: QuotaQuery, bulk: nat -> BulkReply, quota: nat -> QuotaReply, usage: QuotaQuery)

  /** quota_without_limits: a missing record counts as no limits and no usage. */
  predicate WithoutLimits(q: QuotaQuery) {
    q.NoRecord? || (q.Record? && q.proper && !q.limited)
  }

  predicate UsageIs(q: QuotaQuery, inodes: nat, sectors: nat) {
    if q.Record? then q.inodes == inodes && q.sectors == sectors && q.realtime == 0
    else inodes == 0 && sectors == 0
  }

  /** The inodes that the census reports with the given project. */
  ghost function Carriers(project: uint32, records: seq<InodeStat>): set<uint64> {
    if records == [] then {}
    else
      var front, last := Carriers(project, records[..|records| - 1]), records[|records| - 1];
      if last.project == project then front + {last.ino} else front
  }

  lemma {:induction false} CarriersMeaning(project: uint32, records: seq<InodeStat>, ino: uint64)
    ensures ino in Carriers(project, records) <==> exists st :: st in records && st.project == project && st.ino == ino
  {
    if records != [] {
      var front, last := records[..|records| - 1], records[|records| - 1];
      CarriersMeaning(project, front, ino);
      assert records == front + [last];
    }
  }

  /** Rising inode numbers make the counter equal to the number of distinct carriers. */
  lemma {:induction false} CarrierCount(project: uint32, records: seq<InodeStat>)
    requires forall i, k | 0 <= i < k < |records| :: records[i].ino < records[k].ino
    ensures |Carriers(project, records)| == MatchCount(project, records)
  {
    if records != [] {
      var front, last := records[..|records| - 1], records[|records| - 1];
      CarrierCount(project, front);
      CarriersMeaning(project, front, last.ino);
      assert forall k | 0 <= k < |front| :: front[k] == records[k];
    }
  }

  /** The inodes of the journal nodes recorded as tagged. */
  ghost function TaggedInodes(j: JournalFile, projects: seq<uint32>, n: nat): set<uint64>
    requires n <= |j.nodes| == |projects|
  {
    if n == 0 then {}
    else
      var front := TaggedInodes(j, projects, n - 1);
      if projects[n - 1] == j.header.project then front + {j.nodes[n - 1].inode} else front
  }

  lemma {:induction false} TaggedInodesMeaning(j: JournalFile, projects: seq<uint32>, n: nat, ino: uint64)
    requires n <= |j.nodes| == |projects|
    ensures ino in TaggedInodes(j, projects, n) <==>
              exists i :: 0 <= i < n && projects[i] == j.header.project && j.nodes[i].inode == ino
  {
    if n > 0 {
      TaggedInodesMeaning(j, projects, n - 1, ino);
    }
  }

  ghost function TaggedPrefix(s: PinState, n: nat): (r: set<int>)
    requires n <= |s.fds| == |s.projects|
    ensures forall i :: i in r <==> 0 <= i < n && s.fds[i].Some? && s.projects[i] != 0
  {
    if n == 0 then {}
    else
      var front := TaggedPrefix(s, n - 1);
      if s.fds[n - 1].Some? && s.projects[n - 1] != 0 then front + {n - 1} else front
  }

  lemma TaggedPrefixOfAll(s: PinState)
    requires |s.fds| == |s.projects|
    ensures TaggedPrefix(s, |s.fds|) == TaggedNodes(s)
  {
    hide TaggedPrefix;
  }

  function TaggedCount(project: uint32, projects: seq<uint32>, n: nat): nat
    requires n <= |projects|
  {
    if n == 0 then 0
    else TaggedCount(project, projects, n - 1) + if projects[n - 1] == project then 1 else 0
  }

  /** Distinct inodes: as many tagged inodes as tagged nodes. */
  lemma {:induction false} TaggedInodeCount(j: JournalFile, projects: seq<uint32>, n: nat)
    requires DistinctInodes(j.nodes) && n <= |j.nodes| == |projects|
    ensures |TaggedInodes(j, projects, n)| == TaggedCount(j.header.project, projects, n)
  {
    if n > 0 {
      TaggedInodeCount(j, projects, n - 1);
      NewInode(j, projects, n - 1);
      hide DistinctInodes;
      AddOneSize(TaggedInodes(j, projects, n - 1), j.nodes[n - 1].inode);
    }
  }

  lemma {:induction false} TaggedNodeCount(project: uint32, s: PinState, n: nat)
    requires project != 0 && n <= |s.fds| == |s.projects|
    requires forall i | 0 <= i < n :: s.fds[i].Some? && (s.projects[i] == 0 || s.projects[i] == project)
    ensures |TaggedPrefix(s, n)| == TaggedCount(project, s.projects, n)
  {
    if n > 0 {
      TaggedNodeCount(project, s, n - 1);
      AddOneSize(TaggedPrefix(s, n - 1), n - 1);
    }
  }

  lemma NewInode(j: JournalFile, projects: seq<uint32>, n: nat)
    requires DistinctInodes(j.nodes) && n < |j.nodes| == |projects|
    ensures j.nodes[n].inode !in TaggedInodes(j, projects, n)
  {
    TaggedInodesMeaning(j, projects, n, j.nodes[n].inode);
  }

  /** Every carrier accepted by the census check is the inode of a tagged node. */
  lemma {:induction false} CarriersAreTagged(j: JournalFile, projects: seq<uint32>, blocks: nat,
                                             records: seq<InodeStat>)
    requires Ordered(j) && |projects| == |j.nodes|
    requires RecordsPass(j, projects, blocks, records)
    ensures Carriers(j.header.project, records) <= TaggedInodes(j, projects, |j.nodes|)
  {
    if records != [] {
      var last := records[|records| - 1];
      CarriersAreTagged(j, projects, blocks, records[..|records| - 1]);
      if last.project == j.header.project {
        TaggedInodesMeaning(j, projects, |j.nodes|, last.ino);
      }
    }
  }

  /** Counting certifies exact ownership: as many distinct carriers as tagged nodes, and a
      one-to-one lookup between them, leave no foreign carrier and no missing node. */
  lemma EqualCountsMeanExactOwnership(
    j: JournalFile, s: PinState, bulk: nat -> BulkReply, known: set<uint32>, calls: nat)
    requires Ordered(j) && Fits(|j.nodes|, s) && Consistent(j, s)
    requires forall i | 0 <= i < |j.nodes| :: s.fds[i].Some?
    requires InodesCertified(bulk, known, Owned(j, s.projects, 0), calls)
    requires MatchCount(j.header.project, Seen(bulk, calls)) == |TaggedNodes(s)|
    ensures Carriers(j.header.project, Seen(bulk, calls)) == TaggedInodes(j, s.projects, |j.nodes|)
  {
    SeenInodesRise(bulk, calls);
    CarrierCount(j.header.project, Seen(bulk, calls));
    CarriersAreTagged(j, s.projects, 0, Seen(bulk, calls));
    TaggedInodeCount(j, s.projects, |j.nodes|);
    TaggedNodeCount(j.header.project, s, |j.nodes|);
    TaggedPrefixOfAll(s);
    SubsetSize(Carriers(j.header.project, Seen(bulk, calls)), TaggedInodes(j, s.projects, |j.nodes|));
  }

  ghost predicate AllPinnedDown(s: PinState) {
    forall i | 0 <= i < |s.fds| :: s.fds[i].Some?
  }

  /** The answers with which the global check succeeds: every carrier is owned, their
      number is that of the tagged nodes, and the native accounting agrees. */
  ghost predicate GloballyOwned(j: JournalFile, s: PinState, view: GlobalView, n: nat, m: nat)
    requires Ordered(j) && Fits(|j.nodes|, s)
  {
    && !view.syncFails && WithoutLimits(view.defaults) && WithoutLimits(view.usage)
    && CheckFits(Owned(j, s.projects, 0))
    && InodesCertified(view.bulk, {}, Owned(j, s.projects, 0), n)
    && QuotasCertified(view.quota, {} + ProjectsOf(Seen(view.bulk, n)), m)
    && MatchCount(j.header.project, Seen(view.bulk, n)) == |TaggedNodes(s)|
    && UsageIs(view.usage, |TaggedNodes(s)|, SectorSum(j.header.project, Seen(view.bulk, n)))
  }

  /** The census of verify_global_project, counting into `seen` and `blocks`. */
  method GlobalCensus(s: TagState, view: GlobalView) returns (r: Verdict, calls: nat, quotaCalls: nat)
    requires s.Valid()
    modifies s`seen, s`blocks
    ensures s.Valid() && CheckFits(Owned(s.j, s.projects[..], 0))
    ensures r.Passed? ==>
              && InodesCertified(view.bulk, {}, Owned(s.j, s.projects[..], 0), calls)
              && QuotasCertified(view.quota, {} + ProjectsOf(Seen(view.bulk, calls)), quotaCalls)
    ensures r.Passed? ==> s.seen == MatchCount(s.j.header.project, Seen(view.bulk, calls))
    ensures r.Passed? ==> s.blocks == SectorSum(s.j.header.project, Seen(view.bulk, calls))
    ensures r.Refused? ==> forall n, m | InodesCertified(view.bulk, {}, Owned(s.j, s.projects[..], 0), n) ::
              !QuotasCertified(view.quota, {} + ProjectsOf(Seen(view.bulk, n)), m)
  {
    var projects := new ProjectSet();
    s.ResetCensus();
    ghost var check, known := CheckOf(s), projects.Members();
    assert check == Owned(s.j, s.projects[..], 0) && CheckFits(check) && known == {};
    hide ProjectSet.Valid, TagState.Valid, InodesCertified, QuotasCertified, Searchable;
    var scanned;
    r, scanned, calls, quotaCalls := CheckedCensus(view.bulk, view.quota, projects, s);
  }

  /** verify_global_project. */
  method VerifyGlobalProject(s: TagState, view: GlobalView) returns (r: Verdict, calls: nat, quotaCalls: nat)
    requires s.Valid() && AllPinnedDown(s.Pins())
    modifies s`seen, s`blocks
    ensures s.Valid()
    ensures r.Passed? ==> GloballyOwned(s.j, s.Pins(), view, calls, quotaCalls)
    ensures r.Refused? ==> forall n, m :: !GloballyOwned(s.j, s.Pins(), view, n, m)
    ensures r.Passed? ==>
              Carriers(s.j.header.project, Seen(view.bulk, calls)) ==
              TaggedInodes(s.j, s.projects[..], |s.j.nodes|)
  {
    ghost var pins := s.Pins();
    assert s.tagged == |TaggedNodes(pins)|;
    assert Ordered(s.j) && Fits(|s.j.nodes|, pins) && Consistent(s.j, pins);
    calls, quotaCalls := 0, 0;
    hide TagState.Valid, Ordered, InodesCertified, QuotasCertified, Consistent, Searchable;
    hide WithoutLimits, UsageIs, TaggedNodes;
    if view.syncFails {
      return Refused("tag-sync"), calls, quotaCalls;
    }
    if !WithoutLimits(view.defaults) {
      return Refused("unexpected-quota-limit"), calls, quotaCalls;
    }
    r, calls, quotaCalls := GlobalCensus(s, view);
    assert s.Pins() == pins;
    if r.Refused? {
      NoCensusNoOwnership(s.j, pins, view);
      return;
    }
    OnlyTheseCalls(s.j, pins, view, calls, quotaCalls);
    if s.seen != s.tagged {
      return Refused("project-not-owned"), calls, quotaCalls;
    }
    if !WithoutLimits(view.usage) {
      return Refused("unexpected-quota-limit"), calls, quotaCalls;
    }
    if !UsageIs(view.usage, s.seen, s.blocks) {
      return Refused("quota-accounting"), calls, quotaCalls;
    }
    EqualCountsMeanExactOwnership(s.j, pins, view.bulk, {}, calls);
    return Passed, calls, quotaCalls;
  }

  lemma NoCensusNoOwnership(j: JournalFile, s: PinState, view: GlobalView)
    requires Ordered(j) && Fits(|j.nodes|, s) && CheckFits(Owned(j, s.projects, 0))
    requires forall n, m | InodesCertified(view.bulk, {}, Owned(j, s.projects, 0), n) ::
               !QuotasCertified(view.quota, {} + ProjectsOf(Seen(view.bulk, n)), m)
    ensures forall n, m :: !GloballyOwned(j, s, view, n, m)
  {
    hide InodesCertified, QuotasCertified, Ordered, Searchable;
  }

  /** The census is certified by one number of calls, so its counts are determined. */
  lemma OnlyTheseCalls(j: JournalFile, s: PinState, view: GlobalView, calls: nat, quotaCalls: nat)
    requires Ordered(j) && Fits(|j.nodes|, s) && CheckFits(Owned(j, s.projects, 0))
    requires InodesCertified(view.bulk, {}, Owned(j, s.projects, 0), calls)
    ensures forall n, m | GloballyOwned(j, s, view, n, m) :: n == calls
  {
    hide InodesCertified, QuotasCertified, Ordered, Searchable;
    forall n, m | GloballyOwned(j, s, view, n, m)
      ensures n == calls
    {
      CertifiedOnce(view.bulk, {}, Owned(j, s.projects, 0), n, calls);
    }
  }

  // ---- Journals against reservations ----

  datatype Reservation = Reservation(site: string, project: uint32)

  /** One directory entry of the plans directory and the journal read from it. */
  datatype PlanEntry = PlanEntry(name: string, file: JournalFile)

  predicate SameAuthority(a: Header, b: Header) {
    a.owner == b.owner && a.daemon == b.daemon && a.state == b.state && a.uuid == b.uuid
  }

  predicate Indexed(reservations: seq<Reservation>, h: Header) {
    exists i | 0 <= i < |reservations| :: reservations[i].project == h.project && reservations[i].site == h.site
  }

  predicate Disjoint(target: JournalFile, nodes: seq<Node>)
    requires Searchable(target.nodes)
  {
    forall i | 0 <= i < |nodes| :: InodeIndex(target.nodes, nodes[i].inode) < 0
  }

  /** One entry is the journal of its own site and indexed. */
  ghost predicate OwnEntry(e: PlanEntry, reservations: seq<Reservation>, target: Header) {
    && HexString(e.name, 16) && ValidJournal(e.file) && e.file.header.site == e.name
    && SameAuthority(e.file.header, target) && Indexed(reservations, e.file.header)
  }

  /** Besides, it is clear of the target's inodes. */
  ghost predicate GoodEntry(e: PlanEntry, reservations: seq<Reservation>, target: JournalFile)
    requires Searchable(target.nodes)
  {
    OwnEntry(e, reservations, target.header) && (e.name != target.header.site ==> Disjoint(target, e.file.nodes))
  }

  function TotalNodes(entries: seq<PlanEntry>): (t: nat) {
    if entries == [] then 0
    else TotalNodes(entries[..|entries| - 1]) + entries[|entries| - 1].file.header.count
  }

  lemma {:induction false} TotalNodesGrows(entries: seq<PlanEntry>, n: nat)
    requires n <= |entries|
    ensures TotalNodes(entries[..n]) <= TotalNodes(entries)
  {
    if n < |entries| {
      TotalNodesGrows(entries[..|entries| - 1], n);
      assert entries[..|entries| - 1][..n] == entries[..n];
    } else {
      assert entries[..n] == entries;
    }
  }

  /** Every entry is good, and there are as many as reservations. */
  ghost predicate GoodDirectory(entries: seq<PlanEntry>, reservations: seq<Reservation>, target: JournalFile)
    requires Searchable(target.nodes)
  {
    && |entries| == |reservations| && TotalNodes(entries) <= MAX_INODES
    && forall k | 0 <= k < |entries| :: GoodEntry(entries[k], reservations, target)
  }

  /** The first n entries are good and have `total` nodes. */
  ghost predicate ReadSoFar(
    entries: seq<PlanEntry>, n: nat, reservations: seq<Reservation>, target: JournalFile, total: nat)
    requires Searchable(target.nodes) && n <= |entries|
  {
    && n <= |reservations| && total == TotalNodes(entries[..n]) <= MAX_INODES
    && forall k | 0 <= k < n :: GoodEntry(entries[k], reservations, target)
  }

  lemma NothingRead(entries: seq<PlanEntry>, reservations: seq<Reservation>, target: JournalFile)
    requires Searchable(target.nodes)
    ensures ReadSoFar(entries, 0, reservations, target, 0)
  {
  }

  /** One more entry is read if it is good and within the limits, as all of a good directory are. */
  lemma ReadStep(
    entries: seq<PlanEntry>, n: nat, reservations: seq<Reservation>, target: JournalFile, total: nat)
    requires Searchable(target.nodes) && n < |entries| && ReadSoFar(entries, n, reservations, target, total)
    ensures var e := entries[n];
            var sum := total + e.file.header.count;
            && (ReadSoFar(entries, n + 1, reservations, target, sum) <==>
                  && n + 1 <= |reservations| && OwnEntry(e, reservations, target.header) && sum <= MAX_INODES
                  && (e.name == target.header.site || Disjoint(target, e.file.nodes)))
            && (GoodDirectory(entries, reservations, target) ==>
                  ReadSoFar(entries, n + 1, reservations, target, sum))
  {
    hide Searchable, OwnEntry, Disjoint;
    assert entries[..n + 1][..n] == entries[..n];
    TotalNodesGrows(entries, n + 1);
  }

  lemma AllRead(entries: seq<PlanEntry>, reservations: seq<Reservation>, target: JournalFile, total: nat)
    requires Searchable(target.nodes) && ReadSoFar(entries, |entries|, reservations, target, total)
    ensures GoodDirectory(entries, reservations, target) <==> |entries| == |reservations|
  {
    hide GoodEntry, Searchable;
    assert entries[..|entries|] == entries;
  }

  method ReadEntry(e: PlanEntry, reservations: seq<Reservation>, target: Header) returns (good: bool)
    ensures good <==> OwnEntry(e, reservations, target)
  {
    hide ValidJournal, Indexed, SameAuthority, HexString;
    if !HexString(e.name, 16) {
      return false;
    }
    good := ReadJournal(e.file);
    good := good && e.file.header.site == e.name && SameAuthority(e.file.header, target) &&
      Indexed(reservations, e.file.header);
  }

  /** validate_journals accepts exactly the directories in which every entry is good and
      there are as many entries as reservations. */
  method ValidateJournals(
    entries: seq<PlanEntry>, readFails: bool, reservations: seq<Reservation>, target: JournalFile)
    returns (r: Verdict)
    requires Ordered(target)
    ensures Searchable(target.nodes)
    ensures r.Passed? <==> !readFails && GoodDirectory(entries, reservations, target)
  {
    assert Searchable(target.nodes);
    hide *;
    NothingRead(entries, reservations, target);
    var total: nat := 0;
    for n := 0 to |entries|
      invariant ReadSoFar(entries, n, reservations, target, total)
    {
      var e := entries[n];
      ReadStep(entries, n, reservations, target, total);
      if n + 1 > |reservations| {
        return Refused("plan-state");
      }
      var good := ReadEntry(e, reservations, target.header);
      total := total + e.file.header.count;
      if !good || total > MAX_INODES {
        return Refused("plan-state");
      }
      if e.name != target.header.site && !Disjoint(target, e.file.nodes) {
        return Refused("journal-overlap");
      }
    }
    AllRead(entries, reservations, target, total);
    return if readFails then Refused("plan-query")
      else if |entries| == |reservations| then Passed else Refused("plan-state-loss");
  }

  ghost predicate DistinctReservations(reservations: seq<Reservation>) {
    forall i, j | 0 <= i < j < |reservations| ::
      reservations[i].site != reservations[j].site && reservations[i].project != reservations[j].project
  }

  ghost function Sites(reservations: seq<Reservation>): (r: set<string>)
    ensures forall i | 0 <= i < |reservations| :: reservations[i].site in r
  {
    if reservations == [] then {}
    else Sites(reservations[..|reservations| - 1]) + {reservations[|reservations| - 1].site}
  }

  ghost function Names(entries: seq<PlanEntry>): (r: set<string>)
    ensures forall x | x in r :: exists i :: 0 <= i < |entries| && entries[i].name == x
  {
    if entries == [] then {} else Names(entries[..|entries| - 1]) + {entries[|entries| - 1].name}
  }

  lemma {:induction false} SiteAmong(reservations: seq<Reservation>, x: string)
    ensures x in Sites(reservations) ==> exists i :: 0 <= i < |reservations| && reservations[i].site == x
  {
    if reservations != [] {
      SiteAmong(reservations[..|reservations| - 1], x);
    }
  }

  lemma {:induction false} SiteCount(reservations: seq<Reservation>)
    requires DistinctReservations(reservations)
    ensures |Sites(reservations)| == |reservations|
  {
    if reservations != [] {
      var front, last := reservations[..|reservations| - 1], reservations[|reservations| - 1];
      SiteCount(front);
      SiteAmong(front, last.site);
      AddOneSize(Sites(front), last.site);
    }
  }

  lemma {:induction false} NameCount(entries: seq<PlanEntry>)
    requires forall i, j | 0 <= i < j < |entries| :: entries[i].name != entries[j].name
    ensures |Names(entries)| == |entries|
  {
    if entries != [] {
      var front, last := entries[..|entries| - 1], entries[|entries| - 1];
      NameCount(front);
      AddOneSize(Names(front), last.name);
    }
  }

  /** A good entry is indexed by a reservation of its own name. */
  lemma EntryReservation(e: PlanEntry, reservations: seq<Reservation>, target: JournalFile) returns (x: nat)
    requires Searchable(target.nodes) && GoodEntry(e, reservations, target)
    ensures x < |reservations| && reservations[x].site == e.name && reservations[x].project == e.file.header.project
    ensures e.name in Sites(reservations)
  {
    x :| 0 <= x < |reservations| && reservations[x].project == e.file.header.project
      && reservations[x].site == e.file.header.site;
  }

  /** Directory names and reserved sites are both free of repetition, so equal counts make
      the correspondence one to one: no reservation is left without its journal. */
  lemma EveryReservationHasItsJournal(
    entries: seq<PlanEntry>, reservations: seq<Reservation>, target: JournalFile, i: nat) returns (k: nat)
    requires Searchable(target.nodes)
    requires DistinctReservations(reservations) && |entries| == |reservations| && i < |reservations|
    requires forall a, b | 0 <= a < b < |entries| :: entries[a].name != entries[b].name
    requires forall k | 0 <= k < |entries| :: GoodEntry(entries[k], reservations, target)
    ensures k < |entries| && entries[k].name == reservations[i].site
    ensures entries[k].file.header.project == reservations[i].project
    ensures forall m | 0 <= m < |entries| && entries[m].file.header.project == reservations[i].project :: m == k
  {
    SiteCount(reservations);
    NameCount(entries);
    hide GoodEntry, Searchable;
    forall x | x in Names(entries)
      ensures x in Sites(reservations)
    {
      var m :| 0 <= m < |entries| && entries[m].name == x;
      var y := EntryReservation(entries[m], reservations, target);
    }
    SubsetSize(Names(entries), Sites(reservations));
    assert reservations[i].site in Names(entries);
    k :| 0 <= k < |entries| && entries[k].name == reservations[i].site;
    forall m | 0 <= m < |entries|
      ensures entries[m].file.header.project == reservations[i].project <==> m == k
    {
      var y := EntryReservation(entries[m], reservations, target);
      SameReservation(reservations, y, i);
      assert entries[m].name == entries[k].name <==> m == k;
      hide DistinctReservations;
    }
  }

  lemma SameReservation(reservations: seq<Reservation>, x: nat, y: nat)
    requires DistinctReservations(reservations) && x < |reservations| && y < |reservations|
    ensures reservations[x].site == reservations[y].site <==> x == y
    ensures reservations[x].project == reservations[y].project <==> x == y
  {
  }
}
