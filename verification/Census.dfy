/**
 The filesystem-wide census (checked_census in deploy/storage-inventory.h): a scan of all
 inodes and an enumeration of all quota records, over replies that are not trusted. The
 kernel is any function from call number to reply.
 */
module Census {
  import opened Common
  import opened Journals
  import opened Pinning
  import opened TagStates
  import opened ProjectSets

  const MAX_INODES: nat := 1000000
  const BATCH: nat := 64
  const BULKSTAT_V5: nat := 5

  type Buffer = b: seq<InodeStat> | |b| == BATCH
    witness seq(BATCH, _ => InodeStat(0, false, 0, 0, 0, 0, 0, 0, 0, 0))

  /** hdr.ino, hdr.ocount and the record buffer after one bulkstat call. */
  datatype BulkReply = QueryFailed | Batch(next: uint64, ocount: nat, records: Buffer)

  /** One Q_XGETNEXTQUOTA reply; `proper` stands for the version and flag checks. */
  datatype QuotaReply = NoMoreQuotas | QuotaFailed | Quota(proper: bool, id: uint32)

  /** The optional per-inode check and the state it starts from. */
  datatype Check = Unchecked | Owned(j: JournalFile, projects: seq<uint32>, blocks: nat)

  // ---- Specification of the inode scan ----

  /** Inode numbers of a batch rise strictly inside the window that the reply announces. */
  ghost predicate GoodBatch(cursor: uint64, reply: BulkReply) {
    && reply.Batch? && cursor < reply.next && 1 <= reply.ocount <= BATCH
    && (forall i | 0 <= i < reply.ocount :: GoodRecord(cursor, reply.next, reply.records[i]))
    && (forall i, k | 0 <= i < k < reply.ocount :: reply.records[i].ino < reply.records[k].ino)
  }

  /** The number that the n-th record of a batch must at least have. */
  function Previous(cursor: uint64, records: Buffer, n: nat): nat
    requires n <= BATCH
  {
    if n == 0 then cursor else records[n - 1].ino + 1
  }

  /** The first n records pass the consecutive comparisons made by the program. */
  ghost predicate GoodRecords(cursor: uint64, next: uint64, records: Buffer, n: nat)
    requires n <= BATCH
  {
    n == 0 || (GoodRecords(cursor, next, records, n - 1) &&
               GoodRecord(Previous(cursor, records, n - 1), next, records[n - 1]))
  }

  lemma {:induction false} GoodRecordsMeaning(cursor: uint64, next: uint64, records: Buffer, n: nat)
    requires n <= BATCH
    ensures GoodRecords(cursor, next, records, n) <==>
              && (forall i | 0 <= i < n :: GoodRecord(cursor, next, records[i]))
              && (forall i, k | 0 <= i < k < n :: records[i].ino < records[k].ino)
  {
    if n > 0 {
      GoodRecordsMeaning(cursor, next, records, n - 1);
    }
  }

  lemma {:induction false} GoodRecordsShrink(cursor: uint64, next: uint64, records: Buffer, n: nat, m: nat)
    requires n <= m <= BATCH && GoodRecords(cursor, next, records, m)
    ensures GoodRecords(cursor, next, records, n)
  {
    if n < m {
      GoodRecordsShrink(cursor, next, records, n, m - 1);
    }
  }

  predicate GoodRecord(lowest: nat, next: uint64, st: InodeStat) {
    st.version == BULKSTAT_V5 && !st.sick && lowest <= st.ino < next
  }

  function Cursor(bulk: nat -> BulkReply, n: nat): uint64 {
    if n > 0 && bulk(n - 1).Batch? then bulk(n - 1).next else 0
  }

  function Records(reply: BulkReply): seq<InodeStat> {
    if reply.Batch? && reply.ocount <= BATCH then reply.records[..reply.ocount] else []
  }

  /** Everything reported by the first n calls. */
  function Seen(bulk: nat -> BulkReply, n: nat): seq<InodeStat> {
    if n == 0 then [] else Seen(bulk, n - 1) + Records(bulk(n - 1))
  }

  ghost predicate GoodCall(bulk: nat -> BulkReply, c: nat) {
    GoodBatch(Cursor(bulk, c), bulk(c))
  }

  /** The first n calls all returned good batches. */
  ghost predicate GoodCalls(bulk: nat -> BulkReply, n: nat) {
    n == 0 || (GoodCalls(bulk, n - 1) && GoodCall(bulk, n - 1))
  }

  lemma {:induction false} GoodCallsEach(bulk: nat -> BulkReply, n: nat, c: nat)
    requires GoodCalls(bulk, n) && c < n
    ensures GoodCall(bulk, c)
  {
    if c < n - 1 {
      GoodCallsEach(bulk, n - 1, c);
    }
  }

  /** The nonzero projects of a list of records. */
  ghost function ProjectsOf(records: seq<InodeStat>): set<uint32> {
    if records == [] then {}
    else
      var front, last := ProjectsOf(records[..|records| - 1]), records[|records| - 1].project;
      if last != 0 then front + {last} else front
  }

  lemma {:induction false} ProjectsOfMeaning(records: seq<InodeStat>, p: uint32)
    ensures p in ProjectsOf(records) <==> p != 0 && exists st :: st in records && st.project == p
  {
    if records != [] {
      var front, last := records[..|records| - 1], records[|records| - 1];
      ProjectsOfMeaning(front, p);
      assert records == front + [last];
    }
  }

  ghost predicate CheckFits(check: Check) {
    check.Owned? ==>
      Searchable(check.j.nodes) && |check.projects| == |check.j.nodes|
  }

  ghost predicate WithinLimits(known: set<uint32>, records: seq<InodeStat>) {
    |records| <= MAX_INODES && |known + ProjectsOf(records)| <= MAX_PROJECTS
  }

  ghost predicate CheckPasses(check: Check, records: seq<InodeStat>)
    requires CheckFits(check)
  {
    check.Owned? ==> RecordsPass(check.j, check.projects, check.blocks, records)
  }

  /** The limits on inodes and identifiers hold and the per-inode check passes. */
  ghost predicate Admits(known: set<uint32>, check: Check, records: seq<InodeStat>)
    requires CheckFits(check)
  {
    WithinLimits(known, records) && CheckPasses(check, records)
  }

  /** The scan is certified by exactly n good batches followed by an empty one. */
  ghost predicate InodesCertified(bulk: nat -> BulkReply, known: set<uint32>, check: Check, n: nat)
    requires CheckFits(check)
  {
    && GoodCalls(bulk, n) && bulk(n).Batch? && bulk(n).ocount == 0
    && Admits(known, check, Seen(bulk, n))
  }

  // ---- Specification of the quota enumeration ----

  function NextId(quota: nat -> QuotaReply, n: nat): nat {
    if n > 0 && quota(n - 1).Quota? then quota(n - 1).id + 1 else 0
  }

  ghost predicate GoodQuota(quota: nat -> QuotaReply, c: nat) {
    quota(c).Quota? && quota(c).proper && NextId(quota, c) <= quota(c).id
  }

  ghost predicate Final(quota: nat -> QuotaReply, c: nat) {
    quota(c).Quota? && quota(c).id == UINT32_MAX
  }

  /** The first n calls returned proper, rising records, none of them the last possible. */
  ghost predicate GoodQuotas(quota: nat -> QuotaReply, n: nat) {
    n == 0 || (GoodQuotas(quota, n - 1) && GoodQuota(quota, n - 1) && !Final(quota, n - 1))
  }

  lemma {:induction false} GoodQuotasEach(quota: nat -> QuotaReply, n: nat, c: nat)
    requires GoodQuotas(quota, n) && c < n
    ensures GoodQuotas(quota, c) && GoodQuota(quota, c) && !Final(quota, c)
  {
    if c < n - 1 {
      GoodQuotasEach(quota, n - 1, c);
    }
  }

  /** The nonzero identifiers of the first n quota records. */
  ghost function QuotaIds(quota: nat -> QuotaReply, n: nat): set<uint32> {
    if n == 0 then {}
    else QuotaIds(quota, n - 1) + if quota(n - 1).Quota? && quota(n - 1).id != 0 then {quota(n - 1).id} else {}
  }

  /** n rising records end the enumeration: no more are reported, or the last possible
      identifier was. The loop makes at most MAX_PROJECTS + 1 calls in all. */
  ghost predicate Enumerates(quota: nat -> QuotaReply, n: nat) {
    && n <= MAX_PROJECTS + 1
    && (|| (GoodQuotas(quota, n) && n <= MAX_PROJECTS && quota(n).NoMoreQuotas?)
        || (n > 0 && GoodQuotas(quota, n - 1) && GoodQuota(quota, n - 1) && Final(quota, n - 1)))
  }

  /** A complete enumeration whose identifiers fit the table next to the known ones. */
  ghost predicate QuotasCertified(quota: nat -> QuotaReply, known: set<uint32>, n: nat) {
    Enumerates(quota, n) && |known + QuotaIds(quota, n)| <= MAX_PROJECTS
  }

  // ---- Lemmas about the specification ----

  lemma AppendRecord(known: set<uint32>, check: Check, a: seq<InodeStat>, st: InodeStat)
    requires CheckFits(check)
    ensures (a + [st])[..|a + [st]| - 1] == a && (a + [st])[|a + [st]| - 1] == st
    ensures ProjectsOf(a + [st]) == if st.project != 0 then ProjectsOf(a) + {st.project} else ProjectsOf(a)
    ensures CheckPasses(check, a + [st]) <==> CheckPasses(check, a) && (check.Owned? ==>
              RecordPasses(check.j, check.projects, check.blocks + SectorSum(check.j.header.project, a), st))
  {
    hide ProjectsOf, RecordsPass, RecordPasses, SectorSum, SectorCount, Searchable, MatchCount;
    if check.Owned? {
      RecordsPassStep(check.j, check.projects, check.blocks, a, st);
    }
    ProjectsStep(a, st);
  }

  lemma ProjectsStep(a: seq<InodeStat>, st: InodeStat)
    ensures ProjectsOf(a + [st]) == if st.project != 0 then ProjectsOf(a) + {st.project} else ProjectsOf(a)
  {
    assert (a + [st])[..|a + [st]| - 1] == a;
  }

  /** The limits and the check are monotone: a refused prefix refuses the whole scan. */
  lemma {:induction false} AdmitsPrefix(known: set<uint32>, check: Check, a: seq<InodeStat>, b: seq<InodeStat>)
    requires CheckFits(check)
    requires Admits(known, check, a + b)
    ensures Admits(known, check, a)
  {
    if b == [] {
      assert a + b == a;
    } else {
      var front, st := b[..|b| - 1], b[|b| - 1];
      assert a + b == (a + front) + [st];
      AppendRecord(known, check, a + front, st);
      SubsetSize(known + ProjectsOf(a + front), known + ProjectsOf(a + b));
      AdmitsPrefix(known, check, a, front);
    }
  }

  lemma {:induction false} SeenGrows(bulk: nat -> BulkReply, n: nat, m: nat) returns (rest: seq<InodeStat>)
    requires n <= m
    ensures Seen(bulk, m) == Seen(bulk, n) + rest
  {
    if n == m {
      rest := [];
    } else {
      var shorter := SeenGrows(bulk, n, m - 1);
      rest := shorter + Records(bulk(m - 1));
    }
  }

  /** A certified scan never reports an inode twice: numbers rise over the whole scan. */
  lemma {:induction false} SeenInodesRise(bulk: nat -> BulkReply, n: nat)
    requires GoodCalls(bulk, n)
    ensures forall i | 0 <= i < |Seen(bulk, n)| :: Seen(bulk, n)[i].ino < Cursor(bulk, n)
    ensures forall i, k | 0 <= i < k < |Seen(bulk, n)| :: Seen(bulk, n)[i].ino < Seen(bulk, n)[k].ino
  {
    if n > 0 {
      SeenInodesRise(bulk, n - 1);
      var early, late := Seen(bulk, n - 1), Records(bulk(n - 1));
      forall i | 0 <= i < |Seen(bulk, n)|
        ensures Seen(bulk, n)[i].ino < Cursor(bulk, n)
        ensures i < |early| ==> Seen(bulk, n)[i] == early[i]
        ensures i >= |early| ==> Seen(bulk, n)[i] == late[i - |early|]
      {}
    }
  }

  /** At most one call count can certify a scan. */
  lemma CertifiedOnce(bulk: nat -> BulkReply, known: set<uint32>, check: Check, n: nat, m: nat)
    requires CheckFits(check)
    requires InodesCertified(bulk, known, check, n) && InodesCertified(bulk, known, check, m)
    ensures n == m
  {
    if n < m {
      GoodCallsEach(bulk, m, n);
    } else if m < n {
      GoodCallsEach(bulk, n, m);
    }
  }

  lemma QuotasCertifiedOnce(quota: nat -> QuotaReply, known: set<uint32>, n: nat, m: nat)
    requires QuotasCertified(quota, known, n) && QuotasCertified(quota, known, m)
    ensures n == m
  {
    if n < m {
      QuotaShorter(quota, known, n, m);
    } else if m < n {
      QuotaShorter(quota, known, m, n);
    }
  }

  lemma QuotaShorter(quota: nat -> QuotaReply, known: set<uint32>, n: nat, m: nat)
    requires QuotasCertified(quota, known, n) && n < m
    ensures !QuotasCertified(quota, known, m)
  {
    if GoodQuotas(quota, m) {
      GoodQuotasEach(quota, m, n);
    } else if GoodQuotas(quota, m - 1) && n < m - 1 {
      GoodQuotasEach(quota, m - 1, n);
    }
  }

  // ---- The program ----

  ghost function Context(ctx: TagState?): set<TagState> {
    if ctx == null then {} else {ctx}
  }

  ghost function CheckOf(ctx: TagState?): Check
    reads Context(ctx), if ctx == null then {} else {ctx.projects}
  {
    if ctx == null then Unchecked else Owned(ctx.j, ctx.projects[..], ctx.blocks)
  }

  /** Everything reported so far is counted and its projects are in the table. */
  ghost predicate Counted(set0: set<uint32>, done: seq<InodeStat>, projects: ProjectSet, scanned: nat)
    reads projects, projects.slots
  {
    && projects.Valid() && scanned == |done| && WithinLimits(set0, done)
    && projects.Members() == set0 + ProjectsOf(done)
  }

  /** Everything reported so far has passed the check and is accumulated in its context. */
  ghost predicate Checked(check: Check, seen0: nat, done: seq<InodeStat>, ctx: TagState?)
    reads Context(ctx), if ctx == null then {} else {ctx.fds, ctx.projects}
  {
    && CheckFits(check) && CheckPasses(check, done)
    && (ctx == null <==> check.Unchecked?)
    && (ctx != null ==>
          && ctx.Valid()
          && check == Owned(ctx.j, ctx.projects[..], check.blocks)
          && ctx.seen == seen0 + MatchCount(ctx.j.header.project, done)
          && ctx.blocks == check.blocks + SectorSum(ctx.j.header.project, done))
  }

  ghost predicate Apart(projects: ProjectSet, ctx: TagState?) {
    ctx != null ==> ctx.projects != projects.slots
  }

  method CountRecord(
    st: InodeStat, projects: ProjectSet, scanned: nat, ghost set0: set<uint32>, ghost done: seq<InodeStat>)
    returns (ok: bool)
    requires Counted(set0, done, projects, scanned)
    modifies projects`count, projects.slots
    ensures ok <==> WithinLimits(set0, done + [st])
    ensures ok ==> Counted(set0, done + [st], projects, scanned + 1)
    ensures projects.Valid()
  {
    AppendRecord(set0, Unchecked, done, st);
    if scanned + 1 > MAX_INODES {
      return false;
    }
    ghost var members := projects.Members();
    if st.project == 0 {
      assert members == set0 + ProjectsOf(done + [st]);
    } else {
      assert members + {st.project} == set0 + ProjectsOf(done + [st]);
    }
    ok := projects.AddProject(st.project);
  }

  method CheckRecord(
    st: InodeStat, ctx: TagState?, ghost check: Check, ghost seen0: nat, ghost done: seq<InodeStat>)
    returns (r: Verdict)
    requires Checked(check, seen0, done, ctx)
    modifies Context(ctx)`seen, Context(ctx)`blocks
    ensures r.Passed? <==> CheckPasses(check, done + [st])
    ensures r.Passed? ==> Checked(check, seen0, done + [st], ctx)
    ensures ctx != null ==> ctx.Valid()
  {
    if ctx == null {
      return Passed;
    }
    AppendRecord({}, check, done, st);
    r := ctx.CheckProjectInode(st);
  }

  /** One record: its form, then the count and its project, then the check. */
  method CensusRecord(
    st: InodeStat, previous: uint64, next: uint64, projects: ProjectSet, ctx: TagState?, scanned: nat,
    ghost set0: set<uint32>, ghost check: Check, ghost seen0: nat, ghost done: seq<InodeStat>)
    returns (r: Verdict)
    requires Apart(projects, ctx)
    requires Counted(set0, done, projects, scanned) && Checked(check, seen0, done, ctx)
    modifies projects`count, projects.slots, Context(ctx)`seen, Context(ctx)`blocks
    ensures r.Passed? <==> GoodRecord(previous, next, st) && Admits(set0, check, done + [st])
    ensures r.Passed? ==> st.ino < next && Counted(set0, done + [st], projects, scanned + 1)
    ensures r.Passed? ==> Checked(check, seen0, done + [st], ctx)
    ensures projects.Valid() && (ctx != null ==> ctx.Valid())
  {
    if !GoodRecord(previous, next, st) {
      return Refused("inode-response");
    }
    var counted := CountRecord(st, projects, scanned, set0, done);
    if !counted {
      return Refused("scan-limit");
    }
    r := CheckRecord(st, ctx, check, seen0, done);
  }

  /** The records of one reply. */
  method CensusBatch(
    cursor: uint64, reply: BulkReply, projects: ProjectSet, ctx: TagState?, scanned0: nat,
    ghost set0: set<uint32>, ghost check: Check, ghost seen0: nat, ghost done: seq<InodeStat>)
    returns (r: Verdict, scanned: nat)
    requires reply.Batch? && cursor < reply.next && 1 <= reply.ocount <= BATCH
    requires Apart(projects, ctx)
    requires Counted(set0, done, projects, scanned0) && Checked(check, seen0, done, ctx)
    modifies projects`count, projects.slots, Context(ctx)`seen, Context(ctx)`blocks
    ensures r.Passed? <==> GoodBatch(cursor, reply) && Admits(set0, check, done + Records(reply))
    ensures r.Passed? ==> Counted(set0, done + Records(reply), projects, scanned)
    ensures r.Passed? ==> Checked(check, seen0, done + Records(reply), ctx)
    ensures projects.Valid() && (ctx != null ==> ctx.Valid())
  {
    assert CheckFits(check);
    hide *;
    scanned := scanned0;
    var previous: uint64 := cursor;
    ghost var known := done;
    NoRecordYet(done, cursor, reply);
    for n := 0 to reply.ocount
      invariant BatchProgress(done, known, cursor, reply, previous, n)
      invariant Counted(set0, known, projects, scanned) && Checked(check, seen0, known, ctx)
    {
      BatchStep(set0, check, done, known, cursor, reply, previous, n);
      var st := reply.records[n];
      r := CensusRecord(st, previous, reply.next, projects, ctx, scanned, set0, check, seen0, known);
      if r.Refused? {
        return;
      }
      previous := st.ino + 1;
      known := known + [st];
      scanned := scanned + 1;
    }
    WholeBatch(done, known, cursor, reply, previous);
    AdmittedSoFar(set0, check, known, projects, ctx, scanned, seen0);
    return Passed, scanned;
  }

  /** The first n records of the reply are good and follow `done` in `known`. */
  ghost predicate BatchProgress(
    done: seq<InodeStat>, known: seq<InodeStat>, cursor: uint64, reply: BulkReply, previous: uint64, n: nat)
    requires reply.Batch? && n <= reply.ocount <= BATCH
  {
    && previous == Previous(cursor, reply.records, n) && GoodRecords(cursor, reply.next, reply.records, n)
    && known == done + Records(reply)[..n]
  }

  lemma NoRecordYet(done: seq<InodeStat>, cursor: uint64, reply: BulkReply)
    requires reply.Batch? && reply.ocount <= BATCH
    ensures BatchProgress(done, done, cursor, reply, cursor, 0)
  {
  }

  lemma WholeBatch(
    done: seq<InodeStat>, known: seq<InodeStat>, cursor: uint64, reply: BulkReply, previous: uint64)
    requires reply.Batch? && cursor < reply.next && 1 <= reply.ocount <= BATCH
    requires BatchProgress(done, known, cursor, reply, previous, reply.ocount)
    ensures GoodBatch(cursor, reply) && known == done + Records(reply)
  {
    GoodRecordsMeaning(cursor, reply.next, reply.records, reply.ocount);
    assert Records(reply)[..reply.ocount] == Records(reply);
  }

  lemma AdmittedSoFar(set0: set<uint32>, check: Check, known: seq<InodeStat>, projects: ProjectSet, ctx: TagState?,
                      scanned: nat, seen0: nat)
    requires Counted(set0, known, projects, scanned) && Checked(check, seen0, known, ctx)
    ensures Admits(set0, check, known) && projects.Valid() && (ctx != null ==> ctx.Valid())
  {
  }

  /** A batch that is good as a whole is good, and admitted, up to each record. */
  lemma BatchStep(set0: set<uint32>, check: Check, done: seq<InodeStat>, known: seq<InodeStat>, cursor: uint64,
                  reply: BulkReply, previous: uint64, n: nat)
    requires CheckFits(check) && reply.Batch? && n < reply.ocount <= BATCH
    requires BatchProgress(done, known, cursor, reply, previous, n)
    ensures var st := reply.records[n];
            && (GoodRecord(previous, reply.next, st) && st.ino < reply.next ==>
                  BatchProgress(done, known + [st], cursor, reply, st.ino + 1, n + 1))
            && (GoodBatch(cursor, reply) && Admits(set0, check, done + Records(reply)) ==>
                  GoodRecord(previous, reply.next, st) && Admits(set0, check, known + [st]))
  {
    hide Admits, Searchable, CheckFits;
    var all, st := Records(reply), reply.records[n];
    var early, late := all[..n + 1], all[n + 1..];
    assert early == all[..n] + [st] && all == early + late;
    AppendAssociates(done, all[..n], [st]);
    AppendAssociates(done, early, late);
    if GoodBatch(cursor, reply) && Admits(set0, check, done + all) {
      GoodRecordsMeaning(cursor, reply.next, reply.records, reply.ocount);
      GoodRecordsShrink(cursor, reply.next, reply.records, n + 1, reply.ocount);
      AdmitsPrefix(set0, check, done + early, late);
    }
  }

  /** First loop of checked_census. Either some call count certifies the scan, or none does. */
  method InodeCensus(bulk: nat -> BulkReply, projects: ProjectSet, ctx: TagState?)
    returns (r: Verdict, scanned: nat, calls: nat)
    requires projects.Valid() && |projects.Members()| <= MAX_PROJECTS
    requires ctx != null ==> ctx.Valid() && ctx.projects != projects.slots
    modifies projects`count, projects.slots, Context(ctx)`seen, Context(ctx)`blocks
    ensures projects.Valid() && (ctx != null ==> ctx.Valid())
    ensures r.Passed? ==> InodesCertified(bulk, old(projects.Members()), old(CheckOf(ctx)), calls)
    ensures r.Refused? ==> forall n :: !InodesCertified(bulk, old(projects.Members()), old(CheckOf(ctx)), n)
    ensures r.Passed? ==> scanned == |Seen(bulk, calls)|
    ensures r.Passed? ==> projects.Members() == old(projects.Members()) + ProjectsOf(Seen(bulk, calls))
    ensures r.Passed? && ctx != null ==>
              && ctx.seen == old(ctx.seen) + MatchCount(ctx.j.header.project, Seen(bulk, calls))
              && ctx.blocks == old(ctx.blocks) + SectorSum(ctx.j.header.project, Seen(bulk, calls))
  {
    hide WellFormed, ProjectSet.Members, TagState.Valid;
    ghost var set0, check, seen0 := projects.Members(), CheckOf(ctx), if ctx == null then 0 else ctx.seen;
    var cursor: uint64 := 0;
    scanned, calls := 0, 0;
    EmptyProgress(set0, check, seen0, projects, ctx);
    while true
      invariant GoodCalls(bulk, calls) && cursor == Cursor(bulk, calls)
      invariant Counted(set0, Seen(bulk, calls), projects, scanned)
      invariant Checked(check, seen0, Seen(bulk, calls), ctx)
      decreases MAX_INODES - scanned
    {
      var reply := bulk(calls);
      if reply.QueryFailed? || reply.ocount > BATCH {
        StuckCall(bulk, set0, check, calls);
        return Refused("inode-query"), scanned, calls;
      }
      if reply.ocount == 0 {
        return Passed, scanned, calls;
      }
      if reply.next <= cursor {
        StuckCall(bulk, set0, check, calls);
        return Refused("inode-cursor"), scanned, calls;
      }
      ghost var before := scanned;
      r, scanned := CensusBatch(cursor, reply, projects, ctx, scanned, set0, check, seen0, Seen(bulk, calls));
      if r.Refused? {
        StuckCall(bulk, set0, check, calls);
        return;
      }
      calls := calls + 1;
      cursor := reply.next;
    }
  }

  lemma EmptyProgress(set0: set<uint32>, check: Check, seen0: nat, projects: ProjectSet, ctx: TagState?)
    requires projects.Valid() && set0 == projects.Members() && |set0| <= MAX_PROJECTS
    requires ctx != null ==> ctx.Valid() && ctx.projects != projects.slots
    requires check == CheckOf(ctx) && seen0 == if ctx == null then 0 else ctx.seen
    ensures Counted(set0, [], projects, 0) && Checked(check, seen0, [], ctx)
  {
    assert ProjectsOf([]) == {};
    assert set0 + {} == set0;
  }

  /** A call that cannot be continued rules out every certification of the scan. */
  lemma StuckCall(bulk: nat -> BulkReply, known: set<uint32>, check: Check, c: nat)
    requires CheckFits(check)
    requires GoodCalls(bulk, c) && !(bulk(c).Batch? && bulk(c).ocount == 0)
    requires !GoodCall(bulk, c) || !Admits(known, check, Seen(bulk, c + 1))
    ensures forall n :: !InodesCertified(bulk, known, check, n)
  {
    hide Admits, GoodCall, Searchable;
    forall n: nat
      ensures !InodesCertified(bulk, known, check, n)
    {
      if n < c {
        NotYetEmpty(bulk, c, n);
      } else if n > c && GoodCalls(bulk, n) {
        StuckLater(bulk, known, check, c, n);
      }
    }
  }

  lemma NotYetEmpty(bulk: nat -> BulkReply, c: nat, n: nat)
    requires GoodCalls(bulk, c) && n < c
    ensures bulk(n).Batch? && bulk(n).ocount != 0
  {
    GoodCallsEach(bulk, c, n);
  }

  lemma StuckLater(bulk: nat -> BulkReply, known: set<uint32>, check: Check, c: nat, n: nat)
    requires CheckFits(check) && c < n && GoodCalls(bulk, n)
    requires !GoodCall(bulk, c) || !Admits(known, check, Seen(bulk, c + 1))
    ensures !Admits(known, check, Seen(bulk, n))
  {
    hide GoodCall;
    GoodCallsEach(bulk, n, c);
    var rest := SeenGrows(bulk, c + 1, n);
    if Admits(known, check, Seen(bulk, n)) {
      AdmitsPrefix(known, check, Seen(bulk, c + 1), rest);
    }
  }

  /** Second loop of checked_census. */
  method QuotaCensus(quota: nat -> QuotaReply, projects: ProjectSet)
    returns (r: Verdict, calls: nat)
    requires projects.Valid() && |projects.Members()| <= MAX_PROJECTS
    modifies projects`count, projects.slots
    ensures projects.Valid()
    ensures r.Passed? ==> QuotasCertified(quota, old(projects.Members()), calls)
    ensures r.Refused? ==> forall n :: !QuotasCertified(quota, old(projects.Members()), n)
    ensures r.Passed? ==> projects.Members() == old(projects.Members()) + QuotaIds(quota, calls)
  {
    hide WellFormed, ProjectSet.Members;
    ghost var set0 := projects.Members();
    var next: uint32 := 0;
    calls := 0;
    assert QuotaIds(quota, 0) == {};
    assert set0 + {} == set0;
    for n := 0 to MAX_PROJECTS + 1
      invariant calls == n && next == NextId(quota, n) && projects.Valid()
      invariant GoodQuotas(quota, n)
      invariant projects.Members() == set0 + QuotaIds(quota, n)
      invariant |projects.Members()| <= MAX_PROJECTS
    {
      var reply := quota(n);
      if reply.NoMoreQuotas? {
        return Passed, calls;
      }
      if reply.QuotaFailed? || !reply.proper || reply.id < next {
        QuotaStuck(quota, set0, n);
        return Refused("quota-response"), calls;
      }
      ghost var members := projects.Members();
      assert reply.id != 0 ==> members + {reply.id} == set0 + QuotaIds(quota, n + 1);
      assert reply.id == 0 ==> members == set0 + QuotaIds(quota, n + 1);
      var added := projects.AddProject(reply.id);
      if !added {
        QuotaStuck(quota, set0, n);
        return Refused("scan-limit"), calls;
      }
      MemberCount(projects.slots[..], projects.count);
      calls := calls + 1;
      if reply.id == UINT32_MAX {
        return Passed, calls;
      }
      next := reply.id + 1;
    }
    QuotaTooMany(quota, set0);
    return Refused("scan-limit"), calls;
  }

  /** A bad or excessive reply at call n rules out every certification. */
  lemma QuotaStuck(quota: nat -> QuotaReply, known: set<uint32>, n: nat)
    requires GoodQuotas(quota, n)
    requires !quota(n).NoMoreQuotas?
    requires !GoodQuota(quota, n) || |known + QuotaIds(quota, n + 1)| > MAX_PROJECTS
    ensures forall m :: !QuotasCertified(quota, known, m)
  {
    forall m: nat
      ensures !QuotasCertified(quota, known, m)
    {
      if m <= n {
        QuotaTooEarly(quota, known, n, m);
      } else {
        QuotaTooLate(quota, known, n, m);
      }
    }
  }

  lemma QuotaTooEarly(quota: nat -> QuotaReply, known: set<uint32>, n: nat, m: nat)
    requires GoodQuotas(quota, n) && !quota(n).NoMoreQuotas? && m <= n
    ensures !QuotasCertified(quota, known, m)
  {
    if m < n {
      GoodQuotasEach(quota, n, m);
    }
    if m > 0 {
      GoodQuotasEach(quota, n, m - 1);
    }
  }

  lemma QuotaTooLate(quota: nat -> QuotaReply, known: set<uint32>, n: nat, m: nat)
    requires !GoodQuota(quota, n) || |known + QuotaIds(quota, n + 1)| > MAX_PROJECTS
    requires n < m
    ensures !QuotasCertified(quota, known, m)
  {
    QuotaIdsMonotone(quota, n + 1, m);
    SubsetSize(known + QuotaIds(quota, n + 1), known + QuotaIds(quota, m));
    if GoodQuotas(quota, m) {
      GoodQuotasEach(quota, m, n);
    } else if GoodQuotas(quota, m - 1) && n < m - 1 {
      GoodQuotasEach(quota, m - 1, n);
    }
  }

  lemma {:induction false} QuotaIdsMonotone(quota: nat -> QuotaReply, n: nat, m: nat)
    requires n <= m
    ensures QuotaIds(quota, n) <= QuotaIds(quota, m)
  {
    if n < m {
      QuotaIdsMonotone(quota, n, m - 1);
    }
  }

  lemma QuotaTooMany(quota: nat -> QuotaReply, known: set<uint32>)
    requires GoodQuotas(quota, MAX_PROJECTS + 1)
    ensures forall m :: !QuotasCertified(quota, known, m)
  {
    forall m: nat | m <= MAX_PROJECTS + 1
      ensures !QuotasCertified(quota, known, m)
    {
      if m <= MAX_PROJECTS {
        GoodQuotasEach(quota, MAX_PROJECTS + 1, m);
      }
      if m > 0 {
        GoodQuotasEach(quota, MAX_PROJECTS + 1, m - 1);
      }
    }
  }

  /** Behind 65536 good records only one kind of record is still accepted: the last possible
      identifier, even if its identifiers would fit the table. */
  lemma LastRecordDecides(quota: nat -> QuotaReply, known: set<uint32>)
    requires GoodQuotas(quota, MAX_PROJECTS) && GoodQuota(quota, MAX_PROJECTS)
    requires |known + QuotaIds(quota, MAX_PROJECTS + 1)| <= MAX_PROJECTS
    ensures (exists n :: QuotasCertified(quota, known, n)) <==> Final(quota, MAX_PROJECTS)
  {
    hide QuotaIds, GoodQuota;
    if Final(quota, MAX_PROJECTS) {
      hide GoodQuotas, Final;
      assert QuotasCertified(quota, known, MAX_PROJECTS + 1);
    } else {
      hide QuotasCertified, Final;
      QuotaTooMany(quota, known);
    }
  }

  /** The identifiers 0 to 65536 and no more. */
  function DenseQuotas(n: nat): QuotaReply {
    if n <= MAX_PROJECTS then Quota(true, n) else NoMoreQuotas
  }

  lemma {:induction false} DenseQuotasAreGood(n: nat)
    requires n <= MAX_PROJECTS + 1
    ensures GoodQuotas(DenseQuotas, n)
  {
    if n > 0 {
      DenseQuotasAreGood(n - 1);
      assert GoodQuota(DenseQuotas, n - 1) && !Final(DenseQuotas, n - 1);
    }
  }

  lemma {:induction false} DenseQuotaIds(n: nat)
    requires 0 < n <= MAX_PROJECTS + 1
    ensures |QuotaIds(DenseQuotas, n)| == n - 1
    ensures forall id | id in QuotaIds(DenseQuotas, n) :: 0 < id < n
  {
    if n == 1 {
      assert QuotaIds(DenseQuotas, n - 1) == {};
    } else {
      DenseQuotaIds(n - 1);
      AddOneSize(QuotaIds(DenseQuotas, n - 1), n - 1);
    }
  }

  /** A concrete refusal: 65537 records whose 65536 nonzero identifiers fit an empty table. */
  lemma DenseQuotasAreRefused(m: nat)
    ensures |QuotaIds(DenseQuotas, MAX_PROJECTS + 1)| == MAX_PROJECTS && DenseQuotas(MAX_PROJECTS + 1).NoMoreQuotas?
    ensures GoodQuotas(DenseQuotas, MAX_PROJECTS + 1) && !QuotasCertified(DenseQuotas, {}, m)
  {
    hide GoodQuotas, QuotaIds, QuotasCertified;
    DenseQuotaIds(MAX_PROJECTS + 1);
    DenseQuotasAreGood(MAX_PROJECTS + 1);
    QuotaTooMany(DenseQuotas, {});
  }

  /** checked_census: on success the set gained exactly the nonzero identifiers of the two
      scans, and success is reported whenever the replies certify it. */
  method CheckedCensus(bulk: nat -> BulkReply, quota: nat -> QuotaReply, projects: ProjectSet, ctx: TagState?)
    returns (r: Verdict, scanned: nat, inodeCalls: nat, quotaCalls: nat)
    requires projects.Valid()
    requires ctx != null ==> ctx.Valid() && ctx.projects != projects.slots
    modifies projects`count, projects.slots, Context(ctx)`seen, Context(ctx)`blocks
    ensures projects.Valid() && (ctx != null ==> ctx.Valid())
    ensures r.Passed? ==>
              && InodesCertified(bulk, old(projects.Members()), old(CheckOf(ctx)), inodeCalls)
              && QuotasCertified(quota, old(projects.Members()) + ProjectsOf(Seen(bulk, inodeCalls)), quotaCalls)
    ensures r.Refused? ==> forall n, m | InodesCertified(bulk, old(projects.Members()), old(CheckOf(ctx)), n) ::
              !QuotasCertified(quota, old(projects.Members()) + ProjectsOf(Seen(bulk, n)), m)
    ensures r.Passed? ==> scanned == |Seen(bulk, inodeCalls)| <= MAX_INODES
    ensures r.Passed? ==>
              projects.Members() ==
              old(projects.Members()) + ProjectsOf(Seen(bulk, inodeCalls)) + QuotaIds(quota, quotaCalls)
    ensures r.Passed? && ctx != null ==>
              ctx.seen == old(ctx.seen) + MatchCount(ctx.j.header.project, Seen(bulk, inodeCalls))
    ensures r.Passed? && ctx != null ==>
              ctx.blocks == old(ctx.blocks) + SectorSum(ctx.j.header.project, Seen(bulk, inodeCalls))
  {
    ghost var set0, check := projects.Members(), CheckOf(ctx);
    MemberCount(projects.slots[..], projects.count);
    r, scanned, inodeCalls := InodeCensus(bulk, projects, ctx);
    quotaCalls := 0;
    if r.Refused? {
      return;
    }
    MemberCount(projects.slots[..], projects.count);
    r, quotaCalls := QuotaCensus(quota, projects);
    if r.Refused? {
      forall n | InodesCertified(bulk, set0, check, n)
        ensures n == inodeCalls
      {
        CertifiedOnce(bulk, set0, check, n, inodeCalls);
      }
    }
  }
}
