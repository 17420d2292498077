/**
 The mutating part of a tagging run (tag_data in deploy/storage-tagging.h) on a disk that
 may lose every attribute change not yet synced, and what any number of interrupted runs
 leave behind.
 */
module Tagging {
  import opened Common
  import opened Journals
  import opened Pinning
  import opened TagStates
  import opened ProjectSets
  import opened Census
  import opened Ownership
  import opened SteadyDisks
  import opened TagDisks

  const S_ISUID_ISGID: bv32 := 0xC00
  /** Realtime, realtime-inherit, immutable and append-only. */
  const UNSUPPORTED_FLAGS: bv32 := 0x119

  /** What the re-check of one pinned descriptor returns, and whether its writes fail. */
  datatype Recheck = Recheck(fails: bool, mode: bv32, nlink: nat, generation: uint32, setFails: bool, syncFails: bool)

  /** Everything one run observes; `budget` counts the durable steps before the process dies. */
  datatype Env = Env(
    entries: seq<PlanEntry>, readFails: bool, reservations: seq<Reservation>, device: nat,
    wp1: View, db1: View, global1: GlobalView,
    rechecks: nat -> Recheck, budget: nat, rewindFails: bool,
    wp2: View, db2: View, global2: GlobalView)

  datatype Outcome = Died | Finished(verdict: Verdict)

  // ---- The program ----

  class Filesystem {
    var live: Attrs
    var durable: Attrs

    constructor (attrs: Attrs)
      ensures live == attrs && durable == attrs
    {
      live, durable := attrs, attrs;
    }

    ghost function State(): Disk
      reads this
    {
      Disk(live, durable)
    }
  }

  /** Both pin_tree walks. */
  method PinTrees(s: TagState, wp: View, db: View, device: nat) returns (r: Verdict)
    requires s.Valid()
    modifies s`pinned, s`tagged, s.fds, s.projects
    ensures s.Valid()
    ensures r.Passed? <==> Walkable(wp, 0, device) && Walkable(db, 0, device) &&
                           Accepts(old(s.Pins()), Marks(s.j, 0, wp) + Marks(s.j, 1, db))
    ensures r.Passed? ==> s.Pins() == PinAll(old(s.Pins()), Marks(s.j, 0, wp) + Marks(s.j, 1, db))
  {
    assert Sorted(s.j.nodes) && Fits(|s.j.nodes|, s.Pins());
    hide Sorted, Walkable, Marks, Accepts, PinAll, TagState.Valid;
    PinAllAppend(s.Pins(), Marks(s.j, 0, wp), Marks(s.j, 1, db));
    r := s.PinTree(wp, 0, 0, device);
    if r.Passed? {
      r := s.PinTree(db, 1, 0, device);
    }
  }

  /** Both walks, the count checks and the global check, which first syncs the whole filesystem. */
  method Survey(s: TagState, fs: Filesystem, wp: View, db: View, device: nat, view: GlobalView, complete: bool)
    returns (r: Verdict, calls: nat)
    requires s.Valid()
    modifies s, s.fds, s.projects, fs`durable
    ensures s.Valid()
    ensures fs.durable == fs.live || (fs.durable == old(fs.durable) && r.Refused?)
    ensures r.Passed? <==> SurveyAccepted(s.j, old(s.Pins()), wp, db, device, view, complete)
    ensures r.Passed? ==> s.Pins() == PinAll(old(s.Pins()), Marks(s.j, 0, wp) + Marks(s.j, 1, db))
    ensures r.Passed? ==> AllPinnedDown(s.Pins()) && (complete ==> |TaggedNodes(s.Pins())| == |s.j.nodes|)
    ensures r.Passed? ==>
              Carriers(s.j.header.project, Seen(view.bulk, calls)) == TaggedInodes(s.j, s.projects[..], |s.j.nodes|)
  {
    hide Ordered, Walkable, Marks, Accepts, Carriers, TaggedInodes, PinAll, PinnedNodes, TaggedNodes, Seen,
         AllPinnedDown, TagState.Valid, InodesCertified, QuotasCertified, CheckFits;
    s.Counters();
    calls := 0;
    r := PinTrees(s, wp, db, device);
    s.Counters();
    if r.Refused? {
      return;
    }
    if s.pinned != |s.j.nodes| || (complete && s.tagged != |s.j.nodes|) {
      return Refused("tree-changed"), calls;
    }
    EachNodePinned(s.Pins());
    if !view.syncFails {
      fs.durable := fs.live;
    }
    var quotaCalls;
    ghost var pins := s.Pins();
    r, calls, quotaCalls := VerifyGlobalProject(s, view);
    assert s.Pins() == pins;
    assert r.Passed? ==> GloballyOwned(s.j, pins, view, calls, quotaCalls);
  }

  lemma EachNodePinned(s: PinState)
    requires |s.fds| == |s.projects| == |PinnedNodes(s.fds)|
    ensures AllPinnedDown(s)
  {
    forall i | 0 <= i < |s.fds|
      ensures s.fds[i].Some?
    {
      AllPinned(s, i);
    }
  }

  /** The attributes a pinned node must still have when its turn comes. */
  function Expected(j: JournalFile, n: Node, project: uint32): Attr {
    Attr(project, if project != 0 then TaggedFlags(n) else n.flags)
  }

  predicate RecheckPasses(n: Node, c: Recheck) {
    !c.fails && c.mode == n.mode && c.nlink != 0 && (IsReg(c.mode) ==> c.nlink == 1) && c.generation == n.generation
  }

  /** Nothing fails or changes while one node is tagged. */
  ghost predicate SmoothNode(j: JournalFile, projects: seq<uint32>, i: nat, c: Recheck, live: Attrs)
    requires i < |projects| == |j.nodes|
  {
    && RecheckPasses(j.nodes[i], c) && !c.setFails && !c.syncFails
    && j.nodes[i].inode in live && live[j.nodes[i].inode] == Expected(j, j.nodes[i], projects[i])
  }

  /** Nothing fails or changes while all nodes are tagged, and the process is not killed. */
  ghost predicate Smooth(j: JournalFile, projects: seq<uint32>, env: Env, live: Attrs)
    requires |projects| == |j.nodes|
  {
    env.budget >= 2 * |j.nodes| &&
    forall i | 0 <= i < |j.nodes| :: SmoothNode(j, projects, i, env.rechecks(i), live)
  }

  /** A turn for node i took disk and recorded projects from `a` and `p` to `b` and `q`: nothing but the
      node's inode changed, by a step that runs may take, and if it passed the inode is tagged. */
  ghost predicate Turn(j: JournalFile, i: nat, a: Disk, p: seq<uint32>, b: Disk, q: seq<uint32>, passed: bool)
    requires i < |j.nodes| == |p| == |q|
  {
    && RunStep(j, a, b)
    && (forall ino | ino in a.live && ino != j.nodes[i].inode :: ino in b.live && b.live[ino] == a.live[ino])
    && (forall k | 0 <= k < |p| && k != i :: q[k] == p[k])
    && (passed ==> j.nodes[i].inode in b.live && b.live[j.nodes[i].inode] == TaggedAttr(j, j.nodes[i]))
  }

  /** One turn of the tagging loop. */
  method TagNode(s: TagState, fs: Filesystem, i: nat, c: Recheck, budget: nat) returns (o: Outcome, left: nat)
    requires s.Valid() && i < |s.j.nodes| && s.fds[i].Some? && Behind(s.j, fs.State())
    modifies s`tagged, s.projects, fs
    ensures s.Valid() && |s.projects[..]| == |s.j.nodes|
    ensures Turn(s.j, i, old(fs.State()), old(s.projects[..]), fs.State(), s.projects[..], o == Finished(Passed))
    ensures o == Finished(Passed) ==> left + 2 >= budget
    ensures SmoothNode(s.j, old(s.projects[..]), i, c, old(fs.live)) && budget >= 2 ==> o == Finished(Passed)
  {
    hide TagState.Valid, Ordered, Consistent, RunStep, PinnedNodes, TaggedNodes, Behind;
    var n := s.j.nodes[i];
    s.Counters();
    NamesItsInode(s.j, s.Pins(), i);
    TagSteps(s.j, i, fs.State());
    left := budget;
    if !RecheckPasses(n, c) || n.inode !in fs.live || fs.live[n.inode] != Expected(s.j, n, s.projects[i]) {
      return Finished(Refused("tree-changed")), left;
    }
    if s.projects[i] == 0 {
      o, left := WriteTag(s, fs, i, c, left);
    } else {
      o := Finished(Passed);
    }
  }

  /** Sets the attributes of an untouched node and syncs them. */
  method WriteTag(s: TagState, fs: Filesystem, i: nat, c: Recheck, budget: nat) returns (o: Outcome, left: nat)
    requires s.Valid() && i < |s.j.nodes| && s.fds[i].Some? && s.projects[i] == 0 && Behind(s.j, fs.State())
    requires s.j.nodes[i].inode in fs.live && UntouchedAttr(s.j.nodes[i], fs.live[s.j.nodes[i].inode])
    modifies s`tagged, s.projects, fs
    ensures s.Valid()
    ensures RunStep(s.j, old(fs.State()), fs.State())
    ensures fs.live == old(fs.live) || fs.live == old(fs.live)[s.j.nodes[i].inode := TaggedAttr(s.j, s.j.nodes[i])]
    ensures forall k | 0 <= k < |s.j.nodes| && k != i :: s.projects[k] == old(s.projects[k])
    ensures o == Finished(Passed) ==>
              left + 2 >= budget && fs.live == old(fs.live)[s.j.nodes[i].inode := TaggedAttr(s.j, s.j.nodes[i])]
    ensures !c.setFails && !c.syncFails && budget >= 2 ==> o == Finished(Passed)
  {
    hide TagState.Valid, Ordered, Consistent, RunStep, TaggedAttr, PinnedNodes, TaggedNodes, Behind;
    var n := s.j.nodes[i];
    s.Counters();
    TagSteps(s.j, i, fs.State());
    left := budget;
    if left == 0 {
      return Died, left;
    }
    if c.setFails {
      return Finished(Refused("tag-write")), left;
    }
    fs.live := fs.live[n.inode := TaggedAttr(s.j, n)];
    if left == 1 {
      return Died, left;
    }
    if c.syncFails {
      return Finished(Refused("tag-sync")), left;
    }
    fs.durable := fs.durable[n.inode := fs.live[n.inode]];
    left := left - 2;
    s.NoteTagged(i);
    return Finished(Passed), left;
  }

  lemma NamesItsInode(j: JournalFile, s: PinState, i: nat)
    requires Fits(|j.nodes|, s) && Consistent(j, s) && i < |j.nodes| && s.fds[i].Some?
    ensures s.fds[i].value == j.nodes[i].inode && (s.projects[i] == 0 || s.projects[i] == j.header.project)
  {
  }

  /** The tagging loop of tag_data. */
  method TagNodes(s: TagState, fs: Filesystem, env: Env) returns (o: Outcome)
    requires s.Valid() && AllPinnedDown(s.Pins()) && Behind(s.j, fs.State())
    modifies s`tagged, s.projects, fs
    ensures s.Valid()
    ensures RunStep(s.j, old(fs.State()), fs.State())
    ensures o == Finished(Passed) ==> AllTagged(s.j, fs.live)
    ensures Smooth(s.j, old(s.projects[..]), env, old(fs.live)) ==> o == Finished(Passed)
  {
    hide TagState.Valid, Ordered, RunStep, Behind, AllTagged, Smooth, SmoothNode, Turn, Turned, PinnedNodes,
         TaggedNodes;
    ghost var j, start, projects := s.j, fs.State(), s.projects[..];
    s.Counters();
    assert |projects| == |j.nodes| == s.fds.Length;
    NoTurnYet(j, start, projects, env);
    var budget: nat := env.budget;
    for i := 0 to |s.j.nodes|
      invariant s.Valid() && |s.projects[..]| == |j.nodes|
      invariant Turned(j, start, projects, fs.State(), s.projects[..], i)
      invariant Smooth(j, projects, env, start.live) ==> budget >= 2 * (|j.nodes| - i)
    {
      ghost var before, seen := fs.State(), s.projects[..];
      NextTurn(j, start, projects, before, seen, env, i);
      o, budget := TagNode(s, fs, i, env.rechecks(i), budget);
      TurnDone(j, start, projects, before, seen, fs.State(), s.projects[..], i, o == Finished(Passed));
      if o != Finished(Passed) {
        return;
      }
    }
    AllTurnsDone(j, start, projects, fs.State(), s.projects[..]);
    return Finished(Passed);
  }

  /** After i turns the first i nodes are tagged, and the others as recorded and as at the start. */
  ghost predicate Turned(
    j: JournalFile, start: Disk, projects: seq<uint32>, now: Disk, seen: seq<uint32>, i: nat)
    requires i <= |j.nodes| == |projects| == |seen|
  {
    && RunStep(j, start, now)
    && (forall k | 0 <= k < i ::
          j.nodes[k].inode in now.live && now.live[j.nodes[k].inode] == TaggedAttr(j, j.nodes[k]))
    && (forall k | i <= k < |j.nodes| :: seen[k] == projects[k])
    && (forall k | i <= k < |j.nodes| && j.nodes[k].inode in start.live ::
          j.nodes[k].inode in now.live && now.live[j.nodes[k].inode] == start.live[j.nodes[k].inode])
  }

  lemma NoTurnYet(j: JournalFile, start: Disk, projects: seq<uint32>, env: Env)
    requires |projects| == |j.nodes| && Behind(j, start)
    ensures Turned(j, start, projects, start, projects, 0) && RunStep(j, start, start)
    ensures Smooth(j, projects, env, start.live) ==> env.budget >= 2 * |j.nodes|
  {
  }

  lemma NextTurn(
    j: JournalFile, start: Disk, projects: seq<uint32>, now: Disk, seen: seq<uint32>, env: Env, i: nat)
    requires i < |j.nodes| == |projects| == |seen| && Turned(j, start, projects, now, seen, i)
    ensures Behind(j, now)
    ensures Smooth(j, projects, env, start.live) ==> SmoothNode(j, seen, i, env.rechecks(i), now.live)
  {
    hide Behind, Advanced, RecheckPasses, Expected;
    if Smooth(j, projects, env, start.live) {
      assert SmoothNode(j, projects, i, env.rechecks(i), start.live);
    }
  }

  lemma TurnDone(j: JournalFile, start: Disk, projects: seq<uint32>, a: Disk, p: seq<uint32>, b: Disk,
                 q: seq<uint32>, i: nat, passed: bool)
    requires Ordered(j) && i < |j.nodes| == |projects| == |p| == |q|
    requires Turned(j, start, projects, a, p, i) && Turn(j, i, a, p, b, q, passed)
    ensures RunStep(j, start, b) && (passed ==> Turned(j, start, projects, b, q, i + 1))
  {
    OtherNodes(j, i);
    hide Ordered, RunStep, TaggedAttr;
    StepsCompose(j, start, a, b);
  }

  lemma AllTurnsDone(j: JournalFile, start: Disk, projects: seq<uint32>, now: Disk, seen: seq<uint32>)
    requires |j.nodes| == |projects| == |seen| && Turned(j, start, projects, now, seen, |j.nodes|)
    ensures RunStep(j, start, now) && AllTagged(j, now.live)
  {
    hide RunStep, TaggedAttr;
  }

  lemma OtherNodes(j: JournalFile, i: nat)
    requires Ordered(j) && i < |j.nodes|
    ensures j.header.project != 0
    ensures forall k | 0 <= k < |j.nodes| && k != i :: j.nodes[k].inode != j.nodes[i].inode
  {
  }

  lemma StepsCompose(j: JournalFile, a: Disk, b: Disk, c: Disk)
    requires j.header.project != 0 && RunStep(j, a, b) && RunStep(j, b, c)
    ensures RunStep(j, a, c)
  {
    AdvancedTransitive(j, a.live, b.live, c.live);
    AdvancedTransitive(j, a.durable, b.durable, c.durable);
  }

  /** Tagging one untouched node advances the live disk, and syncing it the durable one. */
  lemma TagSteps(j: JournalFile, i: nat, d: Disk)
    requires Ordered(j) && i < |j.nodes| && Behind(j, d)
    ensures RunStep(j, d, d)
    ensures var n := j.nodes[i];
            n.inode in d.live && UntouchedAttr(n, d.live[n.inode]) ==>
              var live := d.live[n.inode := TaggedAttr(j, n)];
              && RunStep(j, d, Disk(live, d.durable))
              && RunStep(j, d, Disk(live, d.durable[n.inode := TaggedAttr(j, n)]))
  {
    var n := j.nodes[i];
    if n.inode in d.live && UntouchedAttr(n, d.live[n.inode]) {
      var live := d.live[n.inode := TaggedAttr(j, n)];
      assert TaggedFrom(j, n.inode, d.live[n.inode], live[n.inode]);
      assert Advanced(j, d.live, live);
      AdvancedTransitive(j, d.durable, d.live, live);
      SyncKeepsStep(j, n.inode, Disk(live, d.durable));
    }
  }

  /** Syncing one inode copies its live attributes to the durable disk. */
  lemma SyncKeepsStep(j: JournalFile, inode: uint64, d: Disk)
    requires Behind(j, d) && inode in d.live
    ensures var after := d.durable[inode := d.live[inode]];
            Advanced(j, d.durable, after) && Advanced(j, after, d.live)
  {
  }

  /** The request as passed on the command line. */
  predicate Requested(h: Header, args: Header) {
    SameAuthority(h, args) && h.site == args.site && h.project == args.project
  }

  predicate Supported(n: Node) {
    n.mode & S_ISUID_ISGID == 0 && n.flags & UNSUPPORTED_FLAGS == 0
  }

  /** The checks before any descriptor is pinned. */
  ghost predicate Admissible(file: JournalFile, args: Header, env: Env)
  {
    && ValidJournal(file) && Requested(file.header, args)
    && (forall i | 0 <= i < |file.nodes| :: Supported(file.nodes[i]))
    && !env.readFails && GoodDirectory(env.entries, env.reservations, file)
  }

  lemma AdmissibleIsOrdered(file: JournalFile, args: Header, env: Env)
    requires Admissible(file, args, env)
    ensures Ordered(file) && file.header.project != 0
  {
    hide Ordered;
  }

  method Admit(file: JournalFile, args: Header, env: Env) returns (r: Verdict)
    ensures r.Passed? <==> Admissible(file, args, env)
  {
    var valid := ReadJournal(file);
    if !valid || !Requested(file.header, args) {
      return Refused("plan-state");
    }
    for i := 0 to |file.nodes|
      invariant forall k | 0 <= k < i :: Supported(file.nodes[k])
    {
      if !Supported(file.nodes[i]) {
        return Refused("unsupported-attributes");
      }
    }
    r := ValidateJournals(env.entries, env.readFails, env.reservations, file);
  }

  /** An undisturbed run: nothing changes on the filesystem but the tags that the run writes, no
      call fails, and every answer tells what is on the disk at its time. */
  ghost predicate Undisturbed(j: JournalFile, args: Header, env: Env, f: Steady, live: Attrs) {
    && Admissible(j, args, env) && !env.rewindFails && env.device == f.device && env.budget >= 2 * |j.nodes|
    && env.wp1 == Look(f.wp, live) && env.db1 == Look(f.db, live) && Faithful(j, f, live, env.global1)
    && (forall i | 0 <= i < |j.nodes| :: SameInode(j, f, i, env.rechecks(i)))
    && env.wp2 == Look(f.wp, TagEverything(j, live)) && env.db2 == Look(f.db, TagEverything(j, live))
    && Faithful(j, f, TagEverything(j, live), env.global2)
  }

  /** The re-check of a descriptor shows the inode as the census lists it, and writes succeed. */
  ghost predicate SameInode(j: JournalFile, f: Steady, i: nat, c: Recheck)
    requires i < |j.nodes|
  {
    exists k :: 0 <= k < |f.inodes| && f.inodes[k].ino == j.nodes[i].inode &&
      c == Recheck(false, f.inodes[k].mode, f.inodes[k].nlink, f.inodes[k].generation, false, false)
  }

  ghost predicate SecondSurveyPasses(j: JournalFile, env: Env)
    requires Ordered(j)
  {
    !env.rewindFails && forall p: PinState | Fits(|j.nodes|, p) && Unpinned(p) ::
      SurveyAccepted(j, p, env.wp2, env.db2, env.device, env.global2, true)
  }

  /** The second walk of tag_data: descriptors alone cannot certify that a renamed or
      replaced inode still belongs to the trees. */
  method Certify(s: TagState, fs: Filesystem, env: Env) returns (o: Outcome, calls: nat)
    requires s.Valid()
    modifies s, s.fds, s.projects, fs`durable
    ensures fs.durable == fs.live || (fs.durable == old(fs.durable) && o != Finished(Passed))
    ensures o == Finished(Passed) ==>
              Carriers(s.j.header.project, Seen(env.global2.bulk, calls)) == set n | n in s.j.nodes :: n.inode
    ensures SecondSurveyPasses(s.j, env) ==> o == Finished(Passed)
  {
    s.CloseAll();
    calls := 0;
    if env.rewindFails {
      return Finished(Refused("tree-query")), calls;
    }
    assert Unpinned(s.Pins());
    hide SurveyAccepted, Ordered;
    var r;
    r, calls := Survey(s, fs, env.wp2, env.db2, env.device, env.global2, true);
    if r.Refused? {
      return Finished(r), calls;
    }
    CompleteSurveyTagsAll(s.j, s.Pins());
    return Finished(Passed), calls;
  }

  /** The loop and the second survey. */
  method TagAndCertify(s: TagState, fs: Filesystem, env: Env) returns (o: Outcome, calls: nat)
    requires s.Valid() && AllPinnedDown(s.Pins()) && Behind(s.j, fs.State())
    modifies s, s.fds, s.projects, fs
    ensures RunStep(s.j, old(fs.State()), fs.State())
    ensures o == Finished(Passed) ==> AllTagged(s.j, fs.live) && fs.durable == fs.live
    ensures o == Finished(Passed) ==>
              Carriers(s.j.header.project, Seen(env.global2.bulk, calls)) == set n | n in s.j.nodes :: n.inode
    ensures Smooth(s.j, old(s.projects[..]), env, old(fs.live)) && o != Finished(Passed) ==>
              AllTagged(s.j, fs.live) && !SecondSurveyPasses(s.j, env)
  {
    ghost var start := fs.State();
    calls := 0;
    assert Ordered(s.j);
    hide Ordered, Advanced, AllTagged, AllPinnedDown, Carriers, Seen, Smooth, SecondSurveyPasses, TagState.Valid;
    o := TagNodes(s, fs, env);
    if o != Finished(Passed) {
      return;
    }
    ghost var tagged := fs.State();
    SyncOnlyAdvances(s.j, tagged);
    o, calls := Certify(s, fs, env);
    StepsCompose(s.j, start, tagged, fs.State());
  }

  /** A run that nothing disturbs, on what earlier runs and crashes have left of a filesystem that the
      journal described. */
  ghost predicate Retry(
    j: JournalFile, args: Header, env: Env, f: Steady, origin: Attrs, past: seq<Disk>, now: Disk)
  {
    && Matches(j, f, origin) && History(j, past) && past[0] == Disk(origin, origin) && past[|past| - 1] == now
    && Undisturbed(j, args, env, f, now.live)
  }

  /** tag_data. Whatever happens, the disk has only advanced; success certifies that all of
      the journal, and nothing else on the filesystem, carries the project durably; and a retry
      that nothing disturbs succeeds with exactly what one uninterrupted tagging makes. */
  method TagData(
    file: JournalFile, args: Header, fs: Filesystem, env: Env, ghost f: Steady, ghost origin: Attrs,
      ghost past: seq<Disk>)
    returns (o: Outcome, calls: nat)
    requires Behind(file, fs.State())
    modifies fs
    ensures !Admissible(file, args, env) ==> fs.State() == old(fs.State()) && o.Finished? && o.verdict.Refused?
    ensures Admissible(file, args, env) ==> RunStep(file, old(fs.State()), fs.State())
    ensures o == Finished(Passed) ==> AllTagged(file, fs.live) && fs.durable == fs.live
    ensures o == Finished(Passed) ==>
              Carriers(file.header.project, Seen(env.global2.bulk, calls)) == set n | n in file.nodes :: n.inode
    ensures Retry(file, args, env, f, origin, past, old(fs.State())) ==>
              o == Finished(Passed) && fs.live == TagEverything(file, origin)
  {
    hide Admissible, Ordered, Advanced, AllTagged, SurveyAccepted, Smooth, SecondSurveyPasses, TagEverything, Retry,
         Carriers, Marks, PinAll, AllPinnedDown, TaggedNodes, TaggedInodes, Seen, TagState.Valid;
    ghost var start := fs.State();
    ghost var retry := Retry(file, args, env, f, origin, past, start);
    if retry {
      RetrySurveys(file, args, env, f, origin, past, start);
    }
    calls := 0;
    var r := Admit(file, args, env);
    if r.Refused? {
      return Finished(r), calls;
    }
    AdmissibleIsOrdered(file, args, env);
    var s := new TagState(file);
    assert s.Pins() == EmptyPins(file);
    hide EmptyPins;
    SyncOnlyAdvances(file, start);
    r, calls := Survey(s, fs, env.wp1, env.db1, env.device, env.global1, false);
    if r.Refused? {
      return Finished(r), calls;
    }
    ghost var surveyed := fs.State();
    o, calls := TagAndCertify(s, fs, env);
    StepsCompose(file, start, surveyed, fs.State());
    if retry && AllTagged(file, fs.live) {
      RetryTags(file, args, env, f, origin, past, start, fs.State());
    }
  }

  lemma StepAdvancesLive(j: JournalFile, a: Disk, b: Disk)
    requires Ordered(j) && RunStep(j, a, b) && AllTagged(j, b.live)
    ensures b.live == TagEverything(j, a.live) && Advanced(j, a.live, b.live)
  {
    AdvancesReachAtomicTagging(j, a.live, b.live);
  }

  lemma SyncOnlyAdvances(j: JournalFile, d: Disk)
    requires Behind(j, d)
    ensures RunStep(j, d, d) && RunStep(j, d, Disk(d.live, d.live))
  {
  }

  lemma CompleteSurveyTagsAll(j: JournalFile, s: PinState)
    requires |s.fds| == |s.projects| == |j.nodes| && |TaggedNodes(s)| == |j.nodes| && Consistent(j, s)
    ensures TaggedInodes(j, s.projects, |j.nodes|) == set n | n in j.nodes :: n.inode
  {
    RangeSize(|j.nodes|);
    SubsetSize(TaggedNodes(s), Range(|j.nodes|));
    forall ino
      ensures ino in TaggedInodes(j, s.projects, |j.nodes|) <==> ino in set n | n in j.nodes :: n.inode
    {
      TaggedInodesMeaning(j, s.projects, |j.nodes|, ino);
      if n :| n in j.nodes && n.inode == ino {
        var i :| 0 <= i < |j.nodes| && j.nodes[i] == n;
        assert i in TaggedNodes(s);
      }
    }
  }

  /** The first half of a retry: the survey passes, and the loop finds what the survey recorded. */
  lemma RetrySurveys(
    j: JournalFile, args: Header, env: Env, f: Steady, origin: Attrs, past: seq<Disk>, now: Disk)
    requires Retry(j, args, env, f, origin, past, now)
    ensures Ordered(j) && Admissible(j, args, env)
    ensures SurveyAccepted(j, EmptyPins(j), env.wp1, env.db1, env.device, env.global1, false)
    ensures var marks := Marks(j, 0, env.wp1) + Marks(j, 1, env.db1);
            Smooth(j, PinAll(EmptyPins(j), marks).projects, env, now.live)
  {
    assert Ordered(j) && Admissible(j, args, env);
    hide Matches, Undisturbed, Ordered, History, Smooth, SurveyAccepted, Admissible;
    RetriesStillMatch(j, f, origin, past);
    FirstSurveyShowsDisk(j, args, env, f, now.live);
  }

  /** The second half: the final survey will pass, and the tags are those of one tagging. */
  lemma RetryTags(
    j: JournalFile, args: Header, env: Env, f: Steady, origin: Attrs, past: seq<Disk>, now: Disk, tagged: Disk)
    requires Retry(j, args, env, f, origin, past, now) && RunStep(j, now, tagged) && AllTagged(j, tagged.live)
    ensures Ordered(j) && SecondSurveyPasses(j, env) && tagged.live == TagEverything(j, origin)
  {
    assert Ordered(j) && j.header.project != 0;
    hide Matches, Undisturbed, Ordered, History, AllTagged, TagEverything, SecondSurveyPasses, Advanced;
    RetriesStillMatch(j, f, origin, past);
    StepAdvancesLive(j, now, tagged);
    SecondSurveyAccepts(j, args, env, f, now.live);
    RetryMakesTheSame(j, origin, now.live, tagged.live);
  }

  /** After any runs and crashes the journal still describes the filesystem. */
  lemma RetriesStillMatch(j: JournalFile, f: Steady, origin: Attrs, past: seq<Disk>)
    requires Matches(j, f, origin) && History(j, past) && past[0] == Disk(origin, origin)
    ensures Advanced(j, origin, past[|past| - 1].live) && Matches(j, f, past[|past| - 1].live)
  {
    CrashesLeaveNothingHalfTagged(j, origin, past);
    AdvancedMatches(j, f, origin, past[|past| - 1].live);
  }

  lemma RetryMakesTheSame(j: JournalFile, origin: Attrs, live: Attrs, tagged: Attrs)
    requires Ordered(j) && j.header.project != 0
    requires Advanced(j, origin, live) && Advanced(j, live, tagged) && AllTagged(j, tagged)
    ensures tagged == TagEverything(j, origin)
  {
    AdvancedTransitive(j, origin, live, tagged);
    AdvancesReachAtomicTagging(j, origin, tagged);
  }

  /** The first survey of an undisturbed run passes, and what it records stays true for the
      tagging loop. */
  lemma FirstSurveyShowsDisk(j: JournalFile, args: Header, env: Env, f: Steady, live: Attrs)
    requires Undisturbed(j, args, env, f, live) && Matches(j, f, live)
    ensures SurveyAccepted(j, EmptyPins(j), env.wp1, env.db1, env.device, env.global1, false)
    ensures var marks := Marks(j, 0, env.wp1) + Marks(j, 1, env.db1);
            Smooth(j, PinAll(EmptyPins(j), marks).projects, env, live)
  {
    hide Admissible, Faithful, Look, Marks, Walkable, Accepts, PinAll, PinnedNodes, TagEverything, SurveyAccepted;
    SurveyPasses(j, f, live, EmptyPins(j), env.global1, false);
    NodesOnDisk(j, f, live);
    DiskIsSmooth(j, env, f, live);
  }

  lemma DiskIsSmooth(j: JournalFile, env: Env, f: Steady, live: Attrs)
    requires Matches(j, f, live) && env.budget >= 2 * |j.nodes|
    requires forall i | 0 <= i < |j.nodes| ::
               j.nodes[i].inode in live && Recognised(j, j.nodes[i], live[j.nodes[i].inode])
    requires forall i | 0 <= i < |j.nodes| :: SameInode(j, f, i, env.rechecks(i))
    ensures Smooth(j, DiskPins(j, live).projects, env, live)
  {
    hide TreesMatch, NoForeignCarrier, IdentifiersFit, SaneBlocks, OwnSectors, Ordered;
    forall i | 0 <= i < |j.nodes|
      ensures SmoothNode(j, DiskPins(j, live).projects, i, env.rechecks(i), live)
    {
      assert SameInode(j, f, i, env.rechecks(i));
      var k :| 0 <= k < |f.inodes| && f.inodes[k].ino == j.nodes[i].inode &&
        env.rechecks(i) == Recheck(false, f.inodes[k].mode, f.inodes[k].nlink, f.inodes[k].generation, false, false);
      assert Described(j.nodes[i], f.inodes[k]);
      assert Recognised(j, j.nodes[i], live[j.nodes[i].inode]);
    }
  }

  /** Walking the same trees again after tagging meets the same nodes, all of them tagged. */
  lemma SecondSurveyAccepts(j: JournalFile, args: Header, env: Env, f: Steady, live: Attrs)
    requires Undisturbed(j, args, env, f, live) && Matches(j, f, live)
    requires Advanced(j, live, TagEverything(j, live)) && AllTagged(j, TagEverything(j, live))
    ensures SecondSurveyPasses(j, env)
  {
    AdvancedMatches(j, f, live, TagEverything(j, live));
    hide Admissible, Faithful, Look, TagEverything, SurveyAccepted, AllTagged, Advanced;
    forall s: PinState | Fits(|j.nodes|, s) && Unpinned(s)
      ensures SurveyAccepted(j, s, env.wp2, env.db2, env.device, env.global2, true)
    {
      SurveyPasses(j, f, TagEverything(j, live), s, env.global2, true);
    }
  }
}
