/**
 The in-memory state of one tagging run: pinned descriptors, observed projects and the
 per-inode checks (deploy/storage-tagging.h). Directory trees are arbitrary finite
 observations, so nothing is assumed about what the kernel reports.
 */
module TagStates {
  import opened Common
  import opened Journals
  import opened Pinning

  /** One observed inode: what fstat, GETVERSION and FSGETXATTR returned, and its entries. */
  datatype View = View(
    ino: uint64, device: nat, generation: uint32, mode: bv32, nlink: nat, project: uint32, xflags: bv32,
    opens: bool, queryFails: bool, dupFails: bool, readFails: bool, entries: seq<View>)

  /** A record of the filesystem-wide inode census. */
  datatype InodeStat = InodeStat(
    version: nat, sick: bool, ino: uint64, project: uint32, generation: uint32, mode: bv32, xflags: bv32,
    nlink: uint32, blksize: uint32, blocks: uint64)

  const MAX_DEPTH: nat := 128

  /** No query of the walk fails, it stays on the device and within the depth limit. */
  predicate Walkable(v: View, depth: nat, device: nat)
    decreases v, 0
  {
    && depth <= MAX_DEPTH && !v.queryFails && v.device == device && !v.dupFails
    && (IsDir(v.mode) ==> !v.readFails && EntriesWalkable(v.entries, |v.entries|, depth, device))
  }

  predicate EntriesWalkable(entries: seq<View>, n: nat, depth: nat, device: nat)
    requires n <= |entries|
    decreases entries, n
  {
    n == 0 || (EntriesWalkable(entries, n - 1, depth, device) &&
               entries[n - 1].opens && Walkable(entries[n - 1], depth + 1, device))
  }

  /** Attributes as recorded in the journal and not yet tagged. */
  predicate Untouched(n: Node, project: uint32, xflags: bv32) {
    project == 0 && xflags == n.flags
  }

  predicate Tagged(n: Node, target: uint32, project: uint32, xflags: bv32) {
    project == target && xflags == TaggedFlags(n)
  }

  /** The journal node that a visit stands for, or -1 if the visit is not acceptable. */
  function VisitIndex(j: JournalFile, tree: uint32, v: View): (r: int)
    requires Sorted(j.nodes)
    ensures -1 <= r < |j.nodes|
    ensures r >= 0 ==> j.nodes[r].tree == tree && j.nodes[r].inode == v.ino
    ensures r >= 0 ==> v.project == 0 || v.project == j.header.project
  {
    var i := NodeIndex(j.nodes, v.ino, tree);
    if i < 0 || v.nlink == 0 || (IsReg(v.mode) && v.nlink != 1) then -1
    else
      var n := j.nodes[i];
      if n.mode == v.mode && n.generation == v.generation &&
         (Untouched(n, v.project, v.xflags) || Tagged(n, j.header.project, v.project, v.xflags)) then i
      else -1
  }

  function MarkOf(j: JournalFile, tree: uint32, v: View): Mark
    requires Sorted(j.nodes)
  {
    Mark(VisitIndex(j, tree, v), v.ino, v.project)
  }

  /** Every inode of a walk in the order in which it is visited, resolved to nodes. */
  function Marks(j: JournalFile, tree: uint32, v: View): seq<Mark>
    requires Sorted(j.nodes)
    decreases v, 0
  {
    [MarkOf(j, tree, v)] + if IsDir(v.mode) then EntryMarks(j, tree, v.entries, |v.entries|) else []
  }

  /** The visits made below the first n entries of a directory. */
  function EntryMarks(j: JournalFile, tree: uint32, entries: seq<View>, n: nat): seq<Mark>
    requires Sorted(j.nodes) && n <= |entries|
    decreases entries, n
  {
    if n == 0 then [] else EntryMarks(j, tree, entries, n - 1) + Marks(j, tree, entries[n - 1])
  }

  lemma {:induction false} EntryMarksGrow(j: JournalFile, tree: uint32, entries: seq<View>, n: nat, m: nat)
    returns (rest: seq<Mark>)
    requires Sorted(j.nodes) && n <= m <= |entries|
    ensures EntryMarks(j, tree, entries, m) == EntryMarks(j, tree, entries, n) + rest
  {
    hide Marks, Sorted;
    if n == m {
      rest := [];
    } else {
      var shorter := EntryMarksGrow(j, tree, entries, n, m - 1);
      rest := shorter + Marks(j, tree, entries[m - 1]);
    }
  }

  lemma {:induction false} EntriesWalkableShrink(entries: seq<View>, n: nat, m: nat, depth: nat, device: nat)
    requires n <= m <= |entries| && EntriesWalkable(entries, m, depth, device)
    ensures EntriesWalkable(entries, n, depth, device)
  {
    if n < m {
      EntriesWalkableShrink(entries, n, m - 1, depth, device);
    }
  }

  lemma NoEntryYet(j: JournalFile, tree: uint32, entries: seq<View>, depth: nat, device: nat, s: PinState)
    requires Sorted(j.nodes) && |s.fds| == |s.projects|
    ensures EntriesWalkable(entries, 0, depth, device)
    ensures Accepts(s, EntryMarks(j, tree, entries, 0)) && PinAll(s, EntryMarks(j, tree, entries, 0)) == s
  {
  }

  /** The walk of a directory extends by one entry, and accepts all entries only if it accepts the next. */
  lemma NextEntryMarks(
    j: JournalFile, tree: uint32, entries: seq<View>, n: nat, depth: nat, device: nat, s: PinState)
    requires Sorted(j.nodes) && |s.fds| == |s.projects| && n < |entries|
    ensures var done, last := EntryMarks(j, tree, entries, n), Marks(j, tree, entries[n]);
            var next := EntryMarks(j, tree, entries, n + 1);
            && PinAll(s, next) == PinAll(PinAll(s, done), last)
            && (Accepts(s, next) <==> Accepts(s, done) && Accepts(PinAll(s, done), last))
            && (Accepts(s, EntryMarks(j, tree, entries, |entries|)) ==> Accepts(s, next))
    ensures EntriesWalkable(entries, n + 1, depth, device) <==>
              EntriesWalkable(entries, n, depth, device) && entries[n].opens && Walkable(entries[n], depth + 1, device)
    ensures EntriesWalkable(entries, |entries|, depth, device) ==> EntriesWalkable(entries, n + 1, depth, device)
  {
    hide Marks, Walkable, Accepts, PinAll, Sorted;
    PinAllAppend(s, EntryMarks(j, tree, entries, n), Marks(j, tree, entries[n]));
    var rest := EntryMarksGrow(j, tree, entries, n + 1, |entries|);
    PinAllAppend(s, EntryMarks(j, tree, entries, n + 1), rest);
    if EntriesWalkable(entries, |entries|, depth, device) {
      EntriesWalkableShrink(entries, n + 1, |entries|, depth, device);
    }
  }

  /** Descriptors name their own node's inode; only 0 and the target project occur. */
  ghost predicate Consistent(j: JournalFile, s: PinState)
    requires Fits(|j.nodes|, s)
  {
    forall i | 0 <= i < |j.nodes| ::
      && (s.fds[i].Some? ==> s.fds[i].value == j.nodes[i].inode)
      && (s.projects[i] == 0 || s.projects[i] == j.header.project)
  }

  lemma PinKeepsConsistent(j: JournalFile, s: PinState, tree: uint32, v: View)
    requires Sorted(j.nodes) && Fits(|j.nodes|, s) && Consistent(j, s) && Free(s, MarkOf(j, tree, v))
    ensures Consistent(j, PinOne(s, MarkOf(j, tree, v)))
    ensures var i := VisitIndex(j, tree, v);
            PinOne(s, MarkOf(j, tree, v)) == PinState(s.fds[i := Some(v.ino)], s.projects[i := v.project])
  {
    hide Sorted;
  }

  /** The census check of one inode record against the pinned journal. */
  predicate OwnedRecord(j: JournalFile, projects: seq<uint32>, st: InodeStat)
    requires Searchable(j.nodes) && |projects| == |j.nodes|
  {
    var i := InodeIndex(j.nodes, st.ino);
    && i >= 0 && projects[i] == j.header.project
    && st.generation == j.nodes[i].generation && st.mode == j.nodes[i].mode
    && st.xflags == TaggedFlags(j.nodes[i])
    && st.nlink != 0 && (IsReg(st.mode) ==> st.nlink == 1)
  }

  predicate SaneBlocks(st: InodeStat) {
    && st.blksize != 0 && st.blksize % 512 == 0
    && st.blksize / 512 != 0
    && st.blocks <= 0xFFFF_FFFF_FFFF_FFFF / (st.blksize / 512)
  }

  /** Space of one inode in 512-byte units. */
  function SectorCount(st: InodeStat): (n: nat)
  {
    st.blocks * (st.blksize / 512)
  }

  function MatchCount(project: uint32, records: seq<InodeStat>): (n: nat)
    ensures n <= |records|
  {
    if records == [] then 0
    else MatchCount(project, records[..|records| - 1]) +
         if records[|records| - 1].project == project then 1 else 0
  }

  function SectorSum(project: uint32, records: seq<InodeStat>): nat {
    if records == [] then 0
    else SectorSum(project, records[..|records| - 1]) +
         if records[|records| - 1].project == project then SectorCount(records[|records| - 1]) else 0
  }

  /** One record passes when it is foreign to the project, or owned and its space still
      fits into 64 bits next to the `blocks` accumulated so far. */
  predicate RecordPasses(j: JournalFile, projects: seq<uint32>, blocks: nat, st: InodeStat)
    requires Searchable(j.nodes) && |projects| == |j.nodes|
  {
    st.project == j.header.project ==>
      OwnedRecord(j, projects, st) && SaneBlocks(st) && blocks + SectorCount(st) <= UINT64_MAX
  }

  predicate RecordsPass(j: JournalFile, projects: seq<uint32>, blocks: nat, records: seq<InodeStat>)
    requires Searchable(j.nodes) && |projects| == |j.nodes|
  {
    records == [] || (
      var front := records[..|records| - 1];
      && RecordsPass(j, projects, blocks, front)
      && RecordPasses(j, projects, blocks + SectorSum(j.header.project, front), records[|records| - 1]))
  }

  lemma RecordsPassStep(j: JournalFile, projects: seq<uint32>, blocks: nat, a: seq<InodeStat>, st: InodeStat)
    requires Searchable(j.nodes) && |projects| == |j.nodes|
    ensures RecordsPass(j, projects, blocks, a + [st]) <==>
              RecordsPass(j, projects, blocks, a) &&
              RecordPasses(j, projects, blocks + SectorSum(j.header.project, a), st)
  {
    hide Searchable, RecordPasses, SectorSum;
    assert (a + [st])[..|a + [st]| - 1] == a;
  }

  lemma {:induction false} RecordsPassEach(
    j: JournalFile, projects: seq<uint32>, blocks: nat, records: seq<InodeStat>, i: nat)
    requires Searchable(j.nodes) && |projects| == |j.nodes|
    requires RecordsPass(j, projects, blocks, records) && i < |records|
    ensures records[i].project == j.header.project ==> OwnedRecord(j, projects, records[i]) && SaneBlocks(records[i])
  {
    if i < |records| - 1 {
      RecordsPassEach(j, projects, blocks, records[..|records| - 1], i);
    }
  }

  class TagState {
    const j: JournalFile
    const fds: array<Option<uint64>>
    const projects: array<uint32>
    var pinned: nat
    var tagged: nat
    var seen: nat
    var blocks: nat

    ghost function Pins(): PinState
      reads fds, projects
    {
      PinState(fds[..], projects[..])
    }

    ghost predicate Valid()
      reads this, fds, projects
    {
      && Ordered(j)
      && fds.Length == projects.Length == |j.nodes|
      && pinned == |PinnedNodes(fds[..])|
      && tagged == |TaggedNodes(Pins())|
      && Consistent(j, Pins())
      && blocks <= UINT64_MAX
    }

    /** What the counters of a valid state say. */
    lemma Counters()
      requires Valid()
      ensures Ordered(j) && Fits(|j.nodes|, Pins()) && Consistent(j, Pins())
      ensures pinned == |PinnedNodes(Pins().fds)| && tagged == |TaggedNodes(Pins())|
    {
    }

    constructor (j: JournalFile)
      requires Ordered(j)
      ensures Valid() && this.j == j && fresh(fds) && fresh(projects)
      ensures Pins() == PinState(seq(|j.nodes|, _ => None), seq(|j.nodes|, _ => 0))
      ensures pinned == 0 && tagged == 0
    {
      this.j := j;
      fds := new Option<uint64>[|j.nodes|](_ => None);
      projects := new uint32[|j.nodes|](_ => 0);
      pinned, tagged, seen, blocks := 0, 0, 0, 0;
      new;
      assert fds[..] == seq(|j.nodes|, _ => None);
      assert projects[..] == seq(|j.nodes|, _ => 0);
      assert PinnedNodes(fds[..]) == {} && TaggedNodes(Pins()) == {};
    }

    /** Records one accepted visit; refuses a visit that names no free journal node. */
    method PinNode(v: View, tree: uint32) returns (ok: bool)
      requires Valid()
      modifies this`pinned, this`tagged, fds, projects
      ensures Valid()
      ensures ok <==> Free(old(Pins()), MarkOf(j, tree, v)) && !v.dupFails
      ensures Pins() == if ok then PinOne(old(Pins()), MarkOf(j, tree, v)) else old(Pins())
    {
      ghost var before, mark := Pins(), MarkOf(j, tree, v);
      var index := VisitIndex(j, tree, v);
      if index < 0 || fds[index].Some? || v.dupFails {
        return false;
      }
      PinKeepsConsistent(j, before, tree, v);
      PinOneCounts(before, mark);
      hide PinnedNodes, TaggedNodes, Ordered, Consistent, VisitIndex, MarkOf, PinOne, Free;
      Hold(index, v);
      return true;
    }

    /** Keeps the descriptor of a visit for its node, with the project seen on it, and counts it. */
    method Hold(i: nat, v: View)
      requires i < fds.Length == projects.Length
      modifies this`pinned, this`tagged, fds, projects
      ensures Pins() == PinState(old(fds[..])[i := Some(v.ino)], old(projects[..])[i := v.project])
      ensures pinned == old(pinned) + 1 && tagged == old(tagged) + if v.project != 0 then 1 else 0
    {
      fds[i] := Some(v.ino);
      projects[i] := v.project;
      pinned := pinned + 1;
      if v.project != 0 {
        tagged := tagged + 1;
      }
    }

    /** pin_tree: on success exactly the visits of the walk are pinned, each once. */
    method PinTree(v: View, tree: uint32, depth: nat, device: nat) returns (r: Verdict)
      requires Valid()
      modifies this`pinned, this`tagged, fds, projects
      ensures Valid()
      ensures r.Passed? <==> Walkable(v, depth, device) && Accepts(old(Pins()), Marks(j, tree, v))
      ensures r.Passed? ==> Pins() == PinAll(old(Pins()), Marks(j, tree, v))
      decreases v, 1
    {
      ghost var before, first := Pins(), MarkOf(j, tree, v);
      ghost var rest := if IsDir(v.mode) then EntryMarks(j, tree, v.entries, |v.entries|) else [];
      PinAllAppend(before, [first], rest);
      PinSingle(before, first);
      if depth > MAX_DEPTH || pinned == |j.nodes| {
        if depth <= MAX_DEPTH && first.index >= 0 {
          AllPinned(before, first.index);
        }
        return Refused("tree-changed");
      }
      if v.queryFails || v.device != device {
        return Refused("tree-query");
      }
      var ok := PinNode(v, tree);
      if !ok {
        return Refused("tree-changed");
      }
      if !IsDir(v.mode) {
        return Passed;
      }
      r := PinEntries(v.entries, tree, depth, device);
      if r.Passed? && v.readFails {
        return Refused("tree-query");
      }
    }

    /** The directory loop of pin_tree. */
    method PinEntries(entries: seq<View>, tree: uint32, depth: nat, device: nat) returns (r: Verdict)
      requires Valid()
      modifies this`pinned, this`tagged, fds, projects
      ensures Valid()
      ensures r.Passed? <==> EntriesWalkable(entries, |entries|, depth, device) &&
                             Accepts(old(Pins()), EntryMarks(j, tree, entries, |entries|))
      ensures r.Passed? ==> Pins() == PinAll(old(Pins()), EntryMarks(j, tree, entries, |entries|))
      decreases entries, 0
    {
      ghost var start := Pins();
      assert Sorted(j.nodes);
      NoEntryYet(j, tree, entries, depth, device, start);
      hide TagState.Valid, Walkable, Marks, EntryMarks, EntriesWalkable, Accepts, PinAll, Sorted;
      for n := 0 to |entries|
        invariant Valid()
        invariant EntriesWalkable(entries, n, depth, device)
        invariant Accepts(start, EntryMarks(j, tree, entries, n))
        invariant Pins() == PinAll(start, EntryMarks(j, tree, entries, n))
      {
        NextEntryMarks(j, tree, entries, n, depth, device, start);
        if !entries[n].opens {
          return Refused("tree-changed");
        }
        r := PinTree(entries[n], tree, depth + 1, device);
        if r.Refused? {
          return;
        }
      }
      return Passed;
    }

    /** Notes that node i has just been tagged. */
    method NoteTagged(i: nat)
      requires Valid() && i < |j.nodes| && fds[i].Some? && projects[i] == 0
      modifies this`tagged, projects
      ensures Valid() && tagged == old(tagged) + 1
      ensures projects[..] == old(projects[..])[i := j.header.project]
    {
      TagOneCounts(Pins(), i, j.header.project);
      hide PinnedNodes, TaggedNodes, Ordered;
      projects[i] := j.header.project;
      tagged := tagged + 1;
    }

    /** Closes every descriptor before the second walk. */
    method CloseAll()
      requires Valid()
      modifies this`pinned, this`tagged, fds
      ensures Valid() && pinned == 0 && tagged == 0
      ensures forall i | 0 <= i < |j.nodes| :: fds[i].None?
    {
      for i := 0 to |j.nodes|
        invariant forall k | 0 <= k < i :: fds[k].None?
      {
        fds[i] := None;
      }
      pinned, tagged := 0, 0;
      assert PinnedNodes(fds[..]) == {} && TaggedNodes(Pins()) == {};
    }

    /** Starts a new census check. */
    method ResetCensus()
      requires Valid()
      modifies this`seen, this`blocks
      ensures Valid() && seen == 0 && blocks == 0
    {
      seen, blocks := 0, 0;
    }

    /** check_project_inode, called by the census for every inode record. */
    method CheckProjectInode(st: InodeStat) returns (r: Verdict)
      requires Valid()
      modifies this`seen, this`blocks
      ensures Valid()
      ensures r.Passed? <==> RecordPasses(j, projects[..], old(blocks), st)
      ensures r.Passed? && st.project == j.header.project ==>
                seen == old(seen) + 1 && blocks == old(blocks) + SectorCount(st)
      ensures r.Refused? || st.project != j.header.project ==> seen == old(seen) && blocks == old(blocks)
    {
      if st.project != j.header.project {
        return Passed;
      }
      if !OwnedRecord(j, projects[..], st) {
        return Refused("project-not-owned");
      }
      if !SaneBlocks(st) {
        return Refused("quota-accounting");
      }
      var sectors := SectorCount(st);
      if blocks > UINT64_MAX - sectors {
        return Refused("quota-accounting");
      }
      blocks := blocks + sectors;
      seen := seen + 1;
      return Passed;
    }
  }
}
