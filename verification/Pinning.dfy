/**
 Bookkeeping of pinned journal nodes: which nodes hold a descriptor, and which project
 was seen on each (the fds and projects arrays of deploy/storage-tagging.h).
 */
module Pinning {
  import opened Common

  /** One visit of a walk, resolved to a journal node number, or to -1. */
  datatype Mark = Mark(index: int, inode: uint64, project: uint32)

  datatype PinState = PinState(fds: seq<Option<uint64>>, projects: seq<uint32>)

  predicate Fits(n: nat, s: PinState) { |s.fds| == |s.projects| == n }

  predicate Free(s: PinState, m: Mark) {
    0 <= m.index < |s.fds| && s.fds[m.index].None?
  }

  function PinOne(s: PinState, m: Mark): (t: PinState)
    requires |s.fds| == |s.projects|
    ensures |t.fds| == |t.projects| == |s.fds|
  {
    if 0 <= m.index < |s.fds| then PinState(s.fds[m.index := Some(m.inode)], s.projects[m.index := m.project]) else s
  }

  function PinAll(s: PinState, marks: seq<Mark>): (t: PinState)
    requires |s.fds| == |s.projects|
    ensures |t.fds| == |t.projects| == |s.fds|
  {
    if marks == [] then s else PinOne(PinAll(s, marks[..|marks| - 1]), marks[|marks| - 1])
  }

  /** Every mark names a node that no earlier mark has pinned. */
  predicate Accepts(s: PinState, marks: seq<Mark>)
    requires |s.fds| == |s.projects|
  {
    marks == [] || (
      Accepts(s, marks[..|marks| - 1]) && Free(PinAll(s, marks[..|marks| - 1]), marks[|marks| - 1]))
  }

  lemma {:induction false} PinAllAppend(s: PinState, a: seq<Mark>, b: seq<Mark>)
    requires |s.fds| == |s.projects|
    ensures PinAll(s, a + b) == PinAll(PinAll(s, a), b)
    ensures Accepts(s, a + b) <==> Accepts(s, a) && Accepts(PinAll(s, a), b)
  {
    if b == [] {
      assert a + b == a;
    } else {
      PinAllAppend(s, a, b[..|b| - 1]);
      assert (a + b)[..|a + b| - 1] == a + b[..|b| - 1];
    }
  }

  lemma PinSingle(s: PinState, m: Mark)
    requires |s.fds| == |s.projects|
    ensures PinAll(s, [m]) == PinOne(s, m) && (Accepts(s, [m]) <==> Free(s, m))
  {
    assert [m][..0] == [];
  }

  ghost function PinnedNodes(fds: seq<Option<uint64>>): set<int> {
    set i | 0 <= i < |fds| && fds[i].Some?
  }

  ghost function TaggedNodes(s: PinState): set<int>
    requires |s.fds| == |s.projects|
  {
    set i | 0 <= i < |s.fds| && s.fds[i].Some? && s.projects[i] != 0
  }

  lemma PinOneCounts(s: PinState, m: Mark)
    requires |s.fds| == |s.projects| && Free(s, m)
    ensures |PinnedNodes(PinOne(s, m).fds)| == |PinnedNodes(s.fds)| + 1
    ensures |TaggedNodes(PinOne(s, m))| == |TaggedNodes(s)| + if m.project != 0 then 1 else 0
  {
    PinOneNodes(s, m);
    assert m.index !in PinnedNodes(s.fds) && m.index !in TaggedNodes(s);
  }

  lemma PinOneNodes(s: PinState, m: Mark)
    requires |s.fds| == |s.projects| && Free(s, m)
    ensures PinnedNodes(PinOne(s, m).fds) == PinnedNodes(s.fds) + {m.index}
    ensures TaggedNodes(PinOne(s, m)) == if m.project != 0 then TaggedNodes(s) + {m.index} else TaggedNodes(s)
  {
    var t := PinOne(s, m);
    assert forall i | 0 <= i < |s.fds| && i != m.index :: t.fds[i] == s.fds[i] && t.projects[i] == s.projects[i];
    assert t.fds[m.index].Some? && t.projects[m.index] == m.project;
  }

  lemma TagOneCounts(s: PinState, i: nat, project: uint32)
    requires i < |s.fds| == |s.projects| && s.fds[i].Some? && s.projects[i] == 0 && project != 0
    ensures |TaggedNodes(PinState(s.fds, s.projects[i := project]))| == |TaggedNodes(s)| + 1
  {
    assert TaggedNodes(PinState(s.fds, s.projects[i := project])) == TaggedNodes(s) + {i};
    AddOneSize(TaggedNodes(s), i);
  }

  /** With every node pinned none is free: the early refusal at `pinned == count` never
      rejects a walk that would otherwise be accepted. */
  lemma AllPinned(s: PinState, i: nat)
    requires |s.fds| == |s.projects| && i < |s.fds| && |PinnedNodes(s.fds)| == |s.fds|
    ensures s.fds[i].Some?
  {
    RangeSize(|s.fds|);
    SubsetSize(PinnedNodes(s.fds), Range(|s.fds|));
    assert i in PinnedNodes(s.fds);
  }

  /** Accepted marks name pairwise different nodes, all of them free beforehand. */
  lemma {:induction false} AcceptedMarksDistinct(s: PinState, marks: seq<Mark>)
    requires |s.fds| == |s.projects| && Accepts(s, marks)
    ensures forall k | 0 <= k < |marks| :: Free(s, marks[k])
    ensures forall k, m | 0 <= k < m < |marks| :: marks[k].index != marks[m].index
  {
    if marks != [] {
      var front, last := marks[..|marks| - 1], marks[|marks| - 1];
      AcceptedMarksDistinct(s, front);
      PinAllContents(s, front);
      forall k | 0 <= k < |marks|
        ensures Free(s, marks[k]) && (k < |front| ==> marks[k].index != last.index)
      {
        if k < |front| {
          assert marks[k] == front[k];
        }
      }
    }
  }

  /** A node is pinned afterwards if it was before, or if some mark names it. */
  lemma {:induction false} PinAllContents(s: PinState, marks: seq<Mark>)
    requires |s.fds| == |s.projects|
    ensures forall i | 0 <= i < |s.fds| :: PinAll(s, marks).fds[i].Some? <==>
              s.fds[i].Some? || exists k :: 0 <= k < |marks| && marks[k].index == i
  {
    if marks != [] {
      var front, last := marks[..|marks| - 1], marks[|marks| - 1];
      PinAllContents(s, front);
      assert forall k | 0 <= k < |front| :: marks[k] == front[k];
      assert marks[|front|] == last;
    }
  }

  lemma {:induction false} AcceptedMarksCount(s: PinState, marks: seq<Mark>)
    requires |s.fds| == |s.projects| && Accepts(s, marks)
    ensures |PinnedNodes(PinAll(s, marks).fds)| == |PinnedNodes(s.fds)| + |marks|
  {
    if marks != [] {
      AcceptedMarksCount(s, marks[..|marks| - 1]);
      PinOneCounts(PinAll(s, marks[..|marks| - 1]), marks[|marks| - 1]);
    }
  }

  /** The project recorded for a node is the one seen by the mark that pinned it. */
  lemma {:induction false} AcceptedMarksProjects(s: PinState, marks: seq<Mark>, k: nat)
    requires |s.fds| == |s.projects| && Accepts(s, marks) && k < |marks|
    ensures Free(s, marks[k])
    ensures PinAll(s, marks).fds[marks[k].index] == Some(marks[k].inode)
    ensures PinAll(s, marks).projects[marks[k].index] == marks[k].project
  {
    AcceptedMarksDistinct(s, marks);
    var front := marks[..|marks| - 1];
    if k < |front| {
      AcceptedMarksProjects(s, front, k);
    }
  }
}
