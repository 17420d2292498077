/**
 The immutable inode journal of one site: its header, its ordered nodes, lookup by
 binary search, and the validation applied to untrusted journal files
 (deploy/storage-authority.c and deploy/storage-tagging.h).
 */
module Journals {
  import opened Common

  const PLAN_MAX_NODES: nat := 8192
  const S_IFMT: bv32 := 0xF000
  const S_IFDIR: bv32 := 0x4000
  const S_IFREG: bv32 := 0x8000
  const FS_XFLAG_PROJINHERIT: bv32 := 0x200

  datatype Node = Node(inode: uint64, generation: uint32, flags: bv32, mode: bv32, tree: uint32)

  datatype Header = Header(
    magic: string, owner: string, daemon: string, state: string, uuid: string, site: string,
    project: uint32, count: uint32, wordpress: uint32, database: uint32)

  /** A journal as read back: `sound` stands for the file's type, owner, mode, link
      count, string terminators and complete reads. */
  datatype JournalFile = JournalFile(header: Header, nodes: seq<Node>, sound: bool)

  predicate IsDir(mode: bv32) { mode & S_IFMT == S_IFDIR }

  predicate IsReg(mode: bv32) { mode & S_IFMT == S_IFREG }

  /** Destination flags: directories additionally inherit the project. */
  function TaggedFlags(n: Node): bv32 {
    if IsDir(n.mode) then n.flags | FS_XFLAG_PROJINHERIT else n.flags
  }

  /** Three-way journal order: by tree, then by inode number. */
  function CompareNode(x: Node, y: Node): (r: int)
    ensures r < 0 <==> x.tree < y.tree || (x.tree == y.tree && x.inode < y.inode)
    ensures r == 0 <==> x.tree == y.tree && x.inode == y.inode
  {
    if x.tree != y.tree then (if x.tree > y.tree then 1 else -1)
    else if x.inode > y.inode then 1
    else if x.inode < y.inode then -1
    else 0
  }

  ghost predicate Sorted(nodes: seq<Node>) {
    forall i, j | 0 <= i < j < |nodes| :: CompareNode(nodes[i], nodes[j]) < 0
  }

  /** What the two-tree lookup needs of its table. */
  ghost predicate Searchable(nodes: seq<Node>) {
    Sorted(nodes) && forall i | 0 <= i < |nodes| :: nodes[i].tree <= 1
  }

  /** The C library's bsearch over nodes[lo..hi], keyed by (tree, inode). */
  function Search(nodes: seq<Node>, inode: uint64, tree: uint32, lo: nat, hi: nat): (r: int)
    requires Sorted(nodes) && lo <= hi <= |nodes|
    ensures r == -1 || lo <= r < hi
    ensures r >= 0 ==> nodes[r].inode == inode && nodes[r].tree == tree
    ensures r < 0 ==> forall k | lo <= k < hi :: !(nodes[k].inode == inode && nodes[k].tree == tree)
    decreases hi - lo
  {
    if lo == hi then -1
    else
      var mid := (lo + hi) / 2;
      var key := Node(inode, 0, 0, 0, tree);
      var c := CompareNode(key, nodes[mid]);
      if c == 0 then mid
      else if c < 0 then Search(nodes, inode, tree, lo, mid)
      else Search(nodes, inode, tree, mid + 1, hi)
  }

  function NodeIndex(nodes: seq<Node>, inode: uint64, tree: uint32): (r: int)
    requires Sorted(nodes)
    ensures -1 <= r < |nodes|
    ensures r >= 0 ==> nodes[r].inode == inode && nodes[r].tree == tree
    ensures r < 0 <==> forall k | 0 <= k < |nodes| :: !(nodes[k].inode == inode && nodes[k].tree == tree)
  {
    Search(nodes, inode, tree, 0, |nodes|)
  }

  ghost predicate DistinctInodes(nodes: seq<Node>) {
    forall i, j | 0 <= i < j < |nodes| :: nodes[i].inode != nodes[j].inode
  }

  /** Lookup in either tree; on a valid journal it is the inverse of node numbering. */
  function InodeIndex(nodes: seq<Node>, inode: uint64): (r: int)
    requires Searchable(nodes)
    ensures -1 <= r < |nodes|
    ensures r >= 0 ==> nodes[r].inode == inode
    ensures r < 0 <==> forall k | 0 <= k < |nodes| :: nodes[k].inode != inode
  {
    var i := NodeIndex(nodes, inode, 0);
    if i >= 0 then i else NodeIndex(nodes, inode, 1)
  }

  predicate ValidHeader(h: Header) {
    && h.magic == "panel4wp-quota-plan-v1"
    && HexString(h.owner, 32) && HexString(h.daemon, 64) && HexString(h.state, 64)
    && HexString(h.uuid, 32) && HexString(h.site, 16)
    && h.project != 0 && h.count <= PLAN_MAX_NODES
    && h.wordpress != 0 && h.database != 0
    && h.wordpress <= h.count && h.database <= h.count
    && h.count == h.wordpress + h.database
  }

  predicate WellFormedNode(n: Node) {
    n.inode != 0 && n.tree <= 1 && (IsDir(n.mode) || IsReg(n.mode))
  }

  /** The part of validity that lookups rely on: ordered, and no inode twice in any tree. */
  ghost predicate Ordered(j: JournalFile) {
    j.header.project != 0 && Searchable(j.nodes) && DistinctInodes(j.nodes)
  }

  /** What a journal must satisfy to be used: well formed, ordered, and exactly the
      announced number of WordPress nodes followed by database nodes. */
  ghost predicate ValidJournal(j: JournalFile)
    ensures ValidJournal(j) ==> Ordered(j)
  {
    && j.sound && ValidHeader(j.header) && |j.nodes| == j.header.count
    && Sorted(j.nodes) && DistinctInodes(j.nodes)
    && (forall i | 0 <= i < |j.nodes| :: WellFormedNode(j.nodes[i]))
    && (forall i | 0 <= i < |j.nodes| :: j.nodes[i].tree == 0 <==> i < j.header.wordpress)
  }

  /** First pass of read_journal: adjacent comparisons establish the total order. */
  method CheckNodes(nodes: seq<Node>) returns (ordered: bool, wp: nat)
    ensures ordered <==> Sorted(nodes) && forall k | 0 <= k < |nodes| :: WellFormedNode(nodes[k])
    ensures ordered ==> wp <= |nodes| && forall k | 0 <= k < |nodes| :: nodes[k].tree == 0 <==> k < wp
  {
    wp := 0;
    for i := 0 to |nodes|
      invariant wp <= i
      invariant forall a, b | 0 <= a < b < i :: CompareNode(nodes[a], nodes[b]) < 0
      invariant forall k | 0 <= k < i :: WellFormedNode(nodes[k])
      invariant forall k | 0 <= k < i :: nodes[k].tree == 0 <==> k < wp
    {
      if !WellFormedNode(nodes[i]) || (i > 0 && CompareNode(nodes[i - 1], nodes[i]) >= 0) {
        return false, wp;
      }
      if nodes[i].tree == 0 {
        wp := wp + 1;
      }
    }
    return true, wp;
  }

  /** Second pass: the same physical inode cannot belong to both trees. */
  method CheckTrees(nodes: seq<Node>, wp: nat) returns (separate: bool)
    requires Sorted(nodes) && wp <= |nodes|
    requires forall k | 0 <= k < |nodes| :: nodes[k].tree <= 1 && (nodes[k].tree == 0 <==> k < wp)
    ensures separate <==> DistinctInodes(nodes)
  {
    for i := 0 to wp
      invariant forall k, m | 0 <= k < i && wp <= m < |nodes| :: nodes[k].inode != nodes[m].inode
    {
      var twin := NodeIndex(nodes, nodes[i].inode, 1);
      if twin >= 0 {
        assert i < twin && nodes[i].inode == nodes[twin].inode;
        return false;
      }
      assert forall m | wp <= m < |nodes| :: nodes[m].tree == 1;
    }
    assert forall i, j | 0 <= i < j < |nodes| && nodes[i].tree == nodes[j].tree ::
        CompareNode(nodes[i], nodes[j]) < 0;
    return true;
  }

  /** read_journal accepts exactly the valid journals. */
  method ReadJournal(j: JournalFile) returns (good: bool)
    ensures good <==> ValidJournal(j)
  {
    var h, nodes := j.header, j.nodes;
    if !j.sound || !ValidHeader(h) || |nodes| != h.count {
      return false;
    }
    var ordered, wp := CheckNodes(nodes);
    if !ordered {
      return false;
    }
    var separate := CheckTrees(nodes, wp);
    if !separate {
      return false;
    }
    WordPressCount(nodes, wp, h.wordpress);
    return wp == h.wordpress && |nodes| - wp == h.database;
  }

  /** The boundary between the two trees of an ordered journal is unique. */
  lemma WordPressCount(nodes: seq<Node>, wp: nat, announced: nat)
    requires wp <= |nodes| && announced <= |nodes|
    requires forall i | 0 <= i < |nodes| :: nodes[i].tree == 0 <==> i < wp
    ensures (forall i | 0 <= i < |nodes| :: nodes[i].tree == 0 <==> i < announced) <==> wp == announced
  {
    if wp < announced {
      assert nodes[wp].tree != 0;
    } else if announced < wp {
      assert nodes[announced].tree == 0;
    }
  }

  /** On a valid journal the inode lookup is injective and onto the node numbers. */
  lemma InodeIndexInverse(j: JournalFile, i: nat)
    requires Ordered(j) && i < |j.nodes|
    ensures InodeIndex(j.nodes, j.nodes[i].inode) == i
  {
    var r := InodeIndex(j.nodes, j.nodes[i].inode);
    assert r >= 0;
  }
}
