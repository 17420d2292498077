/**
 Retention of scheduled backups (cmd/panel/main.go): counting them, finding the oldest, and
 what deleting oldest-first leaves behind.
 */
module Retention {
  import opened Common
  import opened Receipts

  function ScheduledCount(list: seq<Backup>): nat {
    if list == [] then 0
    else ScheduledCount(list[..|list| - 1]) + if list[|list| - 1].source.Scheduled? then 1 else 0
  }

  /** The manual and safety backups, in order. */
  function Others(list: seq<Backup>): seq<Backup> {
    if list == [] then []
    else Others(list[..|list| - 1]) + if list[|list| - 1].source.Scheduled? then [] else [list[|list| - 1]]
  }

  /** The earliest scheduled backup, and the first of several equally old ones. */
  predicate IsOldest(list: seq<Backup>, i: int) {
    && 0 <= i < |list| && list[i].source.Scheduled?
    && (forall j | 0 <= j < |list| && list[j].source.Scheduled? :: list[i].created <= list[j].created)
    && (forall j | 0 <= j < i && list[j].source.Scheduled? :: list[i].created < list[j].created)
  }

  function Without(list: seq<Backup>, i: nat): seq<Backup>
    requires i < |list|
  {
    list[..i] + list[i + 1..]
  }

  /** `after` is `before` with the n oldest scheduled backups removed one by one. */
  ghost predicate PrunedBy(before: seq<Backup>, after: seq<Backup>, n: nat) {
    if n == 0 then after == before
    else exists i: nat :: IsOldest(before, i) && PrunedBy(Without(before, i), after, n - 1)
  }

  lemma {:induction false} CountAppend(a: seq<Backup>, b: seq<Backup>)
    ensures ScheduledCount(a + b) == ScheduledCount(a) + ScheduledCount(b)
    ensures Others(a + b) == Others(a) + Others(b)
  {
    if b == [] {
      assert a + b == a;
    } else {
      CountAppend(a, b[..|b| - 1]);
      assert (a + b)[..|a + b| - 1] == a + b[..|b| - 1];
    }
  }

  lemma RemovalCounts(list: seq<Backup>, i: nat)
    requires i < |list| && list[i].source.Scheduled?
    ensures ScheduledCount(Without(list, i)) + 1 == ScheduledCount(list)
    ensures Others(Without(list, i)) == Others(list)
  {
    var one, front, back := [list[i]], list[..i], list[i + 1..];
    OneScheduled(list[i]);
    SplitAt(list, i);
    hide ScheduledCount, Others, Without;
    CountAppend(front, one + back);
    CountAppend(one, back);
    CountAppend(front, back);
    assert Others(one) + Others(back) == Others(back);
  }

  lemma SplitAt(list: seq<Backup>, i: nat)
    requires i < |list|
    ensures list == list[..i] + ([list[i]] + list[i + 1..]) && Without(list, i) == list[..i] + list[i + 1..]
  {
  }

  lemma OneScheduled(b: Backup)
    requires b.source.Scheduled?
    ensures ScheduledCount([b]) == 1 && Others([b]) == []
  {
    assert [b][..0] == [];
    assert ScheduledCount([]) == 0 && Others([]) == [];
  }

  /** Pruning deletes exactly n scheduled backups, leaves all others in order, and every one it
      deleted is at most as new as every scheduled one it left. */
  lemma {:induction false} PruningKeepsTheNewest(before: seq<Backup>, after: seq<Backup>, n: nat)
    requires PrunedBy(before, after, n)
    ensures ScheduledCount(after) + n == ScheduledCount(before) && Others(after) == Others(before)
    ensures forall e | e in after :: e in before
    ensures forall d, e | d in before && d !in after && e in after && e.source.Scheduled? ::
              d.source.Scheduled? && d.created <= e.created
    decreases n
  {
    if n > 0 {
      var i: nat :| IsOldest(before, i) && PrunedBy(Without(before, i), after, n - 1);
      RemovalCounts(before, i);
      RemovalElements(before, i);
      hide ScheduledCount, Others, Without, PrunedBy, IsOldest;
      PruningKeepsTheNewest(Without(before, i), after, n - 1);
    }
  }

  lemma RemovalElements(list: seq<Backup>, i: nat)
    requires IsOldest(list, i)
    ensures forall d | d in list :: d == list[i] || d in Without(list, i)
    ensures forall e | e in Without(list, i) :: e in list
    ensures forall e | e in list && e.source.Scheduled? :: list[i].created <= e.created
    ensures list[i].source.Scheduled?
  {
    var rest := Without(list, i);
    forall d | d in list && d != list[i]
      ensures d in rest
    {
      var j :| 0 <= j < |list| && list[j] == d;
      assert rest[if j < i then j else j - 1] == d;
    }
  }

  lemma {:induction false} PrunedOneMore(before: seq<Backup>, after: seq<Backup>, n: nat, i: nat)
    requires PrunedBy(before, after, n) && IsOldest(after, i)
    ensures PrunedBy(before, Without(after, i), n + 1)
    decreases n
  {
    if n == 0 {
      assert PrunedBy(Without(before, i), Without(after, i), 0);
    } else {
      var k: nat :| IsOldest(before, k) && PrunedBy(Without(before, k), after, n - 1);
      PrunedOneMore(Without(before, k), after, n - 1, i);
    }
  }

  /** scheduledBackupCount. */
  method CountScheduled(list: seq<Backup>) returns (count: nat)
    ensures count == ScheduledCount(list)
  {
    count := 0;
    for n := 0 to |list|
      invariant count == ScheduledCount(list[..n])
    {
      assert list[..n + 1][..n] == list[..n];
      if list[n].source.Scheduled? {
        count := count + 1;
      }
    }
    assert list[..|list|] == list;
  }

  /** oldestScheduledBackup. */
  method OldestScheduled(list: seq<Backup>) returns (oldest: int)
    ensures if oldest < 0 then forall j | 0 <= j < |list| :: !list[j].source.Scheduled? else IsOldest(list, oldest)
  {
    oldest := -1;
    for n := 0 to |list|
      invariant -1 <= oldest < n
      invariant oldest == -1 ==> forall j | 0 <= j < n :: !list[j].source.Scheduled?
      invariant oldest >= 0 ==>
                  && list[oldest].source.Scheduled?
                  && (forall j | 0 <= j < n && list[j].source.Scheduled? :: list[oldest].created <= list[j].created)
                  && (forall j | 0 <= j < oldest && list[j].source.Scheduled? :: list[oldest].created < list[j].created)
    {
      if list[n].source.Scheduled? && (oldest == -1 || list[n].created < list[oldest].created) {
        oldest := n;
      }
    }
  }

  lemma {:induction false} CountPositive(list: seq<Backup>)
    requires ScheduledCount(list) > 0
    ensures exists j :: 0 <= j < |list| && list[j].source.Scheduled?
  {
    if !list[|list| - 1].source.Scheduled? {
      CountPositive(list[..|list| - 1]);
      var j :| 0 <= j < |list| - 1 && list[..|list| - 1][j].source.Scheduled?;
      assert list[j].source.Scheduled?;
    }
  }
}
