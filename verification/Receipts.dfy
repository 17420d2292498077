/**
 Operation receipts shared by panel and worker (cmd/panel/runtime.go, cmd/worker/runtime.go),
 for one site: the states both sides keep on disk, the durable steps either may take, and
 what holds in every run of such steps.
 */
module Receipts {
  import opened Common

  datatype Status = Creating | Running | Stopped | Broken | Deleting | Unhealthy
  datatype State = Pending | Succeeded | Failed | Interrupted

  /** The panel's operation kinds, and the one kind the worker has for all its backups. */
  datatype Kind = Create | Start | Stop | Delete | ManualBackup | ScheduledBackup | SafetyBackup
    | Update | PrepareRestore | Restore | Resources | PlainBackup

  datatype Source = Manual | Scheduled | Safety | Unset
  datatype Backup = Backup(id: string, created: int, source: Source)

  datatype Message = NoMessage | Text(text: string) | Unconfirmed | NoResult | CreateInterrupted | ChangeInterrupted
    | DeletionInterrupted | Inspect(cause: Message) | CheckFailed | CallError | WorkerFailed | WorkerRestarted

  datatype Operation = Operation(id: string, kind: Kind, state: State, error: Message, backup: Option<Backup>,
                                 rejected: bool)

  datatype Limits = Limits(memory: int, quarters: int)

  datatype Site = Site(
    status: Status, error: Message, op: Option<Operation>, backups: seq<Backup>, health: Message, checked: int,
    limits: Limits, retention: int)

  datatype Snapshot = Snapshot(status: Status, detail: Message, op: Option<Operation>, limits: Option<Limits>)

  predicate PendingOn(s: Site) {
    s.op.Some? && s.op.value.state.Pending?
  }

  function SourceOf(k: Kind): Source {
    match k
    case ScheduledBackup => Scheduled
    case SafetyBackup => Safety
    case _ => Manual
  }

  function IdsOf(backups: seq<Backup>): (r: set<string>)
    ensures forall x :: x in r <==> exists i :: 0 <= i < |backups| && backups[i].id == x
  {
    set i | 0 <= i < |backups| :: backups[i].id
  }

  // ---- Reconciliation with one snapshot ----

  /** The pending marker after the worker's receipt is known; the panel's kind is kept. */
  function Resolved(marker: Operation, receipt: Option<Operation>): Operation {
    if receipt.None? || receipt.value.id != marker.id then marker.(state := Interrupted, error := NoResult)
    else receipt.value.(kind := marker.kind)
  }

  /** The backup list after a receipt is taken over. */
  function Recovered(backups: seq<Backup>, op: Operation): seq<Backup> {
    if op.backup.Some? && op.state.Succeeded? && op.backup.value.id !in IdsOf(backups) then
      backups + [op.backup.value.(source := SourceOf(op.kind))]
    else backups
  }

  function AfterOperation(s: Site, op: Operation, snap: Snapshot): Site {
    var t := s.(op := Some(op));
    match op.kind
    case Create => t.(status := Broken, error := CreateInterrupted)
    case Restore | Update | Resources =>
      t.(status := snap.status, error := if op.state.Succeeded? then snap.detail else ChangeInterrupted)
    case _ =>
      t.(status := snap.status, error := if op.state.Succeeded? then snap.detail else Inspect(op.error))
  }

  function Observed(s: Site, snap: Snapshot): Site {
    if s.status.Creating? then s.(status := Broken, error := CreateInterrupted)
    else if s.status.Deleting? then s.(status := Unhealthy, error := DeletionInterrupted)
    else if s.status.Broken? then s
    else
      s.(status := snap.status,
         error := if s.op.None? || s.op.value.state.Succeeded? then snap.detail else s.error)
  }

  /** What one reconciliation stores; None deletes the site's record. */
  function Reconciled(s: Site, snap: Snapshot, now: int): Option<Site> {
    var t := s.(health := NoMessage, limits := if snap.limits.Some? then snap.limits.value else s.limits);
    if PendingOn(s) then
      var op := Resolved(s.op.value, snap.op);
      if op.kind.Delete? && op.state.Succeeded? then None
      else
        var known := snap.op.Some? && snap.op.value.id == s.op.value.id;
        var u := t.(backups := if known then Recovered(s.backups, op) else s.backups);
        Some(AfterOperation(u, op, snap).(checked := now))
    else Some(Observed(t, snap).(checked := now))
  }

  predicate LiveStatus(s: Status) { s.Running? || s.Stopped? || s.Unhealthy? }

  /** The worker never reports a pending receipt: it interrupts one before answering. */
  predicate Settled(op: Option<Operation>) {
    op.Some? ==> !op.value.state.Pending?
  }

  /** Resolving leaves nothing pending. */
  lemma ReconcilingSettles(s: Site, snap: Snapshot, now: int)
    requires Settled(snap.op)
    ensures Reconciled(s, snap, now).Some? ==> !PendingOn(Reconciled(s, snap, now).value)
  {
  }

  /** The one state in which a second look changes the record again: a site saved as deleting
      with no pending operation, unless the services are unhealthy anyway and the message
      stays. */
  predicate LooksTwice(s: Site, snap: Snapshot) {
    && s.status.Deleting? && !PendingOn(s)
    && !(snap.status.Unhealthy? && (snap.detail == DeletionInterrupted || (s.op.Some? && !s.op.value.state.Succeeded?)))
  }

  /** The second look finds nothing pending. */
  lemma SecondLook(s: Site, snap: Snapshot, now: int, later: int)
    requires Settled(snap.op) && Reconciled(s, snap, now).Some?
    ensures var t := Reconciled(s, snap, now).value;
            && !PendingOn(t) && t.health == NoMessage
            && t.limits == (if snap.limits.Some? then snap.limits.value else s.limits)
            && Reconciled(t, snap, later) == Some(Observed(t, snap).(checked := later))
  {
    hide Recovered;
  }

  lemma AgainAfterPending(s: Site, snap: Snapshot, now: int)
    requires Settled(snap.op) && LiveStatus(snap.status) && PendingOn(s) && Reconciled(s, snap, now).Some?
    ensures Observed(Reconciled(s, snap, now).value, snap) == Reconciled(s, snap, now).value
  {
    hide Recovered;
  }

  lemma AgainOtherwise(s: Site, snap: Snapshot, now: int)
    requires LiveStatus(snap.status) && !PendingOn(s)
    ensures Observed(Reconciled(s, snap, now).value, snap) == Reconciled(s, snap, now).value <==> !LooksTwice(s, snap)
  {
    hide Recovered, Resolved, AfterOperation;
  }

  /** Reconciling again with the same snapshot changes nothing but the check time, exactly
      outside that state. */
  lemma ReconcilingAgain(s: Site, snap: Snapshot, now: int, later: int)
    requires Settled(snap.op) && LiveStatus(snap.status) && Reconciled(s, snap, now).Some?
    ensures Reconciled(Reconciled(s, snap, now).value, snap, later) ==
            Some(Reconciled(s, snap, now).value.(checked := later))
            <==> !LooksTwice(s, snap)
  {
    SecondLook(s, snap, now, later);
    ObservedChecked(Reconciled(s, snap, now).value, snap, later);
    hide Reconciled, Observed;
    if PendingOn(s) {
      AgainAfterPending(s, snap, now);
    } else {
      AgainOtherwise(s, snap, now);
    }
  }

  lemma ObservedChecked(t: Site, snap: Snapshot, later: int)
    ensures Observed(t, snap).(checked := later) == t.(checked := later) <==> Observed(t, snap) == t
  {
    assert Observed(t, snap).checked == t.checked;
  }

  /** A concrete site that changes twice: interrupted deletion, services still running. */
  lemma InterruptedDeletionChangesTwice(s: Site, now: int)
    requires s.status.Deleting? && s.op.None?
    ensures var snap := Snapshot(Running, NoMessage, None, None);
            var first := Reconciled(s, snap, now).value;
            first.status == Unhealthy && Reconciled(first, snap, now).value.status == Running
  {
  }

  // ---- The system ----

  /** What an operation ID was drawn for. */
  datatype Request = Request(kind: Kind, backup: Option<string>)

  /** Both disks, with the IDs handed out, the work really done, the receipts saved as
      succeeded, and the backups removed on purpose. */
  datatype Sys = Sys(
    site: Option<Site>, receipt: Option<Operation>, requested: map<string, Request>,
    completed: map<string, Option<Backup>>, saved: set<string>, dropped: set<string>)

  predicate Outstanding(s: Sys, id: string) {
    s.site.Some? && PendingOn(s.site.value) && s.site.value.op.value.id == id
  }

  /** The list entry a completed backup operation should have. */
  function Entry(s: Sys, id: string): Backup
    requires id in s.requested && id in s.completed && s.completed[id].Some?
  {
    s.completed[id].value.(source := SourceOf(s.requested[id].kind))
  }

  predicate Unused(s: Sys, id: string, backup: Option<string>) {
    id !in s.requested && (backup.Some? ==> forall k | k in s.requested :: s.requested[k].backup != backup)
  }

  function Marker(id: string, kind: Kind): Operation {
    Operation(id, kind, Pending, NoMessage, None, false)
  }

  /** Everything of the record that an operation's outcome depends on stays the same. */
  predicate SameProgress(s: Site, t: Site) {
    && t.backups == s.backups
    && (s.op.None? ==> t.op.None?)
    && (s.op.Some? ==>
          && t.op.Some? && t.op.value.id == s.op.value.id
          && t.op.value.kind == s.op.value.kind && t.op.value.state == s.op.value.state)
  }

  /** The panel records a new pending marker: none is outstanding, or the last one was
      confirmed by the worker and carries no backup. */
  predicate MarkStep(a: Sys, b: Sys, id: string, kind: Kind, backup: Option<string>) {
    && a.site.Some? && Unused(a, id, backup)
    && (PendingOn(a.site.value) ==>
          var last := a.site.value.op.value.id;
          last in a.saved && last in a.completed && a.completed[last].None?)
    && b.site.Some? && b.site.value.op.Some? && b.site.value.op.value.(error := NoMessage) == Marker(id, kind)
    && b.site.value.backups == a.site.value.backups
    && b == a.(site := b.site, requested := a.requested[id := Request(kind, backup)])
  }

  /** Any other write of the record. */
  predicate KeepStep(a: Sys, b: Sys) {
    a.site.Some? && b.site.Some? && SameProgress(a.site.value, b.site.value) && b == a.(site := b.site)
  }

  function WorkerKind(k: Kind): Kind {
    if k.ManualBackup? || k.ScheduledBackup? || k.SafetyBackup? then PlainBackup else k
  }

  /** The worker accepts the request; it is delivered only while its marker is outstanding. */
  predicate AcceptStep(a: Sys, b: Sys) {
    && a.site.Some? && PendingOn(a.site.value)
    && var marker := a.site.value.op.value;
    && (a.receipt.Some? ==> a.receipt.value.id != marker.id && !a.receipt.value.state.Pending?)
    && b == a.(receipt := Some(Marker(marker.id, WorkerKind(marker.kind))))
  }

  /** The work of the accepted operation is done, without error. */
  predicate CompleteStep(a: Sys, b: Sys, backup: Option<Backup>) {
    && a.receipt.Some? && a.receipt.value.state.Pending?
    && var id := a.receipt.value.id;
    && id in a.requested && id !in a.completed
    && (if backup.Some? then a.requested[id].backup == Some(backup.value.id) else a.requested[id].backup.None?)
    && b == a.(completed := a.completed[id := backup])
  }

  /** The worker saves its receipt as succeeded. */
  predicate CertifyStep(a: Sys, b: Sys) {
    && a.receipt.Some? && a.receipt.value.state.Pending?
    && var id := a.receipt.value.id;
    && id in a.completed
    && b == a.(receipt := Some(a.receipt.value.(state := Succeeded, backup := a.completed[id])),
               saved := a.saved + {id})
  }

  /** The worker saves a failed or interrupted receipt. */
  predicate CloseStep(a: Sys, b: Sys) {
    && a.receipt.Some? && a.receipt.value.state.Pending?
    && b.receipt.Some? && b.receipt.value.id == a.receipt.value.id
    && (b.receipt.value.state.Failed? || b.receipt.value.state.Interrupted?)
    && b == a.(receipt := b.receipt)
  }

  /** The panel commits a confirmed success together with the handler's metadata. */
  predicate CommitStep(a: Sys, b: Sys) {
    && a.site.Some? && PendingOn(a.site.value)
    && var marker := a.site.value.op.value;
    && marker.id in a.saved && marker.id in a.completed && marker.id in a.requested
    && b.site.Some? && b.site.value.op == Some(marker.(state := Succeeded))
    && b.site.value.backups == a.site.value.backups +
         (if a.completed[marker.id].Some? then [Entry(a, marker.id)] else [])
    && b == a.(site := b.site)
  }

  /** The panel stores the outcome of a check; the worker has settled its receipt. */
  predicate ReconcileStep(a: Sys, b: Sys, snap: Snapshot, now: int) {
    && a.site.Some? && Settled(a.receipt) && snap.op == a.receipt
    && b == a.(site := Reconciled(a.site.value, snap, now))
  }

  /** A confirmed deletion of the site's record. */
  predicate EraseStep(a: Sys, b: Sys) {
    a.site.Some? && PendingOn(a.site.value) && a.site.value.op.value.id in a.saved && b == a.(site := None)
  }

  /** A user or the retention rule deletes one listed backup; nothing is pending. */
  predicate DropStep(a: Sys, b: Sys, i: nat) {
    && a.site.Some? && !PendingOn(a.site.value) && i < |a.site.value.backups|
    && var list := a.site.value.backups;
    && b.site.Some? && b.site.value.op == a.site.value.op
    && b.site.value.backups == list[..i] + list[i + 1..]
    && b == a.(site := b.site, dropped := a.dropped + {list[i].id})
  }

  datatype Label =
    | Mark(id: string, kind: Kind, backup: Option<string>)
    | Keep | Accept | Complete(made: Option<Backup>) | Certify | Close | Commit
    | Reconcile(snap: Snapshot, now: int) | Erase | Drop(index: nat)

  predicate Step(a: Sys, b: Sys, l: Label) {
    match l
    case Mark(id, kind, backup) => MarkStep(a, b, id, kind, backup)
    case Keep => KeepStep(a, b)
    case Accept => AcceptStep(a, b)
    case Complete(made) => CompleteStep(a, b, made)
    case Certify => CertifyStep(a, b)
    case Close => CloseStep(a, b)
    case Commit => CommitStep(a, b)
    case Reconcile(snap, now) => ReconcileStep(a, b, snap, now)
    case Erase => EraseStep(a, b)
    case Drop(i) => DropStep(a, b, i)
  }

  // ---- The invariant ----

  predicate Bookkept(s: Sys) {
    && s.completed.Keys <= s.requested.Keys && s.saved <= s.completed.Keys
    && (forall k | k in s.completed ::
          if s.completed[k].Some? then s.requested[k].backup == Some(s.completed[k].value.id)
          else s.requested[k].backup.None?)
    && (forall j, k | j in s.requested && k in s.requested && j != k && s.requested[j].backup.Some? ::
          s.requested[j].backup != s.requested[k].backup)
  }

  predicate ReceiptFits(s: Sys) {
    s.receipt.Some? ==>
      var r := s.receipt.value;
      && r.id in s.requested
      && (r.id in s.saved <==> r.state.Succeeded?)
      && (r.state.Succeeded? ==> r.id in s.completed && r.backup == s.completed[r.id])
  }

  predicate MarkerFits(s: Sys) {
    s.site.Some? ==>
      && (s.receipt.Some? && s.receipt.value.state.Pending? ==> Outstanding(s, s.receipt.value.id))
      && (s.site.value.op.Some? ==>
            var op := s.site.value.op.value;
            && op.id in s.requested && s.requested[op.id].kind == op.kind
            && (op.state.Succeeded? ==> op.id in s.saved)
            && (op.state.Pending? && op.id in s.completed ==> s.receipt.Some? && s.receipt.value.id == op.id))
  }

  predicate Listed(s: Sys, id: string)
    requires s.site.Some? && id in s.requested && id in s.completed && s.completed[id].Some?
  {
    Entry(s, id) in s.site.value.backups
  }

  /** The listed backup b is what the certified operation k made. */
  predicate Comes(s: Sys, b: Backup, k: string) {
    && k in s.saved && k in s.completed && k in s.requested && s.completed[k].Some?
    && b == Entry(s, k) && !Outstanding(s, k)
  }

  /** Listed backups have distinct IDs and come from certified operations, with their source. */
  ghost predicate ListFits(s: Sys) {
    s.site.Some? ==>
      var list := s.site.value.backups;
      && (forall i, j | 0 <= i < j < |list| :: list[i].id != list[j].id)
      && (forall e | e in list :: exists k :: Comes(s, e, k))
  }

  /** No certified backup is lost: it is listed, was removed on purpose, or its marker is still
      outstanding while the receipt that proves it is still there. */
  predicate NothingLost(s: Sys) {
    s.site.Some? && Bookkept(s) ==>
      forall k | k in s.saved && s.completed[k].Some? ::
        Listed(s, k) || s.completed[k].value.id in s.dropped || Outstanding(s, k)
  }

  ghost predicate Inv(s: Sys) {
    Bookkept(s) && ReceiptFits(s) && MarkerFits(s) && ListFits(s) && NothingLost(s)
  }

  /** Entries keep their origin when no old operation becomes outstanding. */
  lemma OriginsKept(a: Sys, b: Sys, e: Backup)
    requires exists k :: Comes(a, e, k)
    requires forall k | Comes(a, e, k) :: Comes(b, e, k)
    ensures exists k :: Comes(b, e, k)
  {
  }

  lemma ListKept(a: Sys, b: Sys)
    requires ListFits(a) && a.site.Some? && b.site.Some? && b.site.value.backups == a.site.value.backups
    requires forall e, k | Comes(a, e, k) :: Comes(b, e, k)
    ensures ListFits(b)
  {
    forall e | e in b.site.value.backups
      ensures exists k :: Comes(b, e, k)
    {
      OriginsKept(a, b, e);
    }
  }

  /** Taking over the outstanding operation's backup: its ID is new to the list. */
  lemma ListGrows(a: Sys, b: Sys, id: string)
    requires Inv(a) && Outstanding(a, id) && id in a.saved && id in a.completed && a.completed[id].Some?
    requires b.site.Some? && b == a.(site := b.site) && !PendingOn(b.site.value)
    requires b.site.value.backups == a.site.value.backups + [Entry(a, id)]
    ensures a.completed[id].value.id !in IdsOf(a.site.value.backups)
    ensures ListFits(b) && NothingLost(b)
  {
    var list, longer := a.site.value.backups, b.site.value.backups;
    FreshEntry(a, id);
    assert Comes(b, Entry(a, id), id);
    forall e | e in longer
      ensures exists k :: Comes(b, e, k)
    {
      if e in list {
        var k :| Comes(a, e, k);
        assert Comes(b, e, k);
      }
    }
    forall k | k in b.saved && b.completed[k].Some?
      ensures Listed(b, k) || b.completed[k].value.id in b.dropped
    {
      assert Entry(b, k) == Entry(a, k);
      if k != id && Listed(a, k) {
        assert Entry(b, k) in list;
      } else if k == id {
        assert longer[|list|] == Entry(b, k);
      }
    }
  }

  lemma FreshEntry(a: Sys, id: string)
    requires Inv(a) && Outstanding(a, id) && id in a.saved && id in a.completed && a.completed[id].Some?
    ensures a.completed[id].value.id !in IdsOf(a.site.value.backups)
  {
    var list := a.site.value.backups;
    forall i | 0 <= i < |list|
      ensures list[i].id != a.completed[id].value.id
    {
      assert list[i] in list;
      var k :| Comes(a, list[i], k);
      assert k != id;
    }
  }

  /** Settling an outstanding operation that made no certified backup leaves the list. */
  lemma ListSettles(a: Sys, b: Sys)
    requires Inv(a) && a.site.Some? && b.site.Some? && b == a.(site := b.site) && !PendingOn(b.site.value)
    requires b.site.value.backups == a.site.value.backups
    requires PendingOn(a.site.value) ==> var id := a.site.value.op.value.id; !(id in a.saved && a.completed[id].Some?)
    ensures ListFits(b) && NothingLost(b)
  {
    ListKept(a, b);
    forall k | k in b.saved && b.completed[k].Some?
      ensures Listed(b, k) || b.completed[k].value.id in b.dropped
    {
      assert Entry(b, k) == Entry(a, k);
    }
  }

  lemma MarkKeeps(a: Sys, b: Sys, id: string, kind: Kind, backup: Option<string>)
    requires Inv(a) && MarkStep(a, b, id, kind, backup)
    ensures Inv(b)
  {
    if a.site.Some? {
      ListKept(a, b);
    }
    forall k | k in a.completed && a.completed[k].Some?
      ensures Entry(b, k) == Entry(a, k)
    {}
  }

  lemma KeepKeeps(a: Sys, b: Sys)
    requires Inv(a) && KeepStep(a, b)
    ensures Inv(b)
  {
    if a.site.Some? {
      ListKept(a, b);
    }
  }

  lemma AcceptKeeps(a: Sys, b: Sys)
    requires Inv(a) && AcceptStep(a, b)
    ensures Inv(b)
  {
    if a.site.Some? {
      ListKept(a, b);
    }
  }

  lemma CompleteKeeps(a: Sys, b: Sys, made: Option<Backup>)
    requires Inv(a) && CompleteStep(a, b, made)
    ensures Inv(b)
  {
    if a.site.Some? {
      ListKept(a, b);
    }
    forall k | k in a.completed && a.completed[k].Some?
      ensures Entry(b, k) == Entry(a, k)
    {}
  }

  lemma CertifyKeeps(a: Sys, b: Sys)
    requires Inv(a) && CertifyStep(a, b)
    ensures Inv(b)
  {
    if a.site.Some? {
      ListKept(a, b);
    }
  }

  lemma CloseKeeps(a: Sys, b: Sys)
    requires Inv(a) && CloseStep(a, b)
    ensures Inv(b)
  {
    if a.site.Some? {
      ListKept(a, b);
    }
  }

  lemma CommitKeeps(a: Sys, b: Sys)
    requires Inv(a) && CommitStep(a, b)
    ensures Inv(b)
  {
    var id := a.site.value.op.value.id;
    if a.completed[id].Some? {
      ListGrows(a, b, id);
    } else {
      ListSettles(a, b);
    }
    hide ListFits, NothingLost;
  }

  lemma ReconcileKeeps(a: Sys, b: Sys, snap: Snapshot, now: int)
    requires Inv(a) && ReconcileStep(a, b, snap, now)
    ensures Inv(b)
  {
    if b.site.Some? {
      ReconcilingSettles(a.site.value, snap, now);
      ReconciledMarker(a, b, snap, now);
      var s := a.site.value;
      if PendingOn(s) && s.op.value.id in a.saved && a.completed[s.op.value.id].Some? {
        FreshEntry(a, s.op.value.id);
        assert b.site.value.backups == s.backups + [Entry(a, s.op.value.id)];
        ListGrows(a, b, s.op.value.id);
      } else {
        assert b.site.value.backups == s.backups;
        ListSettles(a, b);
      }
    }
    hide ListFits, NothingLost, Reconciled, MarkerFits;
  }

  lemma ReconciledMarker(a: Sys, b: Sys, snap: Snapshot, now: int)
    requires MarkerFits(a) && ReceiptFits(a) && ReconcileStep(a, b, snap, now)
    ensures MarkerFits(b)
  {
  }

  lemma EraseKeeps(a: Sys, b: Sys)
    requires Inv(a) && EraseStep(a, b)
    ensures Inv(b)
  {
  }

  lemma DropKeeps(a: Sys, b: Sys, i: nat)
    requires Inv(a) && DropStep(a, b, i)
    ensures Inv(b)
  {
    var list, shorter := a.site.value.backups, b.site.value.backups;
    forall e | e in list && e != list[i]
      ensures e in shorter
    {
      var j :| 0 <= j < |list| && list[j] == e;
      assert shorter[if j < i then j else j - 1] == e;
    }
    forall e | e in shorter
      ensures exists k :: Comes(b, e, k)
    {
      assert e in list;
      var k :| Comes(a, e, k);
      assert Comes(b, e, k);
    }
    forall k | k in b.saved && b.completed[k].Some?
      ensures Listed(b, k) || b.completed[k].value.id in b.dropped
    {
      assert Entry(b, k) == Entry(a, k);
    }
  }

  lemma StepKeepsInv(a: Sys, b: Sys, l: Label)
    requires Inv(a) && Step(a, b, l)
    ensures Inv(b)
  {
    match l
    case Mark(id, kind, backup) => MarkKeeps(a, b, id, kind, backup);
    case Keep => KeepKeeps(a, b);
    case Accept => AcceptKeeps(a, b);
    case Complete(made) => CompleteKeeps(a, b, made);
    case Certify => CertifyKeeps(a, b);
    case Close => CloseKeeps(a, b);
    case Commit => CommitKeeps(a, b);
    case Reconcile(snap, now) => ReconcileKeeps(a, b, snap, now);
    case Erase => EraseKeeps(a, b);
    case Drop(i) => DropKeeps(a, b, i);
  }

  // ---- Runs ----

  /** A run from a fresh record; a crash is simply the end of a handler between two steps. */
  ghost predicate Run(states: seq<Sys>, labels: seq<Label>) {
    && |states| == |labels| + 1 && Fresh(states[0])
    && forall k | 0 <= k < |labels| :: Step(states[k], states[k + 1], labels[k])
  }

  predicate Fresh(s: Sys) {
    && s.site.Some? && s.site.value.op.None? && s.site.value.backups == [] && s.receipt.None?
    && s.requested == map[] && s.completed == map[] && s.saved == {} && s.dropped == {}
  }

  lemma {:induction false} RunsKeepInv(states: seq<Sys>, labels: seq<Label>, k: nat)
    requires Run(states, labels) && k < |states|
    ensures Inv(states[k])
  {
    if k > 0 {
      RunsKeepInv(states, labels, k - 1);
      StepKeepsInv(states[k - 1], states[k], labels[k - 1]);
    }
  }

  /** The panel records success only of an operation that the worker completed, under the same
      ID and kind, and whose receipt it saved. */
  lemma SucceededOnlyIfCompleted(states: seq<Sys>, labels: seq<Label>, k: nat)
    requires Run(states, labels) && k < |states|
    requires states[k].site.Some? && states[k].site.value.op.Some? && states[k].site.value.op.value.state.Succeeded?
    ensures var op := states[k].site.value.op.value;
            op.id in states[k].completed && op.id in states[k].saved &&
            op.id in states[k].requested && states[k].requested[op.id].kind == op.kind
  {
    RunsKeepInv(states, labels, k);
  }

  /** A pending marker leaves the disk only after the worker saved that operation as succeeded,
      or when a check of a settled worker takes over the receipt or finds none. */
  lemma MarkersAreResolved(a: Sys, b: Sys, l: Label, id: string)
    requires Inv(a) && Step(a, b, l) && Outstanding(a, id) && !Outstanding(b, id)
    ensures id in a.saved || l.Reconcile?
    ensures l.Reconcile? && b.site.Some? ==>
              && b.site.value.op.Some? && b.site.value.op.value.id == id && !PendingOn(b.site.value)
              && (b.site.value.op.value.state.Succeeded? <==> id in a.saved)
    ensures b.site.None? ==> id in a.saved
  {
  }

  /** Whenever nothing is pending, every backup the worker certified is listed exactly once,
      with the source its operation stands for, unless it was removed on purpose. */
  lemma CertifiedBackupsAreListedOnce(states: seq<Sys>, labels: seq<Label>, k: nat, id: string)
    requires Run(states, labels) && k < |states|
    requires states[k].site.Some? && !PendingOn(states[k].site.value)
    requires id in states[k].saved && id in states[k].completed && states[k].completed[id].Some?
    ensures id in states[k].requested
    ensures var list := states[k].site.value.backups;
            (states[k].completed[id].value.id !in states[k].dropped ==> Entry(states[k], id) in list)
            && forall i, j | 0 <= i < j < |list| :: list[i].id != list[j].id
  {
    RunsKeepInv(states, labels, k);
  }

  /** Wherever the run stopped, one check with a settled worker brings the record to such a
      state: nothing pending, or the record of a confirmed deletion gone. */
  lemma OneCheckRecovers(states: seq<Sys>, labels: seq<Label>, k: nat, snap: Snapshot, now: int)
    requires Run(states, labels) && k < |states| && states[k].site.Some?
    requires Settled(states[k].receipt) && snap.op == states[k].receipt
    ensures var t := states[k].(site := Reconciled(states[k].site.value, snap, now));
            && Step(states[k], t, Reconcile(snap, now)) && Inv(t)
            && (t.site.Some? ==> !PendingOn(t.site.value))
            && (t.site.None? ==> states[k].site.value.op.Some? && states[k].site.value.op.value.id in states[k].saved)
  {
    var t := states[k].(site := Reconciled(states[k].site.value, snap, now));
    RunsKeepInv(states, labels, k);
    StepKeepsInv(states[k], t, Reconcile(snap, now));
  }
}
