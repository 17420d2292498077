/**
 The two programs around the receipts, for one site: the worker's request handling
 (cmd/worker/runtime.go, cmd/worker/main.go) and the panel's handlers and reconciler
 (cmd/panel/runtime.go, cmd/panel/main.go). Every durable write is one step of the run that
 module Receipts speaks about.
 */
module Installations {
  import opened Common
  import opened Receipts
  import opened Retention
  import S = SiteStatus

  datatype Link = Delivered | RequestLost | ResponseLost
  datatype Work = Works | Errs | Rejects(safe: bool) | Dies

  /** `quiet` is whether the site can be quiesced after a failure. */
  datatype WorkEnv = WorkEnv(decodes: bool, work: Work, created: int, quiet: bool, disk: Budget)
  datatype CallEnv = CallEnv(link: Link, worker: WorkEnv)

  datatype Response = NoReply | Conflict | ErrorReply | Accepted(backup: Option<Backup>)
  datatype Call = Confirmed(backup: Option<Backup>) | Unresolved | PanelDied

  /** What a check meets: Docker's answers, and the configured limits if they can be read. */
  datatype Probe = Probe(quiet: bool, disk: Budget, view: S.Findings, limits: Option<Option<Limits>>)
  datatype Check = Busy | Unanswered | Answered(probe: Probe)

  datatype Result = NotFound | Gated | NotDone | Crashed | Finished

  class Installation {
    var site: Option<Site>
    var receipt: Option<Operation>
    ghost var requested: map<string, Request>
    ghost var completed: map<string, Option<Backup>>
    ghost var saved: set<string>
    ghost var dropped: set<string>
    ghost var states: seq<Sys>
    ghost var labels: seq<Label>

    constructor (s: Site)
      requires s.op.None? && s.backups == []
      ensures Valid() && site == Some(s) && receipt == None && requested == map[]
    {
      site, receipt, requested, completed, saved, dropped := Some(s), None, map[], map[], {}, {};
      states, labels := [Sys(Some(s), None, map[], map[], {}, {})], [];
    }

    ghost function Now(): Sys
      reads this
    {
      Sys(site, receipt, requested, completed, saved, dropped)
    }

    /** What happened so far is a run of the protocol that ends in the present state. */
    ghost predicate Valid()
      reads this
    {
      Run(states, labels) && states[|labels|] == Now() && Inv(Now())
    }

    ghost method Log(l: Label)
      requires Run(states, labels) && Inv(states[|labels|]) && Step(states[|labels|], Now(), l)
      modifies this`states, this`labels
      ensures Valid() && labels == old(labels) + [l] && states == old(states) + [Now()]
    {
      StepKeepsInv(states[|labels|], Now(), l);
      hide Inv, Step;
      states, labels := states + [Now()], labels + [l];
    }

    // ---- Worker ----

    /** trackOperation: refuses a known or unresolved operation, else saves a pending receipt. */
    method Track(id: string, kind: Kind, disk: Budget) returns (w: Written, refused: bool)
      requires Valid() && Outstanding(Now(), id) && id in requested && requested[id].kind == kind
      modifies this`receipt, this`states, this`labels
      ensures Valid()
      ensures refused <==> old(receipt).Some? && (old(receipt).value.id == id || old(receipt).value.state.Pending?)
      ensures refused ==> receipt == old(receipt)
      ensures !refused ==> w == Write(disk)
      ensures !refused && w.applied ==> receipt == Some(Marker(id, WorkerKind(kind))) && id !in completed
    {
      w := Write(disk);
      refused := receipt.Some? && (receipt.value.id == id || receipt.value.state.Pending?);
      assert !refused ==> id !in completed;
      assert requested[id].kind == site.value.op.value.kind;
      hide Inv, Run;
      if !refused && w.applied {
        receipt := Some(Marker(id, WorkerKind(kind)));
        Log(Accept);
      }
    }

    /** The finish closure, after the work has returned: saves the final receipt. */
    method Finish(id: string, request: Request, work: Work, made: Option<Backup>, quiet: bool, disk: Budget)
      returns (r: Response)
      requires Valid() && receipt == Some(Marker(id, WorkerKind(request.kind))) && !work.Dies?
      requires work.Works? ==> id in completed && completed[id] == made
      modifies this`receipt, this`saved, this`states, this`labels
      ensures Valid()
      ensures r.Accepted? ==>
                && work.Works? && id in saved && r.backup == made
                && receipt.Some? && receipt.value.state.Succeeded?
      ensures receipt.Some? && receipt.value.id == id && (receipt.value.state.Succeeded? ==> work.Works?)
      ensures disk.left >= 2 && (work.Errs? ==> quiet) ==>
                (r.Accepted? <==> work.Works?) && (receipt.value.state.Succeeded? <==> work.Works?)
                  && !receipt.value.state.Pending?
    {
      hide Inv, Run;
      if work.Errs? && !quiet {
        return ErrorReply;
      }
      var op := Marker(id, WorkerKind(request.kind));
      // A failed backup still hands its zero value to the receipt.
      op := if work.Works? then op.(state := Succeeded, backup := made)
            else op.(state := Failed, error := WorkerFailed,
                     rejected := request.kind.Resources? && work == Rejects(true),
                     backup := if request.backup.Some? then Some(Backup("", 0, Unset)) else None);
      var w := Write(disk);
      if w.applied {
        receipt := Some(op);
        if work.Works? {
          saved := saved + {id};
          Log(Certify);
        } else {
          Log(Close);
        }
      }
      if !w.ok {
        return if w.died then NoReply else ErrorReply;
      }
      return if work.Works? then Accepted(made) else ErrorReply;
    }

    /** One tracked request, delivered while its marker is outstanding. */
    method Serve(id: string, request: Request, env: WorkEnv) returns (r: Response)
      requires Valid() && Outstanding(Now(), id) && id in requested && requested[id] == request
      modifies this`receipt, this`completed, this`saved, this`states, this`labels
      ensures Valid() && old(completed).Keys <= completed.Keys
      ensures r.Accepted? ==>
                && id in saved && id in completed && r.backup == completed[id]
                && (r.backup.Some? <==> request.backup.Some?)
      ensures old(receipt).Some? && (old(receipt).value.id == id || old(receipt).value.state.Pending?) ==>
                r.Conflict? && Now() == old(Now())
      // With a free worker, working storage and a decodable request, the reply tells exactly
      // whether the work was done, and the receipt on disk says the same.
      ensures && !(old(receipt).Some? && (old(receipt).value.id == id || old(receipt).value.state.Pending?))
              && env.decodes && env.disk.left >= 3 && !env.work.Dies? && (env.work.Errs? ==> env.quiet)
              ==> (r.Accepted? <==> env.work.Works?) && receipt.Some? && receipt.value.id == id
                  && (receipt.value.state.Succeeded? <==> env.work.Works?) && !receipt.value.state.Pending?
    {
      var w, refused := Track(id, request.kind, env.disk);
      hide Inv, Run;
      if refused {
        return Conflict;
      }
      if !w.ok {
        return if w.died then NoReply else Conflict;
      }
      if !env.decodes {
        return ErrorReply;
      }
      if env.work.Dies? {
        return NoReply;
      }
      var made := if request.backup.Some? then Some(Backup(request.backup.value, env.created, Unset)) else None;
      if env.work.Works? {
        completed := completed[id := made];
        Log(Complete(made));
      }
      r := Finish(id, request, env.work, made, env.quiet, w.rest);
    }

    /** A receipt left pending is fenced and closed: by /runtime and at a worker restart. */
    method Settle(quiet: bool, disk: Budget) returns (ok: bool)
      requires Valid()
      modifies this
      ensures Valid() && site == old(site) && requested == old(requested) && saved == old(saved)
      ensures completed == old(completed) && dropped == old(dropped)
      ensures ok ==> Settled(receipt)
      ensures Settled(old(receipt)) ==> ok && receipt == old(receipt)
      ensures quiet && disk.left >= 2 ==> ok
    {
      hide Inv, Run;
      if receipt.None? || !receipt.value.state.Pending? {
        return true;
      }
      if !quiet {
        return false;
      }
      var w := Write(disk);
      if w.applied {
        receipt := Some(receipt.value.(state := Interrupted, error := WorkerRestarted));
        Log(Close);
      }
      return w.ok;
    }

    /** runtimeSnapshot with recovery of a pending receipt. */
    method Runtime(probe: Probe) returns (r: Option<Snapshot>)
      requires Valid()
      modifies this
      ensures Valid() && site == old(site) && requested == old(requested) && saved == old(saved)
      ensures completed == old(completed) && dropped == old(dropped)
      ensures r.Some? ==> Settled(receipt) && r.value.op == receipt
      ensures r.Some? ==>
                && probe.limits.Some? && r.value.limits == probe.limits.value
                && S.Shows(probe.view, r.value.limits, r.value.status)
                && (r.value.detail.NoMessage? <==> !r.value.status.Unhealthy?)
      ensures probe.limits.None? || S.Unknown(probe.view, probe.limits.value) ==> r.None?
      ensures && probe.limits.Some? && !S.Unknown(probe.view, probe.limits.value)
              && (Settled(old(receipt)) || (probe.quiet && probe.disk.left >= 2))
              ==> r.Some?
    {
      if probe.limits.None? {
        return None;
      }
      var ok := Settle(probe.quiet, probe.disk);
      if !ok {
        return None;
      }
      var seen := S.Observe(probe.view, probe.limits.value);
      if seen.None? {
        return None;
      }
      return Some(Snapshot(seen.value.0, seen.value.1, receipt, probe.limits.value));
    }

    // ---- Panel ----

    /** Whether the loop over the site's backups finds the ID. */
    method HasBackup(backups: seq<Backup>, id: string) returns (found: bool)
      ensures found <==> id in IdsOf(backups)
    {
      found := false;
      for n := 0 to |backups|
        invariant found <==> exists i :: 0 <= i < n && backups[i].id == id
      {
        if backups[n].id == id {
          found := true;
        }
      }
    }

    /** The body of the reconciler's loop for an answered check; None deletes the record. */
    method Resolve(s: Site, snap: Snapshot, now: int) returns (r: Option<Site>)
      ensures r == Reconciled(s, snap, now)
    {
      var t := s.(health := NoMessage);
      if snap.limits.Some? {
        t := t.(limits := snap.limits.value);
      }
      var erased := false;
      if PendingOn(t) {
        var kind := t.op.value.kind;
        if snap.op.None? || snap.op.value.id != t.op.value.id {
          t := t.(op := Some(t.op.value.(state := Interrupted, error := NoResult)));
        } else {
          var op := snap.op.value.(kind := kind);
          if op.backup.Some? && op.state.Succeeded? {
            var backup := op.backup.value.(source := SourceOf(kind));
            var found := HasBackup(t.backups, backup.id);
            if !found {
              t := t.(backups := t.backups + [backup]);
            }
          }
          t := t.(op := Some(op));
        }
        var op := t.op.value;
        if op.kind.Delete? && op.state.Succeeded? {
          erased := true;
        } else if op.kind.Create? {
          t := t.(status := Broken, error := CreateInterrupted);
        } else if op.kind.Restore? || op.kind.Update? || op.kind.Resources? {
          t := t.(status := snap.status, error := if op.state.Succeeded? then snap.detail else ChangeInterrupted);
        } else {
          t := t.(status := snap.status, error := if op.state.Succeeded? then snap.detail else Inspect(op.error));
        }
      } else if t.status.Creating? {
        t := t.(status := Broken, error := CreateInterrupted);
      } else if t.status.Deleting? {
        t := t.(status := Unhealthy, error := DeletionInterrupted);
      } else if !t.status.Broken? {
        t := t.(status := snap.status,
                error := if t.op.None? || t.op.value.state.Succeeded? then snap.detail else t.error);
      }
      return if erased then None else Some(t.(checked := now));
    }

    /** reconcileRuntime for this site. */
    method Reconcile(check: Check, limitsValid: bool, now: int, disk: Budget) returns (ok: bool)
      requires Valid()
      modifies this
      ensures Valid() && requested == old(requested) && saved == old(saved) && completed == old(completed)
              && dropped == old(dropped)
      // A live operation on the worker leaves the record alone.
      ensures check.Busy? ==> Now() == old(Now())
      ensures && old(site).Some? && site != old(site)
              && site != Some(old(site).value.(health := CheckFailed, checked := now))
              ==> exists snap: Snapshot :: Settled(snap.op) && site == Reconciled(old(site).value, snap, now)
      ensures ok && check.Answered? && old(site).Some? ==>
                && check.probe.limits.Some? && Settled(receipt)
                && exists status, detail ::
                     && S.Shows(check.probe.view, check.probe.limits.value, status)
                     && site == Reconciled(old(site).value,
                                           Snapshot(status, detail, receipt, check.probe.limits.value), now)
      ensures check.Unanswered? && old(site).Some? && site.Some? && site != old(site) ==>
                site.value == old(site).value.(health := CheckFailed, checked := now)
    {
      hide Inv, Run;
      if site.None? || check.Busy? {
        return true;
      }
      var s := site.value;
      if check.Unanswered? {
        var w := Write(disk);
        if w.applied {
          site := Some(s.(health := CheckFailed, checked := now));
          Log(Receipts.Keep);
        }
        return w.ok;
      }
      var answer := Runtime(check.probe);
      if answer.None? {
        var w := Write(disk);
        if w.applied {
          site := Some(s.(health := CheckFailed, checked := now));
          Log(Receipts.Keep);
        }
        return false;
      }
      var snap := answer.value;
      if !LiveStatus(snap.status) {
        return false;
      }
      if snap.limits.Some? && !limitsValid {
        return false;
      }
      var t := Resolve(s, snap, now);
      hide Reconciled;
      var w := Write(disk);
      if w.applied {
        site := t;
        Log(Receipts.Reconcile(snap, now));
      }
      return w.ok;
    }

    // ---- Handlers ----

    /** The panel may record a new marker: none is outstanding, or the handler that wants it has
        just had the last one confirmed and has no backup of it to commit. */
    ghost predicate MayMark()
      reads this
    {
      site.Some? && (PendingOn(site.value) ==>
        var last := site.value.op.value.id; last in saved && last in completed && completed[last].None?)
    }

    /** callTracked. On confirmation the disk still holds the pending marker: the handler
        commits the success. Otherwise the marker stays, for the reconciler to resolve. */
    method CallTracked(s: Site, id: string, kind: Kind, backup: Option<string>, panel: Budget, env: CallEnv)
      returns (t: Site, r: Call, rest: Budget, ghost marked: bool)
      requires Valid() && MayMark() && s.backups == site.value.backups && Unused(Now(), id, backup)
      modifies this
      ensures Valid() && dropped == old(dropped) && site.Some? && site.value.backups == s.backups
              && t.backups == s.backups
      ensures old(completed).Keys <= completed.Keys
      ensures r.Confirmed? ==>
                && marked && site.value.op == Some(Marker(id, kind)) && Outstanding(Now(), id)
                && id in saved && id in completed && r.backup == completed[id]
                && (r.backup.Some? <==> backup.Some?) && t == s.(op := Some(Marker(id, kind).(state := Succeeded)))
      ensures requested == if marked then old(requested)[id := Request(kind, backup)] else old(requested)
      ensures if marked then Outstanding(Now(), id) && site.value.op.value.kind == kind else Now() == old(Now())
      ensures !r.Confirmed? ==> t.op.Some? && t == s.(op := t.op) && t.op.value.(error := NoMessage) == Marker(id, kind)
      ensures r.PanelDied? ==> panel.killed
      // An undisturbed call with a free worker succeeds exactly when the work does.
      ensures && panel.left >= 2 && env.link.Delivered? && Settled(old(receipt)) && env.worker.decodes
              && env.worker.disk.left >= 3 && !env.worker.work.Dies? && (env.worker.work.Errs? ==> env.worker.quiet)
              && (old(receipt).Some? ==> old(receipt).value.id != id)
              ==> (r.Confirmed? <==> env.worker.work.Works?)
    {
      hide Inv, Run;
      t := s.(op := Some(Marker(id, kind)));
      var w := Write(panel);
      marked := w.applied;
      if w.applied {
        site := Some(t);
        requested := requested[id := Request(kind, backup)];
        Log(Mark(id, kind, backup));
      }
      if !w.ok {
        return t, if w.died then PanelDied else Unresolved, w.rest, marked;
      }
      var reply := NoReply;
      if !env.link.RequestLost? {
        reply := Serve(id, Request(kind, backup), env.worker);
      }
      if reply.Accepted? && !env.link.ResponseLost? {
        return s.(op := Some(Marker(id, kind).(state := Succeeded))), Confirmed(reply.backup), w.rest, marked;
      }
      t := t.(op := Some(Marker(id, kind).(error := Unconfirmed)));
      w := Write(w.rest);
      if w.applied {
        site := Some(t);
        Log(Receipts.Keep);
      }
      return t, if w.died then PanelDied else Unresolved, w.rest, marked;
    }

    /** store.Put of a confirmed success with the handler's metadata. */
    method PutSuccess(t: Site, disk: Budget) returns (w: Written)
      requires Valid() && site.Some? && PendingOn(site.value)
      requires var marker := site.value.op.value;
               && marker.id in saved && marker.id in completed && marker.id in requested
               && t.op == Some(marker.(state := Succeeded))
               && t.backups == site.value.backups
                  + (if completed[marker.id].Some? then [Entry(Now(), marker.id)] else [])
      modifies this`site, this`states, this`labels
      ensures Valid() && w == Write(disk) && site == if w.applied then Some(t) else old(site)
    {
      hide Inv, Run;
      w := Write(disk);
      if w.applied {
        site := Some(t);
        Log(Receipts.Commit);
      }
    }

    /** store.Put of other changes; nothing about operations or backups. */
    method PutOther(t: Site, disk: Budget) returns (w: Written)
      requires Valid() && site.Some? && SameProgress(site.value, t)
      modifies this`site, this`states, this`labels
      ensures Valid() && w == Write(disk) && site == if w.applied then Some(t) else old(site)
    {
      hide Inv, Run;
      w := Write(disk);
      if w.applied {
        site := Some(t);
        Log(Receipts.Keep);
      }
    }

    /** store.Put after a failed call. If the first attempt to store the marker had failed, this
        is the write that stores it. */
    method PutMarker(t: Site, id: string, kind: Kind, backup: Option<string>, ghost marked: bool, disk: Budget)
      returns (w: Written)
      requires Valid() && site.Some? && t.backups == site.value.backups
      requires t.op.Some? && t.op.value.(error := NoMessage) == Marker(id, kind)
      requires if marked then Outstanding(Now(), id) && site.value.op.value.kind == kind
               else MayMark() && Unused(Now(), id, backup)
      modifies this
      ensures Valid() && w == Write(disk) && site == if w.applied then Some(t) else old(site)
    {
      hide Inv, Run;
      w := Write(disk);
      if w.applied {
        site := Some(t);
        if marked {
          Log(Receipts.Keep);
        } else {
          requested := requested[id := Request(kind, backup)];
          Log(Mark(id, kind, backup));
        }
      }
    }

    /** The end of siteAction after a confirmed call: the record is deleted, or stored with its new status. */
    method CommitAction(t: Site, action: Kind, disk: Budget) returns (r: Result)
      requires Valid() && site.Some? && PendingOn(site.value) && t.backups == site.value.backups
      requires var marker := site.value.op.value;
               && marker.id in saved && marker.id in completed && marker.id in requested && completed[marker.id].None?
               && t.op == Some(marker.(state := Succeeded))
      modifies this`site, this`states, this`labels
      ensures Valid()
      ensures r.Finished? && action.Delete? ==> site.None?
      ensures r.Finished? && !action.Delete? ==>
                var status := if action.Stop? then Stopped else Running;
                site == Some(t.(status := status, error := NoMessage, health := NoMessage))
    {
      hide Inv, Run;
      var w;
      if action.Delete? {
        w := Write(disk);
        if w.applied {
          site := None;
          Log(Erase);
        }
      } else {
        var u := t.(status := if action.Stop? then Stopped else Running, error := NoMessage, health := NoMessage);
        w := PutSuccess(u, disk);
      }
      return if w.ok then Finished else if w.died then Crashed else NotDone;
    }

    /** siteAction for start, stop, delete, and the retry of a creation. */
    method Act(action: Kind, confirmed: bool, id: string, disk: Budget, env: CallEnv, again: Budget) returns (r: Result)
      requires Valid() && Unused(Now(), id, None)
      requires action.Start? || action.Stop? || action.Delete? || action.Create?
      modifies this
      ensures Valid()
      ensures old(site).None? ==> r.NotFound? && Now() == old(Now())
      ensures old(site).Some? && PendingOn(old(site).value) ==> r.Gated? && Now() == old(Now())
      ensures r.Finished? && action.Delete? ==> site.None?
      ensures r.Finished? && !action.Delete? ==>
                && site.Some? && !PendingOn(site.value) && site.value.backups == old(site).value.backups
                && site.value.status == (if action.Stop? then Stopped else Running)
                && id in completed && site.value.op == Some(Marker(id, action).(state := Succeeded))
    {
      hide Inv, Run;
      if site.None? {
        return NotFound;
      }
      var s := site.value;
      if PendingOn(s) {
        return Gated;
      }
      if (action.Delete? && !confirmed) || (action.Create? && !s.status.Broken?) {
        return NotDone;
      }
      var b := disk;
      if action.Create? || action.Delete? {
        s := if action.Create? then s.(status := Creating, error := NoMessage) else s.(status := Deleting);
        var w := PutOther(s, b);
        if !w.ok {
          return if w.died then Crashed else NotDone;
        }
        b := w.rest;
      }
      var t, call, rest, marked := CallTracked(s, id, action, None, b, env);
      if call.PanelDied? {
        return Crashed;
      }
      if call.Unresolved? {
        t := t.(status := if action.Create? then Broken else Unhealthy, error := CallError);
        var w := PutMarker(t, id, action, None, marked, again);
        return if w.died then Crashed else NotDone;
      }
      r := CommitAction(t, action, rest);
    }

    /** A tracked backup of the stored site and the commit of its list entry. */
    method TakeBackup(s: Site, kind: Kind, id: string, backup: string, disk: Budget, env: CallEnv)
      returns (t: Site, r: Call, committed: bool, rest: Budget, ghost marked: bool)
      requires Valid() && MayMark() && s.backups == site.value.backups && Unused(Now(), id, Some(backup))
      requires kind.ManualBackup? || kind.ScheduledBackup? || kind.SafetyBackup?
      modifies this
      ensures Valid() && dropped == old(dropped) && site.Some? && old(completed).Keys <= completed.Keys
      ensures requested == if marked then old(requested)[id := Request(kind, Some(backup))] else old(requested)
      ensures if marked then site.value.op.Some? && site.value.op.value.id == id else Now() == old(Now())
      ensures committed ==> r.Confirmed? && site == Some(t) && !PendingOn(t)
      ensures r.Confirmed? ==>
                && t.op == Some(Marker(id, kind).(state := Succeeded)) && |t.backups| == |s.backups| + 1
                && t == s.(op := t.op, backups := s.backups + [t.backups[|s.backups|]])
                && t.backups[|s.backups|].id == backup && t.backups[|s.backups|].source == SourceOf(kind)
      ensures !r.Confirmed? ==>
                && t.op.Some? && t == s.(op := t.op) && t.op.value.(error := NoMessage) == Marker(id, kind)
                && t.backups == site.value.backups
                && (marked ==> Outstanding(Now(), id) && site.value.op.value.kind == kind)
      ensures (r.PanelDied? ==> disk.killed)
      ensures !committed && r.Confirmed? ==> site.value.backups == t.backups || Outstanding(Now(), id)
    {
      hide Inv, Run;
      var call;
      t, call, rest, marked := CallTracked(s, id, kind, Some(backup), disk, env);
      r, committed := call, false;
      if !call.Confirmed? {
        return;
      }
      // The worker's reply, with the source the panel knows.
      var entry := call.backup.value.(source := SourceOf(kind));
      assert entry == Entry(Now(), id) && entry.id == backup by {
        BackupIsRequested(Now(), id);
      }
      t := t.(backups := t.backups + [entry]);
      var w := PutSuccess(t, rest);
      committed, rest := w.ok, w.rest;
    }

    /** backupSite and runScheduledBackup: a manual or a scheduled backup. */
    method BackupSite(scheduled: bool, id: string, backup: string, disk: Budget, env: CallEnv, again: Budget)
      returns (r: Result)
      requires Valid() && Unused(Now(), id, Some(backup))
      modifies this
      ensures Valid()
      ensures old(site).Some? && PendingOn(old(site).value) ==> r.Gated? && Now() == old(Now())
      ensures r.Finished? ==>
                && old(site).Some? && site.Some? && !PendingOn(site.value)
                && |site.value.backups| == |old(site).value.backups| + 1
                && old(site).value.backups <= site.value.backups
                && site.value.backups[|old(site).value.backups|].id == backup
                && site.value.backups[|old(site).value.backups|].source == (if scheduled then Scheduled else Manual)
    {
      hide Inv, Run;
      if site.None? {
        return NotFound;
      }
      var s := site.value;
      if PendingOn(s) {
        return Gated;
      }
      if scheduled && s.health != NoMessage {
        return NotDone;
      }
      if !s.status.Running? {
        if scheduled {
          var w := PutOther(s, disk);
        }
        return NotDone;
      }
      var kind := if scheduled then ScheduledBackup else ManualBackup;
      var t, call, committed, rest, marked := TakeBackup(s, kind, id, backup, disk, env);
      if call.PanelDied? {
        return Crashed;
      }
      if call.Unresolved? {
        if scheduled {
          var w := PutMarker(t, id, kind, Some(backup), marked, again);
        }
        return NotDone;
      }
      return if committed then Finished else NotDone;
    }

    /** The last tracked call of an update or a restore, and its commit. */
    method CallAndCommit(s: Site, id: string, kind: Kind, disk: Budget, env: CallEnv) returns (r: Result)
      requires Valid() && MayMark() && s.backups == site.value.backups && Unused(Now(), id, None)
      requires kind.Update? || kind.Restore?
      modifies this
      ensures Valid() && site.Some? && site.value.backups == s.backups && old(completed).Keys <= completed.Keys
      ensures r.Finished? ==>
                id in completed && !PendingOn(site.value) && (kind.Restore? ==> site.value.status.Running?)
    {
      hide Inv, Run;
      var t, call, rest, marked := CallTracked(s, id, kind, None, disk, env);
      if !call.Confirmed? {
        return if call.PanelDied? then Crashed else NotDone;
      }
      if kind.Restore? {
        t := t.(status := Running, error := NoMessage);
      }
      var w := PutSuccess(t, rest);
      return if w.ok then Finished else if w.died then Crashed else NotDone;
    }

    /** updateSite: a safety backup first, committed before the update is even requested. */
    method UpdateSite(id: string, backup: string, id2: string, disk: Budget, env: CallEnv, env2: CallEnv)
      returns (r: Result)
      requires Valid() && Unused(Now(), id, Some(backup)) && Unused(Now(), id2, None) && id != id2
      modifies this
      ensures Valid()
      ensures old(site).Some? && PendingOn(old(site).value) ==> r.Gated? && Now() == old(Now())
      ensures r.Finished? ==> id2 in completed && SafetyKept(old(site), site, backup) && !PendingOn(site.value)
      ensures id2 in requested ==> SafetyKept(old(site), site, backup)
    {
      hide Inv, Run;
      if site.None? {
        return NotFound;
      }
      var s := site.value;
      if PendingOn(s) {
        return Gated;
      }
      if !s.status.Running? {
        return NotDone;
      }
      var t, call, committed, rest, marked := TakeBackup(s, SafetyBackup, id, backup, disk, env);
      if !committed {
        return if call.PanelDied? then Crashed else NotDone;
      }
      assert SafetyKept(Some(s), site, backup);
      r := CallAndCommit(t, id2, Update, rest, env2);
    }

    /** restoreSite: stops the writers, takes a safety backup, and only then restores. */
    method RestoreSite(chosen: string, confirmed: bool, id: string, id2: string, backup: string, id3: string,
                       disk: Budget, env: CallEnv, env2: CallEnv, env3: CallEnv)
      returns (r: Result)
      requires Valid() && Unused(Now(), id, None) && Unused(Now(), id2, Some(backup)) && Unused(Now(), id3, None)
      requires id != id2 && id != id3 && id2 != id3
      modifies this
      ensures Valid()
      ensures old(site).Some? && PendingOn(old(site).value) ==> r.Gated? && Now() == old(Now())
      ensures r.Finished? ==> old(site).Some? && chosen in IdsOf(old(site).value.backups)
      ensures r.Finished? ==>
                && id3 in completed && SafetyKept(old(site), site, backup)
                && !PendingOn(site.value) && site.value.status.Running?
      // The restore is requested only after the site was prepared and the safety backup listed.
      ensures id3 in requested ==> id in completed && SafetyKept(old(site), site, backup)
    {
      hide Inv, Run, Valid;
      if site.None? {
        return NotFound;
      }
      var s := site.value;
      if PendingOn(s) {
        return Gated;
      }
      if !LiveStatus(s.status) || !confirmed {
        return NotDone;
      }
      var found := HasBackup(s.backups, chosen);
      if !found {
        return NotDone;
      }
      var t, call, rest, marked := CallTracked(s, id, PrepareRestore, None, disk, env);
      if !call.Confirmed? {
        return if call.PanelDied? then Crashed else NotDone;
      }
      t := t.(status := Stopped);
      var u, call2, committed, rest2, marked2 := TakeBackup(t, SafetyBackup, id2, backup, rest, env2);
      if !committed {
        return if call2.PanelDied? then Crashed else NotDone;
      }
      assert SafetyKept(Some(s), site, backup) && site == Some(u) && !PendingOn(u);
      r := CallAndCommit(u, id3, Restore, rest2, env3);
    }

    /** pruneScheduledBackups: each deletion is first done by the worker, then stored. `good` is
        how many deletions the worker carries out before one fails. */
    method Prune(good: nat, disk: Budget) returns (ok: bool, ghost n: nat)
      requires Valid() && site.Some? && !PendingOn(site.value) && site.value.retention >= 0
      modifies this
      ensures Valid() && site.Some? && site.value.op == old(site).value.op
      ensures PrunedBy(old(site).value.backups, site.value.backups, n)
      ensures var count := ScheduledCount(old(site).value.backups);
              && (n > 0 ==> n <= count - site.value.retention)
              && (ok ==> ScheduledCount(site.value.backups) <= site.value.retention)
              && (good >= count && disk.left > count ==> ok)
    {
      hide Inv, Run, PrunedBy, ScheduledCount, Others, IsOldest;
      ghost var before := site.value.backups;
      ghost var count0 := ScheduledCount(before);
      PrunedByNothing(before);
      n, ok := 0, true;
      var s, b, left := site.value, disk, good;
      var count := CountScheduled(s.backups);
      while count > s.retention
        invariant Valid() && site == Some(s) && !PendingOn(s) && s.op == old(site).value.op
                  && s.retention == old(site).value.retention
        invariant PrunedBy(before, s.backups, n) && count == ScheduledCount(s.backups)
        invariant count + n == count0 && (n > 0 ==> count >= s.retention)
        invariant left + n == good && (b.left + n == disk.left || b.left == 0)
        invariant disk.left > count0 ==> b.left + n == disk.left
        decreases count
      {
        CountPositive(s.backups);
        var index := OldestScheduled(s.backups);
        if left == 0 {
          // The policy error text is the only change that is stored.
          var w := PutOther(s, b);
          return false, n;
        }
        left := left - 1;
        OldestIsScheduled(s.backups, index);
        RemovalCounts(s.backups, index);
        PrunedOneMore(before, s.backups, n, index);
        var t := s.(backups := s.backups[..index] + s.backups[index + 1..]);
        var w := Write(b);
        if w.applied {
          dropped := dropped + {s.backups[index].id};
          site := Some(t);
          Log(Drop(index));
          s, n := t, n + 1;
        }
        b := w.rest;
        if !w.ok {
          return false, n;
        }
        count := CountScheduled(s.backups);
      }
    }
  }

  lemma OldestIsScheduled(list: seq<Backup>, i: int)
    requires IsOldest(list, i)
    ensures 0 <= i < |list| && list[i].source.Scheduled?
  {
  }

  lemma PrunedByNothing(list: seq<Backup>)
    ensures PrunedBy(list, list, 0)
  {
  }

  /** The list gained one safety backup of that ID and lost nothing. */
  predicate SafetyKept(before: Option<Site>, after: Option<Site>, backup: string) {
    && before.Some? && after.Some? && before.value.backups < after.value.backups
    && |after.value.backups| == |before.value.backups| + 1
    && after.value.backups[|before.value.backups|].id == backup
    && after.value.backups[|before.value.backups|].source.Safety?
  }

  lemma BackupIsRequested(s: Sys, id: string)
    requires Inv(s) && id in s.completed && s.completed[id].Some?
    ensures id in s.requested && s.requested[id].backup == Some(s.completed[id].value.id)
  {
  }
}
