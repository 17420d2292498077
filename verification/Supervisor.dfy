/**
 The quota supervisor of one site (cmd/worker/quota_restart.go and the worker operations that
 launch writers): saved intent, launch guard, receipt and containers, with Docker and the
 storage probe answering as they please.
 */
module Supervisor {
  import opened Common
  import T = Transitions
  import Receipts

  datatype GuardFile = NoGuard | UnfitGuard | ReadyGuard
  datatype IntentFile = NoIntent | BadIntent | Saved(intent: T.Intent)
  datatype ReceiptFile = UnreadableReceipt | Receipt(op: Option<Receipts.Operation>)

  datatype Service = WordPress | Database | Tool
  datatype Condition = Up | Restarting | Paused | Exited | Created | Dead | OtherCondition

  /** A container that provably belongs to the site. */
  datatype Container = Container(service: Service, condition: Condition, restartNo: bool, policy: bool)

  datatype Writer = AllServices | DatabaseOnly | Manager | Installer | Updater | RestoreJob | WordPressOnly | Recreated

  /** What happened, in order. A crash leaves any prefix behind. */
  datatype Event =
    | Begin
    | Cleared
    | Fenced(intent: T.Intent, clean: bool)
    | Launch(writer: Writer, saved: IntentFile)

  /** A durable write: done, failed without effect, or done but reported as failed. */
  datatype Save = Stores | Loses | StoresLate

  /** `updateFails` and `stopFails` are the containers whose Docker command fails. */
  datatype FenceEnv = FenceEnv(saves: Save, jobs: bool, lists: bool, updateFails: set<nat>, stopFails: set<nat>)
  datatype PreEnv = PreEnv(compose: bool, storage: bool, lists: bool, fence: FenceEnv)
  datatype LaunchEnv = LaunchEnv(ok: bool, after: seq<Container>)

  /** The outcome of a write operation; a rejection is an admission error, certified as free of
      effects after a verified preflight if `safe`. */
  datatype Outcome = Fine | Failed | Rejected(safe: bool)

  datatype WriteEnv = WriteEnv(
    pre: PreEnv, policy: bool, saves: Save, stopped: LaunchEnv, first: LaunchEnv, second: LaunchEnv, third: LaunchEnv,
    finish: PreEnv)

  datatype StartEnv = StartEnv(
    before: FenceEnv, pre: PreEnv, fits: bool, up: LaunchEnv, post: PreEnv, lists: bool, saves: Save, after: FenceEnv)

  datatype RoundEnv = RoundEnv(compose: bool, storage: bool, lists: bool, fence: FenceEnv, start: StartEnv)

  datatype Capacity = Fits | TooLarge | Unknown
  datatype ResourceEnv = ResourceEnv(valid: bool, healthy: bool, capacity: Capacity, toolStopped: bool, running: bool)

  predicate Live(c: Condition) { c.Up? || c.Restarting? || c.Paused? }

  predicate Safe(c: Container) { c.restartNo && c.policy }

  ghost predicate AllSafe(cs: seq<Container>) {
    forall c | c in cs :: Safe(c)
  }

  ghost predicate AllAtRest(cs: seq<Container>) {
    forall c | c in cs :: c.restartNo && !Live(c.condition)
  }

  ghost predicate WordPressLive(cs: seq<Container>) {
    exists c :: c in cs && c.service.WordPress? && Live(c.condition)
  }

  // ---- What the log says about the operation that is running ----

  /** A preflight succeeded since the operation began, and no fence came after it. */
  predicate Armed(log: seq<Event>) {
    log != [] &&
    match log[|log| - 1]
    case Begin => false
    case Cleared => true
    case Fenced(_, _) => false
    case _ => Armed(log[..|log| - 1])
  }

  /** A fence with intent blocked was attempted since the operation began. */
  predicate BlockTried(log: seq<Event>) {
    log != [] &&
    match log[|log| - 1]
    case Begin => false
    case Fenced(intent, _) => intent.Blocked? || BlockTried(log[..|log| - 1])
    case _ => BlockTried(log[..|log| - 1])
  }

  /** Every fence since the operation began got all its commands through. */
  predicate FencesClean(log: seq<Event>) {
    log == [] ||
    match log[|log| - 1]
    case Begin => true
    case Fenced(_, clean) => clean && FencesClean(log[..|log| - 1])
    case _ => FencesClean(log[..|log| - 1])
  }

  /** Nothing was launched since the operation began. */
  predicate NoLaunch(log: seq<Event>) {
    log == [] ||
    match log[|log| - 1]
    case Begin => true
    case Launch(_, _) => false
    case _ => NoLaunch(log[..|log| - 1])
  }

  /** The main safety property of the log: every launch of a writer, by whatever operation,
      follows a successful preflight of that same operation with no fence in between. */
  ghost predicate Covered(log: seq<Event>) {
    forall i | 0 <= i < |log| && log[i].Launch? :: Armed(log[..i])
  }

  lemma CoveredAppend(log: seq<Event>, e: Event)
    requires Covered(log) && (e.Launch? ==> Armed(log))
    ensures Covered(log + [e])
  {
    var longer := log + [e];
    forall i | 0 <= i < |longer| && longer[i].Launch?
      ensures Armed(longer[..i])
    {
      assert longer[..i] == log[..i];
      assert log[..|log|] == log;
    }
  }

  /** How one more event changes what the log says. */
  lemma AppendMeaning(log: seq<Event>, e: Event)
    ensures Armed(log + [e]) <==> e.Cleared? || (!e.Begin? && !e.Fenced? && Armed(log))
    ensures BlockTried(log + [e]) <==> !e.Begin? && ((e.Fenced? && e.intent.Blocked?) || BlockTried(log))
    ensures FencesClean(log + [e]) <==> e.Begin? || ((e.Fenced? ==> e.clean) && FencesClean(log))
    ensures NoLaunch(log + [e]) <==> e.Begin? || (!e.Launch? && NoLaunch(log))
  {
    assert (log + [e])[..|log|] == log;
  }

  /** In words: some preflight succeeded, and since then neither did an operation begin nor was
      the site fenced. */
  lemma {:induction false} ArmedMeaning(log: seq<Event>)
    ensures Armed(log) <==>
              exists j :: 0 <= j < |log| && log[j].Cleared? && forall k | j < k < |log| ::
                  !log[k].Begin? && !log[k].Fenced?
  {
    if log != [] {
      var front, last := log[..|log| - 1], log[|log| - 1];
      ArmedMeaning(front);
      if Armed(front) && !last.Begin? && !last.Fenced? {
        var j :| 0 <= j < |front| && front[j].Cleared? && forall k | j < k < |front| ::
            !front[k].Begin? && !front[k].Fenced?;
        assert log[j].Cleared?;
      }
      if exists j :: 0 <= j < |log| && log[j].Cleared? && forall k | j < k < |log| ::
           !log[k].Begin? && !log[k].Fenced? {
        var j :| 0 <= j < |log| && log[j].Cleared? && forall k | j < k < |log| :: !log[k].Begin? && !log[k].Fenced?;
        if j < |front| {
          assert front[j].Cleared?;
        }
      }
    }
  }

  /** So in a covered log every launch, in every operation, has its preflight. */
  lemma EveryLaunchIsCleared(log: seq<Event>, i: nat)
    requires Covered(log) && i < |log| && log[i].Launch?
    ensures exists j :: 0 <= j < i && log[j].Cleared? && forall k | j < k < i :: !log[k].Begin? && !log[k].Fenced?
  {
    ArmedMeaning(log[..i]);
    var j :| 0 <= j < i && log[..i][j].Cleared? && forall k | j < k < i :: !log[..i][k].Begin? && !log[..i][k].Fenced?;
    assert log[j].Cleared?;
    forall k | j < k < i
      ensures !log[k].Begin? && !log[k].Fenced?
    {
      assert log[k] == log[..i][k];
    }
  }

  function FencedContainer(c: Container, update: bool, stop: bool): Container {
    c.(restartNo := c.restartNo || update, condition := if Live(c.condition) && stop then Exited else c.condition)
  }

  class QuotaSite {
    var guard: GuardFile
    var plan: bool
    var readable: bool
    var intent: IntentFile
    var receipt: ReceiptFile
    var containers: seq<Container>
    var log: seq<Event>

    constructor (guard: GuardFile, plan: bool, readable: bool, intent: IntentFile, receipt: ReceiptFile,
                 containers: seq<Container>)
      ensures Covered(log) && log == []
      ensures this.guard == guard && this.plan == plan && this.readable == readable && this.intent == intent
      ensures this.receipt == receipt && this.containers == containers
    {
      this.guard, this.plan, this.readable := guard, plan, readable;
      this.intent, this.receipt, this.containers := intent, receipt, containers;
      log := [];
    }

    /** quotaMarked: the guard or the plan exists, or that cannot be told. */
    predicate Marked()
      reads this
    {
      guard != NoGuard || plan || !readable
    }

    method Note(e: Event)
      requires Covered(log) && (e.Launch? ==> Armed(log))
      modifies this`log
      ensures log == old(log) + [e] && Covered(log)
      ensures Armed(log) <==> e.Cleared? || (!e.Begin? && !e.Fenced? && Armed(old(log)))
      ensures BlockTried(log) <==> !e.Begin? && ((e.Fenced? && e.intent.Blocked?) || BlockTried(old(log)))
      ensures FencesClean(log) <==> e.Begin? || ((e.Fenced? ==> e.clean) && FencesClean(old(log)))
      ensures NoLaunch(log) <==> e.Begin? || (!e.Launch? && NoLaunch(old(log)))
    {
      CoveredAppend(log, e);
      AppendMeaning(log, e);
      log := log + [e];
    }

    /** saveQuotaIntent: skips the write if the same valid intent is stored. */
    method SaveIntent(state: T.Intent, works: Save) returns (ok: bool)
      modifies this`intent
      ensures ok ==> intent == Saved(state)
      ensures intent == old(intent) || intent == Saved(state)
      ensures works.Stores? ==> ok
    {
      if intent == Saved(state) {
        return true;
      }
      if !works.Loses? {
        intent := Saved(state);
      }
      return works.Stores?;
    }

    /** fenceQuotaSite: saves the intent first, then takes restart off and stops every writer. */
    method Fence(state: T.Intent, env: FenceEnv) returns (clean: bool)
      requires Covered(log)
      modifies this`intent, this`containers, this`log
      ensures Covered(log) && log == old(log) + [Fenced(state, clean)]
      ensures !Armed(log) && (BlockTried(log) <==> state.Blocked? || BlockTried(old(log)))
      ensures (FencesClean(log) <==> clean && FencesClean(old(log))) && (NoLaunch(log) <==> NoLaunch(old(log)))
      ensures intent == old(intent) || intent == Saved(state)
      ensures clean ==> intent == Saved(state) && AllAtRest(containers)
      ensures forall n | 0 <= n < |containers| && Live(containers[n].condition) ::
                n < |old(containers)| && Live(old(containers)[n].condition)
      ensures |containers| == |old(containers)|
      ensures forall n | 0 <= n < |containers| :: containers[n].policy == old(containers)[n].policy
      ensures Working(env) ==> clean
    {
      var saved := SaveIntent(state, env.saves);
      clean := saved && env.jobs && env.lists;
      if env.lists {
        var n := 0;
        while n < |containers|
          invariant 0 <= n <= |containers| == |old(containers)| && log == old(log)
          invariant (intent == old(intent) || intent == Saved(state)) && (saved ==> intent == Saved(state))
          invariant forall k | 0 <= k < n ::
                      containers[k] == FencedContainer(old(containers)[k], k !in env.updateFails, k !in env.stopFails)
          invariant forall k | n <= k < |containers| :: containers[k] == old(containers)[k]
          invariant clean ==> saved && env.jobs && forall k | 0 <= k < n ::
                      containers[k].restartNo && !Live(containers[k].condition)
          invariant env.saves.Stores? && env.jobs && env.updateFails == {} && env.stopFails == {} ==> clean
        {
          var c := containers[n];
          if n in env.updateFails {
            clean := false;
          }
          if Live(c.condition) && n in env.stopFails {
            clean := false;
          }
          containers := containers[n := FencedContainer(c, n !in env.updateFails, n !in env.stopFails)];
          n := n + 1;
        }
      }
      Note(Fenced(state, clean));
    }

    /** quotaPreflight. It passes a marked site exactly if the guard is ready, the Compose file
        and the storage check out and every container is safe; any failure fences. */
    method Preflight(env: PreEnv) returns (ok: bool)
      requires Covered(log)
      modifies this`intent, this`containers, this`log
      ensures Covered(log) && (NoLaunch(log) <==> NoLaunch(old(log)))
      ensures old(log) <= log && |log| == |old(log)| + 1 && !log[|old(log)|].Launch?
      ensures ok ==>
                Armed(log) && intent == old(intent) && containers == old(containers) && (Marked() ==> Certified(env))
      ensures ok ==> (FencesClean(log) <==> FencesClean(old(log))) && (BlockTried(log) <==> BlockTried(old(log)))
      ensures !ok ==> Marked() && BlockTried(log) && !Armed(log) && (FencesClean(log) ==> FencesClean(old(log)))
      ensures !ok && FencesClean(log) ==> intent == Saved(T.Blocked) && AllAtRest(containers)
      ensures !ok ==> intent == old(intent) || intent == Saved(T.Blocked)
      ensures ok <==> !Marked() || (readable && guard.ReadyGuard? && env.compose && env.storage && env.lists
                                    && AllSafe(old(containers)))
    {
      if !Marked() {
        Note(Cleared);
        return true;
      }
      ok := readable && guard.ReadyGuard? && env.compose && env.storage && env.lists;
      if ok {
        var n := 0;
        while n < |containers| && ok
          invariant 0 <= n <= |containers| && (ok ==> forall k | 0 <= k < n :: Safe(containers[k]))
          invariant !ok ==> exists k :: 0 <= k < |containers| && !Safe(containers[k])
        {
          if !Safe(containers[n]) {
            ok := false;
          }
          n := n + 1;
        }
        assert ok <==> AllSafe(containers);
      }
      if ok {
        Note(Cleared);
      } else {
        var clean := Fence(T.Blocked, env.fence);
      }
    }

    /** What a preflight establishes about a marked site. */
    ghost predicate Certified(env: PreEnv)
      reads this
    {
      readable && guard.ReadyGuard? && env.compose && env.storage && AllSafe(containers)
    }

    /** setQuotaIntent: only marked sites keep an intent. */
    method SetIntent(state: T.Intent, works: Save) returns (ok: bool)
      modifies this`intent
      ensures intent == old(intent) || (intent == Saved(state) && Marked())
      ensures ok && Marked() ==> intent == Saved(state)
    {
      if !readable {
        return false;
      }
      if !Marked() {
        return true;
      }
      ok := SaveIntent(state, works);
    }

    /** A Docker command that starts a writer; whatever it reports, `after` is what runs then. */
    method StartWriter(writer: Writer, env: LaunchEnv) returns (ok: bool)
      requires Covered(log) && Armed(log)
      modifies this`containers, this`log
      ensures Covered(log) && Armed(log) && ok == env.ok && containers == env.after
      ensures log == old(log) + [Launch(writer, intent)]
      ensures (BlockTried(log) <==> BlockTried(old(log))) && (FencesClean(log) <==> FencesClean(old(log)))
              && !NoLaunch(log)
    {
      Note(Launch(writer, intent));
      containers, ok := env.after, env.ok;
    }

    /** finishQuotaWrite: deferred by every operation that may have launched a writer. */
    method FinishWrite(result: Outcome, env: PreEnv) returns (r: Outcome)
      requires Covered(log) && (result == Rejected(true) ==> Armed(log))
      modifies this`intent, this`containers, this`log
      ensures Covered(log) && (NoLaunch(log) <==> NoLaunch(old(log)))
      ensures !Marked() ==> r == result && intent == old(intent) && containers == old(containers) && log == old(log)
      ensures r.Fine? ==>
                && result.Fine?
                && (Marked() ==> readable && guard.ReadyGuard? && AllSafe(containers) && intent == old(intent))
      ensures r == Rejected(true) ==> result == r && intent == old(intent) && containers == old(containers)
      ensures r == Rejected(true) && Marked() ==> readable && guard.ReadyGuard? && AllSafe(containers)
      ensures r == Rejected(false) ==> result == r
      // Anything else of a marked site goes through a fence attempt with intent blocked.
      ensures Marked() && !r.Fine? && r != Rejected(true) ==> BlockTried(log)
      ensures Marked() && !r.Fine? && r != Rejected(true) && FencesClean(log) ==>
                intent == Saved(T.Blocked) && AllAtRest(containers)
      ensures intent == old(intent) || intent == Saved(T.Blocked)
    {
      if !Marked() {
        return result;
      }
      if readable && result == Rejected(true) {
        var ok := Preflight(env);
        return if ok then result else Failed;
      }
      if !result.Fine? || !readable {
        var clean := Fence(T.Blocked, env.fence);
        return if result == Rejected(false) then result else Failed;
      }
      var ok := Preflight(env);
      return if ok then Fine else Failed;
    }

    /** prepareRestore without its deferred finish. */
    method PrepareRestoreBody(env: WriteEnv) returns (r: Outcome)
      requires Covered(log)
      modifies this`intent, this`containers, this`log
      ensures Covered(log) && !r.Rejected?
      ensures r.Fine? && Marked() ==> intent == Saved(T.Maintenance)
      ensures intent == Saved(T.Running) ==> old(intent) == intent
    {
      var ok := Preflight(env.pre);
      if !ok || !env.policy {
        return Failed;
      }
      ok := SetIntent(T.Maintenance, env.saves);
      if !ok || !env.stopped.ok {
        return Failed;
      }
      containers := env.stopped.after;
      ok := StartWriter(DatabaseOnly, env.first);
      return if ok then Fine else Failed;
    }

    method PrepareRestore(env: WriteEnv) returns (r: Outcome)
      requires Covered(log)
      modifies this`intent, this`containers, this`log
      ensures Covered(log) && Finished(r)
      ensures r.Fine? && Marked() ==> intent == Saved(T.Maintenance)
      ensures intent == Saved(T.Running) ==> old(intent) == intent
    {
      Note(Begin);
      r := PrepareRestoreBody(env);
      r := FinishWrite(r, env.finish);
    }

    /** What every finished write operation leaves behind on a marked site. */
    ghost predicate Finished(r: Outcome)
      reads this
    {
      Marked() ==>
        if r.Fine? || r == Rejected(true) then readable && guard.ReadyGuard? && AllSafe(containers)
        else BlockTried(log) && (FencesClean(log) ==> intent == Saved(T.Blocked) && AllAtRest(containers))
    }

    /** databaseAction start; `valid` covers the checks in front of the preflight, `ready` is
        whether the manager answers in time. */
    method StartDatabaseTool(valid: bool, ready: bool, env: WriteEnv) returns (r: Outcome)
      requires Covered(log)
      modifies this`intent, this`containers, this`log
      ensures Covered(log) && Finished(r)
      ensures intent == old(intent) || intent == Saved(T.Blocked)
    {
      Note(Begin);
      r := Failed;
      if valid {
        var ok := Preflight(env.pre);
        if ok && env.policy {
          ok := StartWriter(Manager, env.first);
          r := if ok && ready then Fine else Failed;
        }
      }
      r := FinishWrite(r, env.finish);
    }

    /** updateSite. */
    method Update(valid: bool, env: WriteEnv) returns (r: Outcome)
      requires Covered(log)
      modifies this`intent, this`containers, this`log
      ensures Covered(log) && Finished(r)
      ensures intent == old(intent) || intent == Saved(T.Blocked)
    {
      Note(Begin);
      r := Failed;
      var ok := Preflight(env.pre);
      if ok && valid && env.policy {
        ok := StartWriter(Updater, env.first);
        r := if ok then Fine else Failed;
      }
      r := FinishWrite(r, env.finish);
    }

    /** restore without its deferred finish; `valid` covers the backup checks. */
    method RestoreBody(valid: bool, env: WriteEnv, loaded: bool) returns (r: Outcome)
      requires Covered(log)
      modifies this`intent, this`containers, this`log
      ensures Covered(log) && !r.Rejected?
      ensures r.Fine? && Marked() ==> intent == Saved(T.Running)
      ensures intent == old(intent) || intent == Saved(T.Blocked) || intent == Saved(T.Running)
    {
      hide Covered, Armed, BlockTried, FencesClean, NoLaunch;
      var ok := Preflight(env.pre);
      if !ok || !valid || !env.policy || !env.stopped.ok {
        return Failed;
      }
      containers := env.stopped.after;
      ok := StartWriter(DatabaseOnly, env.first);
      if !ok {
        return Failed;
      }
      ok := StartWriter(RestoreJob, env.second);
      if !ok || !loaded {
        return Failed;
      }
      ok := StartWriter(WordPressOnly, env.third);
      if !ok {
        return Failed;
      }
      ok := SetIntent(T.Running, env.saves);
      return if ok then Fine else Failed;
    }

    method Restore(valid: bool, env: WriteEnv, loaded: bool) returns (r: Outcome)
      requires Covered(log)
      modifies this`intent, this`containers, this`log
      ensures Covered(log) && Finished(r)
      ensures r.Fine? && Marked() ==> intent == Saved(T.Running)
      ensures Marked() && !r.Fine? && intent == Saved(T.Running) ==> !FencesClean(log)
    {
      Note(Begin);
      r := RestoreBody(valid, env, loaded);
      r := FinishWrite(r, env.finish);
    }

    /** changeResources up to its two deferred functions; `changed` is set before the new
        configuration is stored. */
    method ChangeResourcesBody(env: WriteEnv, request: ResourceEnv)
      returns (ok: bool, verified: bool, rejected: bool, changed: bool)
      requires Covered(log) && NoLaunch(log)
      modifies this`intent, this`containers, this`log
      ensures Covered(log) && (verified && !changed ==> Armed(log))
      ensures ok ==> verified && changed
      ensures rejected ==> !ok && !changed && NoLaunch(log) && intent == old(intent) && containers == old(containers)
      ensures rejected ==> !request.valid || (request.healthy && request.capacity.TooLarge?)
      ensures intent == old(intent) || intent == Saved(T.Blocked)
    {
      verified, rejected, changed := false, false, false;
      ok := Preflight(env.pre);
      if !ok {
        return;
      }
      verified, ok := true, false;
      if !request.valid {
        rejected := true;
        return;
      }
      if !request.healthy {
        return;
      }
      if request.capacity != Fits {
        rejected := request.capacity == TooLarge;
        return;
      }
      if !env.policy || !request.toolStopped {
        return;
      }
      changed := true;
      if !env.saves.Stores? || !env.stopped.ok {
        return;
      }
      containers := env.stopped.after;
      if request.running {
        ok := StartWriter(Recreated, env.first);
      } else {
        containers, ok := env.first.after, env.first.ok;
      }
    }

    /** changeResources: the admission wrapper runs first, then the finish. */
    method ChangeResources(env: WriteEnv, request: ResourceEnv) returns (r: Outcome)
      requires Covered(log)
      modifies this`intent, this`containers, this`log
      ensures Covered(log) && Finished(r)
      // A certified rejection had no effect at all.
      ensures r == Rejected(true) ==>
                && Marked() && NoLaunch(log) && intent == old(intent) && containers == old(containers)
                && (!request.valid || (request.healthy && request.capacity.TooLarge?))
      ensures r == Rejected(false) ==> !Marked()
      ensures intent == old(intent) || intent == Saved(T.Blocked)
    {
      Note(Begin);
      var marked, clear := Marked(), !Marked();
      var ok, verified, rejected, changed := ChangeResourcesBody(env, request);
      r := if ok then Fine else Failed;
      if !ok && !changed && (clear || (verified && rejected)) {
        r := Rejected(marked && verified && rejected);
      }
      r := FinishWrite(r, env.finish);
    }

    /** startQuotaSite, within the operation that called it: fenced and blocked first, so that a
        crash anywhere before the last write leaves a blocked site. */
    method Start(env: StartEnv) returns (ok: bool)
      requires Covered(log) && Marked()
      modifies this`intent, this`containers, this`log
      ensures Covered(log) && old(log) <= log
      ensures forall k | |old(log)| <= k < |log| && log[k].Launch? :: log[k].saved == Saved(T.Blocked)
      ensures BlockTried(log) && (FencesClean(log) ==> FencesClean(old(log)))
      ensures ok ==>
                intent == Saved(T.Running) && readable && guard.ReadyGuard? && AllSafe(containers) && env.post.storage
      ensures ok ==> env.fits && containers == env.up.after && BothUp(containers)
      ensures !ok && FencesClean(log) ==> AllAtRest(containers) && intent == Saved(T.Blocked)
      ensures readable && guard.ReadyGuard? && (forall c | c in old(containers) :: c.policy) && StartWorks(env) ==> ok
    {
      hide Covered, Armed, BlockTried, FencesClean, NoLaunch;
      ok := Fence(T.Blocked, env.before);
      if !ok {
        return;
      }
      ok := Preflight(env.pre);
      if !ok || !env.fits {
        return false;
      }
      ok := StartWriter(AllServices, env.up);
      if !ok {
        var clean := Fence(T.Blocked, env.after);
        return false;
      }
      ok := Preflight(env.post);
      if !ok {
        return;
      }
      var running := ServicesUp(containers);
      var saved := false;
      if env.lists && running {
        saved := SaveIntent(T.Running, env.saves);
      }
      if !saved {
        var clean := Fence(T.Blocked, env.after);
        return false;
      }
    }

    /** The start action of a marked site as one tracked request: admission first, and a fence
        after any failure, also one before startQuotaSite was reached. */
    method StartAction(admitted: bool, env: StartEnv, quiesce: FenceEnv) returns (ok: bool)
      requires Covered(log) && Marked()
      modifies this`intent, this`containers, this`log
      ensures Covered(log) && old(log) <= log
      ensures forall k | |old(log)| <= k < |log| && log[k].Launch? :: log[k].saved == Saved(T.Blocked)
      ensures ok ==> admitted && intent == Saved(T.Running) && readable && guard.ReadyGuard? && AllSafe(containers)
      ensures !ok ==> BlockTried(log) && (FencesClean(log) ==> intent == Saved(T.Blocked) && AllAtRest(containers))
    {
      hide Covered, Armed, BlockTried, FencesClean, NoLaunch;
      Note(Begin);
      ok := false;
      if admitted {
        ok := Start(env);
      }
      if !ok {
        var clean := Fence(T.Blocked, quiesce);
      }
    }

    /** One round of the supervisor over this site. */
    method Reconcile(startup: bool, env: RoundEnv) returns (ok: bool)
      requires Covered(log)
      modifies this`intent, this`containers, this`log
      ensures Covered(log) && |old(log)| < |log| && old(log) <= log && log[|old(log)|] == Begin
      ensures !Marked() ==> intent == old(intent) && containers == old(containers) && log == old(log) + [Begin]
      // It never raises an intent to running, and launches only from a blocked one.
      ensures intent == Saved(T.Running) ==> old(intent) == intent
      ensures forall k | |old(log)| <= k < |log| && log[k].Launch? :: log[k].saved == Saved(T.Blocked)
      // A site left with a live WordPress, all fences having worked, is one that may run.
      ensures Marked() && FencesClean(log) && WordPressLive(containers) ==>
                && old(intent) == Saved(T.Running) && intent == Saved(T.Running)
                && readable && guard.ReadyGuard? && Resolved(receipt) && AllSafe(containers) && env.storage
      // An unresolved operation, an unfit guard or unreadable state is always fenced.
      ensures Marked() && !(readable && guard.ReadyGuard? && Resolved(receipt) && !old(intent).BadIntent?) ==>
                BlockTried(log) && NoLaunch(log)
      // At a worker start, every site not meant to run is fenced.
      ensures Marked() && startup && old(intent) != Saved(T.Running) && FencesClean(log) ==>
                AllAtRest(containers) && NoLaunch(log)
      // What is in order is left alone: a running site that may run, and between the two
      // requests of a restore the database of a site whose WordPress is at rest.
      ensures && readable && guard.ReadyGuard? && Resolved(receipt) && env.compose && env.storage && env.lists
              && AllSafe(old(containers)) && |old(containers)| >= 2
              && ((old(intent) == Saved(T.Running) && BothUp(old(containers)))
                  || (!startup && old(intent) == Saved(T.Maintenance) && !Busy(old(containers))))
              ==> log == old(log) + [Begin] && intent == old(intent) && containers == old(containers)
      // A stopped site stays stopped, a blocked one blocked.
      ensures && Marked() && readable && guard.ReadyGuard? && Resolved(receipt) && FencesClean(log)
              && (old(intent) == Saved(T.Stopped) || old(intent) == Saved(T.Blocked))
              ==> intent == old(intent) && AllAtRest(containers)
    {
      hide Covered, Armed, BlockTried, FencesClean, NoLaunch;
      Note(Begin);
      ok := true;
      if !Marked() {
        return;
      }
      var state := if intent.Saved? then Some(intent.intent) else if intent.NoIntent? then Some(T.Stopped) else None;
      var resolved := Resolved(receipt);
      if !readable || !guard.ReadyGuard? || state.None? || !resolved {
        ok := Fence(T.Blocked, env.fence);
        return;
      }
      if state.value != T.Running && (startup || state.value != T.Maintenance) {
        ok := Fence(if state.value == T.Maintenance then T.Blocked else state.value, env.fence);
        return;
      }
      if !env.compose || !env.storage {
        ok := Fence(T.Blocked, env.fence);
        return;
      }
      var safe, running := Inspect(containers);
      safe := safe && env.lists && |containers| >= 2;
      if !safe {
        ok := Fence(T.Blocked, env.fence);
        return;
      }
      if state.value == T.Maintenance {
        var busy := WordPressBusy(containers);
        if busy {
          ok := Fence(T.Blocked, env.fence);
        }
        return;
      }
      if !running {
        var started := Start(env.start);
      }
    }

    /** The stop action. */
    method Stop(fence: FenceEnv, tool: bool, stopped: LaunchEnv) returns (ok: bool)
      requires Covered(log)
      modifies this`intent, this`containers, this`log
      ensures Covered(log) && NoLaunch(log)
      ensures ok && Marked() ==> intent == Saved(T.Stopped) && FencesClean(log)
      ensures intent == Saved(T.Running) ==> old(intent) == intent
    {
      Note(Begin);
      if Marked() {
        ok := Fence(T.Stopped, fence);
        if !ok {
          return;
        }
      }
      if !tool {
        return false;
      }
      containers, ok := stopped.after, stopped.ok;
    }

    /** create, which has no preflight: that the site is unmarked is all it checks, and a marked
        one is refused before anything else. The services start first, then the installer runs;
        `valid` covers everything in between. */
    method Create(valid: bool, services: LaunchEnv, install: LaunchEnv) returns (ok: bool)
      requires Covered(log)
      modifies this`containers, this`log
      ensures Covered(log) && old(log) <= log
      ensures Marked() ==> !ok && containers == old(containers) && NoLaunch(log)
      ensures !valid ==> !ok && containers == old(containers) && NoLaunch(log)
      ensures ok <==> !Marked() && valid && services.ok && install.ok
      ensures ok ==> log == old(log) + [Begin, Cleared, Launch(AllServices, intent), Launch(Installer, intent)]
      ensures ok ==> containers == install.after
    {
      hide Covered, Armed, BlockTried, FencesClean, NoLaunch;
      Note(Begin);
      if Marked() || !valid {
        return false;
      }
      Note(Cleared);
      ok := StartWriter(AllServices, services);
      if ok {
        ok := StartWriter(Installer, install);
      }
    }
  }

  /** No receipt, a succeeded one, or a resource change rejected at admission. */
  predicate Resolved(r: ReceiptFile) {
    && r.Receipt?
    && (r.op.None? || r.op.value.state.Succeeded?
        || (r.op.value.kind.Resources? && r.op.value.state.Failed? && r.op.value.rejected))
  }

  ghost predicate Working(f: FenceEnv) {
    f.saves.Stores? && f.jobs && f.lists && f.updateFails == {} && f.stopFails == {}
  }

  /** Answers under which a start must succeed, given a ready guard and policed containers. */
  ghost predicate StartWorks(env: StartEnv) {
    && Working(env.before) && env.pre.compose && env.pre.storage && env.pre.lists && env.fits
    && env.up.ok && AllSafe(env.up.after) && BothUp(env.up.after)
    && env.post.compose && env.post.storage && env.post.lists && env.lists && env.saves.Stores?
  }

  predicate BothUp(cs: seq<Container>) {
    && (forall c | c in cs && !c.service.Tool? :: c.condition.Up?)
    && ServiceCount(cs) == 2
  }

  function ServiceCount(cs: seq<Container>): nat {
    if cs == [] then 0 else ServiceCount(cs[..|cs| - 1]) + if cs[|cs| - 1].service.Tool? then 0 else 1
  }

  /** startQuotaSite's own inspection of what it started. */
  method ServicesUp(cs: seq<Container>) returns (ok: bool)
    ensures ok <==> BothUp(cs)
  {
    ok := true;
    var count := 0;
    for n := 0 to |cs|
      invariant ok <==> forall k | 0 <= k < n && !cs[k].service.Tool? :: cs[k].condition.Up?
      invariant count == ServiceCount(cs[..n])
    {
      assert cs[..n + 1][..n] == cs[..n];
      if !cs[n].service.Tool? {
        if !cs[n].condition.Up? {
          ok := false;
        }
        count := count + 1;
      }
    }
    assert cs[..|cs|] == cs;
    ok := ok && count == 2;
  }

  /** The reconciler's inspection: whether all are safe, and whether both services are up. */
  method Inspect(cs: seq<Container>) returns (safe: bool, running: bool)
    ensures safe <==> AllSafe(cs)
    ensures running <==> BothUp(cs)
  {
    safe := true;
    for n := 0 to |cs|
      invariant safe <==> forall k | 0 <= k < n :: Safe(cs[k])
    {
      if !Safe(cs[n]) {
        safe := false;
      }
    }
    running := ServicesUp(cs);
  }

  ghost predicate Busy(cs: seq<Container>) {
    exists c :: c in cs && c.service.WordPress? && !c.condition.Exited? && !c.condition.Created? && !c.condition.Dead?
  }

  /** A WordPress container in any state but exited, created or dead. */
  method WordPressBusy(cs: seq<Container>) returns (busy: bool)
    ensures !busy ==> !WordPressLive(cs)
    ensures busy <==> Busy(cs)
  {
    for n := 0 to |cs|
      invariant forall k | 0 <= k < n && cs[k].service.WordPress? ::
                  cs[k].condition.Exited? || cs[k].condition.Created? || cs[k].condition.Dead?
    {
      if cs[n].service.WordPress? && !cs[n].condition.Exited? && !cs[n].condition.Created? && !cs[n].condition.Dead? {
        return true;
      }
    }
    return false;
  }
}
