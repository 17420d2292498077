/**
 The worker's quota data transition (cmd/worker/quota_prepare.go): a plan file per site
 whose phase moves from pending over prepared to tagging and tagged, an ownership file per
 filesystem, and a launch guard that is written before any call across filesystems.
 */
module Transitions {
  import opened Common
  import R = Registry

  datatype Phase = Pending | Prepared | Tagging | Tagged | OtherPhase

  datatype Authority = Authority(version: int, owner: string, daemon: string, state: string, uuid: string, phase: Phase)
  datatype AuthorityFile = BadAuthority | GoodAuthority(authority: Authority)

  datatype Plan = Plan(authority: Authority, site: string, project: uint32)
  datatype PlanFile = BadPlan | GoodPlan(plan: Plan)

  datatype GuardPhase = Waiting | Ready | OtherGuard
  datatype Guard = Guard(version: int, phase: GuardPhase, project: uint32, hard: uint64, uuid: string)
  datatype GuardFile = BadGuard | GoodGuard(guard: Guard)

  datatype Intent = Running | Stopped | Blocked | Maintenance

  datatype Store = Store(
    plans: map<string, PlanFile>, guards: map<string, GuardFile>, authorities: map<string, AuthorityFile>,
    intents: map<string, Intent>, ledger: R.Store)

  /** Calls out of the worker, in order. `disk` is the phase of the stored plan at the time. */
  datatype Event =
    | Fence(site: string, clean: bool)
    | Verified(site: string)
    | Helper(site: string, tag: bool, existing: bool, disk: Phase)

  datatype WriterState = WriterState(restartNo: bool, idle: bool)
  datatype Answer = SaysPrepared | SaysTagged | SaysOther
  datatype HelperReply = HelperFailed | Reply(verified: bool, reason: Answer)

  /** None stands for a failed query. */
  datatype Env = Env(
    rootOk: bool, daemon: Option<string>, reserve: R.Env, lock: R.Env, token: string,
    fence: bool, compose: bool, containers: Option<seq<WriterState>>,
    wordpressUsers: Option<bool>, databaseUsers: Option<bool>, helper: HelperReply, deferred: bool, disk: Budget)

  datatype Outcome = Died | Done | Failed

  predicate IsDigest(s: string) { HexString(s, 64) }

  predicate GoodEnv(env: Env) {
    R.ValidUUID(env.token) && (env.daemon.Some? ==> IsDigest(env.daemon.value))
  }

  predicate ValidAuthority(a: Authority) {
    && a.version == 1 && R.ValidUUID(a.owner) && R.ValidUUID(a.uuid)
    && IsDigest(a.daemon) && IsDigest(a.state) && !a.phase.OtherPhase?
  }

  predicate ValidPlan(p: Plan, id: string) {
    ValidAuthority(p.authority) && p.site == id && p.project != 0
  }

  function Find<T>(m: map<string, T>, x: string): Option<T> {
    if x in m then Some(m[x]) else None
  }

  // ---- What a run may do to the disk ----

  function Rank(p: Phase): nat {
    match p
    case Pending => 0
    case Prepared => 1
    case _ => 2
  }

  predicate SamePlan(p: Plan, q: Plan) {
    && q.site == p.site && q.project == p.project
    && q.authority.(phase := Pending) == p.authority.(phase := Pending)
  }

  predicate PlanStep(a: Option<PlanFile>, b: Option<PlanFile>) {
    || b == a
    || (a.None? && b.Some? && b.value.GoodPlan?)
    || (&& a.Some? && a.value.GoodPlan? && b.Some? && b.value.GoodPlan? && SamePlan(a.value.plan, b.value.plan)
        && Rank(a.value.plan.authority.phase) <= Rank(b.value.plan.authority.phase)
        && !b.value.plan.authority.phase.OtherPhase?)
  }

  function PendingGuard(project: uint32, uuid: string): Guard {
    Guard(1, Waiting, project, 0, uuid)
  }

  predicate GuardStep(a: Option<GuardFile>, b: Option<GuardFile>) {
    || b == a
    || (&& a.None? && b.Some? && b.value.GoodGuard?
        && b.value.guard == PendingGuard(b.value.guard.project, b.value.guard.uuid))
  }

  predicate AuthorityStep(a: AuthorityFile, b: AuthorityFile) {
    || b == a
    || (a.GoodAuthority? && a.authority.phase.Pending? && b == GoodAuthority(a.authority.(phase := Prepared)))
  }

  ghost predicate LedgerStep(a: R.Store, b: R.Store) {
    && (R.Healthy(a) ==> R.Healthy(b)) && R.Entries(a) <= R.Entries(b) && b.sites == a.sites
  }

  /** The plan agrees with the ledger, the ownership file and the launch guard. */
  predicate Grounded(s: Store, id: string) {
    && id in s.plans && s.plans[id].GoodPlan?
    && var p := s.plans[id].plan;
    && ValidPlan(p, id)
    && R.QuotaReservation(id, p.authority.uuid, p.project) in R.Entries(s.ledger)
    && p.authority.uuid in s.authorities
    && var f := s.authorities[p.authority.uuid];
    && f.GoodAuthority? && (f.authority.phase.Pending? || f.authority.phase.Prepared?)
    && f.authority.(phase := Pending) == p.authority.(phase := Pending)
    && Find(s.guards, id) == Some(GoodGuard(PendingGuard(p.project, p.authority.uuid)))
  }

  /** A site is marked exactly if it has a guard or a plan. */
  predicate Synced(s: Store) {
    s.ledger.marked == s.plans.Keys + s.guards.Keys
  }

  /** One run for a site. */
  ghost predicate Step(a: Store, b: Store, id: string) {
    && (Synced(a) ==> Synced(b))
    && b.plans - {id} == a.plans - {id} && b.guards - {id} == a.guards - {id} && b.intents - {id} == a.intents - {id}
    && PlanStep(Find(a.plans, id), Find(b.plans, id))
    && GuardStep(Find(a.guards, id), Find(b.guards, id))
    && (Find(b.intents, id) == Find(a.intents, id) || Find(b.intents, id) == Some(Blocked))
    && (forall u | u in a.authorities :: u in b.authorities && AuthorityStep(a.authorities[u], b.authorities[u]))
    && LedgerStep(a.ledger, b.ledger)
    && (id !in a.plans && id in b.plans ==> id !in a.guards && Grounded(b, id))
  }

  lemma GroundedStays(a: Store, b: Store, id: string, actor: string)
    requires Step(a, b, actor) && Grounded(a, id)
    ensures Grounded(b, id)
  {
    hide ValidAuthority, LedgerStep;
    assert LedgerStep(a.ledger, b.ledger);
    SubsequenceKeeps(a, b, R.QuotaReservation(id, a.plans[id].plan.authority.uuid, a.plans[id].plan.project));
    if actor != id {
      assert id in b.plans - {actor} && id in b.guards - {actor};
      assert (b.plans - {actor})[id] == b.plans[id] && (a.plans - {actor})[id] == a.plans[id];
      assert (b.guards - {actor})[id] == b.guards[id] && (a.guards - {actor})[id] == a.guards[id];
    } else {
      ValidPlanKept(a.plans[id].plan, b.plans[id].plan, id);
    }
  }

  lemma ValidPlanKept(p: Plan, q: Plan, id: string)
    requires ValidPlan(p, id) && (q == p || (SamePlan(p, q) && !q.authority.phase.OtherPhase?))
    ensures ValidPlan(q, id)
  {
  }

  lemma SubsequenceKeeps(a: Store, b: Store, e: R.QuotaReservation)
    requires LedgerStep(a.ledger, b.ledger) && e in R.Entries(a.ledger)
    ensures e in R.Entries(b.ledger)
  {
    var i :| 0 <= i < |R.Entries(a.ledger)| && R.Entries(a.ledger)[i] == e;
    assert R.Entries(b.ledger)[i] == e;
  }

  lemma StepTransitive(a: Store, b: Store, c: Store, id: string)
    requires Step(a, b, id) && Step(b, c, id)
    ensures Step(a, c, id)
  {
    if id !in a.plans && id in b.plans {
      GroundedStays(b, c, id, id);
    }
    hide Grounded, R.Healthy, R.Entries;
    assert PlanStep(Find(a.plans, id), Find(c.plans, id));
    assert GuardStep(Find(a.guards, id), Find(c.guards, id));
    assert LedgerStep(a.ledger, c.ledger);
    assert forall u | u in a.authorities :: u in b.authorities;
    assert forall u | u in a.authorities :: u in c.authorities && AuthorityStep(a.authorities[u], c.authorities[u]);
    assert id in a.guards ==> Find(a.guards, id) == Find(b.guards, id);
  }

  lemma RunStepGrows(a: R.Store, b: R.Store)
    requires R.RunStep(a, b)
    ensures LedgerStep(a, b)
  {
  }

  /** Only the registry moves. */
  lemma RegistryStep(s: Store, id: string, a: R.Store, b: R.Store)
    requires s.ledger == a && R.RunStep(a, b)
    ensures Step(s, s.(ledger := b), id)
  {
    RunStepGrows(a, b);
    assert b.marked == a.marked;
    hide R.RunStep, R.Healthy, R.Entries, Grounded;
  }

  /** Every native helper call comes right after a verification of the same site, and that
      right after a fence that completed; it tags only what the stored plan says is tagging,
      and it claims afresh only for a plan that was never prepared. */
  ghost predicate Covered(log: seq<Event>) {
    forall i | 0 <= i < |log| && log[i].Helper? ::
      i >= 2 && log[i - 1] == Verified(log[i].site) && log[i - 2] == Fence(log[i].site, true) && RightMode(log[i])
  }

  predicate RightMode(e: Event) {
    && e.Helper?
    && if e.tag then e.existing && e.disk.Tagging? else if e.existing then e.disk.Prepared? else e.disk.Pending?
  }

  lemma CoveredAppend(log: seq<Event>, e: Event)
    requires Covered(log) && !e.Helper?
    ensures Covered(log + [e])
  {
  }

  lemma CoveredHelper(log: seq<Event>, e: Event)
    requires Covered(log) && e.Helper? && RightMode(e)
    requires |log| >= 2 && log[|log| - 1] == Verified(e.site) && log[|log| - 2] == Fence(e.site, true)
    ensures Covered(log + [e])
  {
  }

  datatype Progress = Stop(died: bool, rest: Budget) | Go(rest: Budget)
  datatype Identified = Unidentified(died: bool, rest: Budget)
    | Identity(plan: Option<Plan>, authority: Authority, entry: R.QuotaReservation, rest: Budget)

  datatype Enrolled = Unenrolled(died: bool) | Enrolled(plan: Option<Plan>, entry: R.QuotaReservation)

  function PlanOf(s: Store, id: string): Option<Plan> {
    if id in s.plans && s.plans[id].GoodPlan? then Some(s.plans[id].plan) else None
  }

  /** A readable plan in a phase from which this direction may continue. */
  predicate PlanAccepted(s: Store, id: string, tagging: bool) {
    && (id in s.plans ==> s.plans[id].GoodPlan? && ValidPlan(s.plans[id].plan, id))
    && var p := PlanOf(s, id);
    if tagging then p.Some? && !p.value.authority.phase.Pending?
    else p.Some? ==> p.value.authority.phase.Pending? || p.value.authority.phase.Prepared?
  }

  ghost predicate EnrolledFits(s: Store, id: string, tagging: bool, root: string, env: Env, r: Enrolled) {
    r.Enrolled? ==>
      && env.daemon.Some? && r.plan == PlanOf(s, id)
      && (r.plan.None? ==> id !in s.plans && id !in s.guards && !tagging)
      && (r.plan.Some? ==>
            && ValidPlan(r.plan.value, id) && r.plan.value.project == r.entry.project
            && r.plan.value.authority.uuid == r.entry.uuid && r.plan.value.authority.daemon == env.daemon.value
            && r.plan.value.authority.state == root
            && (if tagging then !r.plan.value.authority.phase.Pending? else Rank(r.plan.value.authority.phase) < 2))
      && r.entry.site == id && R.WellFormedEntry(r.entry) && r.entry in R.Entries(s.ledger)
  }

  /** The ownership file of a filesystem is absent or belongs to this installation. */
  predicate OwnAuthority(s: Store, uuid: string, daemon: string, root: string) {
    uuid in s.authorities ==>
      && s.authorities[uuid].GoodAuthority?
      && var a := s.authorities[uuid].authority;
      && ValidAuthority(a) && Rank(a.phase) < 2 && a.daemon == daemon && a.state == root && a.uuid == uuid
  }

  /** The stored state and the replies under which identification must succeed. */
  ghost predicate Admissible(s: Store, id: string, tagging: bool, root: string, env: Env) {
    && env.rootOk && env.daemon.Some? && PlanAccepted(s, id, tagging)
    && !env.lock.lockFails
    && match PlanOf(s, id)
       case Some(p) =>
         Grounded(s, id) && R.Loadable(s.ledger) && p.authority.daemon == env.daemon.value && p.authority.state == root
       case None =>
         && R.Reservable(s.ledger, id, env.reserve.inventory) && !env.reserve.lockFails && !env.reserve.probeFails
         && env.reserve.disk.left >= 5 && OwnAuthority(s, env.reserve.inventory.uuid, env.daemon.value, root)
  }

  lemma EntryUUID(e: R.QuotaReservation)
    requires R.WellFormedEntry(e)
    ensures R.ValidUUID(e.uuid)
  {
  }

  lemma OneEntryPerSite(l: R.Ledger, e: R.QuotaReservation, f: R.QuotaReservation)
    requires R.ValidLedger(l) && e in l.reservations && f in l.reservations && e.site == f.site
    ensures e == f
  {
  }

  lemma LedgerEntries(l: R.Ledger)
    requires R.ValidLedger(l)
    ensures forall e | e in l.reservations :: R.WellFormedEntry(e)
  {
    hide R.ConflictFree, R.WellFormedEntry;
  }

  /** What identification hands on. */
  ghost predicate IdentityFits(s: Store, id: string, tagging: bool, r: Identified) {
    r.Identity? ==>
      && r.plan == PlanOf(s, id)
      && (r.plan.None? ==> id !in s.plans && id !in s.guards && !tagging)
      && (r.plan.Some? ==>
            && ValidPlan(r.plan.value, id) && r.plan.value.project == r.entry.project
            && r.plan.value.authority.(phase := Pending) == r.authority.(phase := Pending)
            && (if tagging then !r.plan.value.authority.phase.Pending? else Rank(r.plan.value.authority.phase) < 2))
      && r.entry.site == id && R.WellFormedEntry(r.entry) && r.entry in R.Entries(s.ledger)
      && r.authority.uuid == r.entry.uuid && ValidAuthority(r.authority) && Rank(r.authority.phase) < 2
      && Find(s.authorities, r.entry.uuid) == Some(GoodAuthority(r.authority))
  }

  ghost predicate PlanFits(s: Store, id: string, tagging: bool, r: Identified, plan: Plan)
    requires r.Identity?
  {
    && ValidPlan(plan, id) && plan.project == r.entry.project
    && plan.authority.(phase := Pending) == r.authority.(phase := Pending)
    && (if tagging then !plan.authority.phase.Pending? else Rank(plan.authority.phase) < 2)
    && Find(s.authorities, r.entry.uuid) == Some(GoodAuthority(r.authority)) && Rank(r.authority.phase) < 2
    && plan.authority.uuid == r.entry.uuid
  }

  /** No writer can touch the site's data: fenced, restart off, all its containers and every
      other user of its volumes at rest. */
  predicate Quiet(env: Env) {
    && env.fence && env.compose && env.containers.Some?
    && (forall k | 0 <= k < |env.containers.value| :: env.containers.value[k].restartNo && env.containers.value[k].idle)
    && env.wordpressUsers == Some(false) && env.databaseUsers == Some(false)
  }

  function WithGuard(s: Store, id: string, g: Guard): Store {
    s.(guards := s.guards[id := GoodGuard(g)], ledger := s.ledger.(marked := s.ledger.marked + {id}))
  }

  function WithPlan(s: Store, id: string, p: Plan): Store {
    s.(plans := s.plans[id := GoodPlan(p)])
  }

  lemma StepReflexive(s: Store, id: string)
    ensures Step(s, s, id)
  {
    hide R.Healthy, Grounded;
  }

  /** Blocking a site's intent. */
  lemma BlockIntent(s: Store, id: string)
    ensures Step(s, s, id) && Step(s, s.(intents := s.intents[id := Blocked]), id)
  {
    var t := s.(intents := s.intents[id := Blocked]);
    assert t.intents - {id} == s.intents - {id};
    hide R.Healthy, Grounded;
  }

  /** A plan that is there already fits as it is. */
  lemma KnownPlanFits(s: Store, id: string, tagging: bool, r: Identified)
    requires r.Identity? && IdentityFits(s, id, tagging, r)
    ensures r.plan == PlanOf(s, id) && (r.plan.Some? ==> PlanFits(s, id, tagging, r, r.plan.value))
  {
    hide HexString, R.Entries;
  }

  lemma FirstWrites(s: Store, id: string, tagging: bool, r: Identified, plan: Plan)
    requires r.Identity? && IdentityFits(s, id, tagging, r) && r.plan.None?
    requires plan == Plan(r.authority.(phase := Pending), id, r.entry.project)
    ensures var guarded := WithGuard(s, id, PendingGuard(r.entry.project, r.entry.uuid));
            var planned := WithPlan(guarded, id, plan);
            && Step(s, s, id) && Step(s, guarded, id) && Step(s, planned, id)
            && PlanFits(planned, id, tagging, r, plan) && Rank(plan.authority.phase) < 2
            && PlanOf(s, id).None? && PlanOf(guarded, id).None? && PlanOf(planned, id) == Some(plan)
            && !Orphaned(s, id) && Orphaned(guarded, id) && !Orphaned(planned, id)
  {
    hide HexString;
    StepReflexive(s, id);
    var g := PendingGuard(r.entry.project, r.entry.uuid);
    var guarded := WithGuard(s, id, g);
    var planned := WithPlan(guarded, id, plan);
    assert Find(guarded.guards, id) == Some(GoodGuard(g)) && Find(planned.plans, id) == Some(GoodPlan(plan));
    assert guarded.guards - {id} == s.guards - {id} && planned.plans - {id} == s.plans - {id};
    assert Grounded(planned, id);
    assert LedgerStep(s.ledger, planned.ledger);
  }

  function Rephased(p: Plan, phase: Phase): Plan {
    p.(authority := p.authority.(phase := phase))
  }

  function Expected(tagging: bool): Answer {
    if tagging then SaysTagged else SaysPrepared
  }

  /** Everything a run needs to succeed. */
  ghost predicate CanComplete(s: Store, id: string, tagging: bool, root: string, env: Env) {
    && Admissible(s, id, tagging, root, env) && Quiet(env) && env.disk.left >= 8
    && env.helper == Reply(true, Expected(tagging))
  }

  /** Advancing the phase of a stored plan. */
  lemma PhaseWrite(s: Store, id: string, p: Plan, phase: Phase)
    requires PlanOf(s, id) == Some(p) && Rank(p.authority.phase) <= Rank(phase) && !phase.OtherPhase?
    ensures Step(s, WithPlan(s, id, Rephased(p, phase)), id)
  {
    var q := Rephased(p, phase);
    var t := WithPlan(s, id, q);
    assert t.plans - {id} == s.plans - {id} && SamePlan(p, q);
    assert Find(s.plans, id) == Some(GoodPlan(p)) && Find(t.plans, id) == Some(GoodPlan(q));
    hide R.Healthy, Grounded;
  }

  /** The first ownership file of a filesystem. */
  lemma FirstOwner(s: Store, id: string, a: Authority)
    requires a.uuid !in s.authorities
    ensures Step(s, WithAuthority(s, a), id)
  {
    hide R.Healthy, Grounded;
  }

  function WithAuthority(s: Store, a: Authority): Store {
    s.(authorities := s.authorities[a.uuid := GoodAuthority(a)])
  }

  lemma AuthorityWrite(s: Store, id: string, a: Authority)
    requires Find(s.authorities, a.uuid) == Some(GoodAuthority(a)) && Rank(a.phase) < 2
    ensures Step(s, WithAuthority(s, a.(phase := Prepared)), id)
  {
    hide R.Healthy, Grounded;
  }

  /** The stored result of a successful run. */
  predicate Completed(s: Store, id: string, tagging: bool, entry: R.QuotaReservation) {
    && PlanOf(s, id).Some?
    && var p := PlanOf(s, id).value;
    && p.project == entry.project && p.authority.uuid == entry.uuid
    && p.authority.phase == (if tagging then Tagged else Prepared)
    && Find(s.authorities, entry.uuid) == Some(GoodAuthority(p.authority.(phase := Prepared)))
  }

  /** The two records of a success, and both of them together. */
  lemma RecordSteps(s: Store, id: string, tagging: bool, owner: Authority, plan: Plan)
    requires PlanOf(s, id) == Some(plan) && Find(s.authorities, owner.uuid) == Some(GoodAuthority(owner))
    requires Rank(owner.phase) < 2 && plan.authority.(phase := Pending) == owner.(phase := Pending)
    requires if tagging then plan.authority.phase.Tagging? else Rank(plan.authority.phase) < 2
    ensures var t := WithAuthority(s, owner.(phase := Prepared));
            var u := WithPlan(t, id, Rephased(plan, if tagging then Tagged else Prepared));
            && Step(s, s, id) && Step(s, t, id) && Step(s, u, id)
            && Completed(u, id, tagging, R.QuotaReservation(id, owner.uuid, plan.project))
            && PlanOf(t, id) == Some(plan) && PlanOf(u, id).Some?
            && (!tagging ==> Rank(plan.authority.phase) < 2 && Rank(PlanOf(u, id).value.authority.phase) < 2)
  {
    var phase := if tagging then Tagged else Prepared;
    var t := WithAuthority(s, owner.(phase := Prepared));
    StepReflexive(s, id);
    AuthorityWrite(s, id, owner);
    PhaseWrite(t, id, plan, phase);
    hide Step;
    StepTransitive(s, t, WithPlan(t, id, Rephased(plan, phase)), id);
  }

  /** A guard without a plan: what a run leaves that stops between its two first writes. */
  predicate Orphaned(s: Store, id: string) {
    id in s.guards && id !in s.plans
  }

  /** The writes of a first run up to and including the guard. */
  function Halfway(s: Store, uuid: string): nat {
    if uuid in s.authorities then 1 else 2
  }

  /** A first run on a site, with everything in order but possibly the disk. */
  ghost predicate FirstRun(s: Store, id: string, tagging: bool, root: string, env: Env) {
    Admissible(s, id, tagging, root, env) && id !in s.plans
  }

  /** A site that can be tagged has the guard that tagging asks for. */
  lemma GuardIsThere(s: Store, t: Store, id: string, root: string, env: Env, plan: Plan)
    requires Admissible(s, id, true, root, env) && Step(s, t, id) && PlanOf(t, id) == Some(plan)
    ensures Find(t.guards, id) == Some(GoodGuard(PendingGuard(plan.project, plan.authority.uuid)))
  {
    assert Grounded(s, id);
    GroundedStays(s, t, id, id);
    hide ValidPlan;
  }

  lemma EntriesStay(s: Store, t: Store, id: string)
    requires Step(s, t, id)
    ensures forall e | e in R.Entries(s.ledger) :: e in R.Entries(t.ledger)
  {
    assert LedgerStep(s.ledger, t.ledger);
    hide R.Entries, R.Healthy;
  }

  class QuotaTransition {
    const root: string
    const registry: R.QuotaRegistry
    var plans: map<string, PlanFile>
    var guards: map<string, GuardFile>
    var authorities: map<string, AuthorityFile>
    var intents: map<string, Intent>
    var log: seq<Event>

    constructor (root: string, registry: R.QuotaRegistry)
      requires IsDigest(root) && registry.marked == {} && (registry.ledger.Stored? ==> registry.dir)
      ensures Valid() && this.registry == registry && this.root == root
      ensures State() == Store(map[], map[], map[], map[], registry.State()) && log == []
    {
      this.root, this.registry := root, registry;
      plans, guards, authorities, intents, log := map[], map[], map[], map[], [];
    }

    ghost predicate Valid()
      reads this, registry
    {
      registry.marked == plans.Keys + guards.Keys && (registry.ledger.Stored? ==> registry.dir) && IsDigest(root)
    }

    function State(): Store
      reads this, registry
    {
      Store(plans, guards, authorities, intents, registry.State())
    }

    /** fenceQuotaSite with intent blocked: saves the intent, then stops the writers. */
    method FenceSite(id: string, docker: bool, b: Budget) returns (clean: bool, died: bool, rest: Budget)
      requires Valid()
      modifies this`intents, this`log
      ensures Valid() && Step(old(State()), State(), id)
      ensures intents == old(intents) || intents == old(intents)[id := Blocked]
      ensures clean ==> docker && !died && Find(intents, id) == Some(Blocked)
      ensures died ==> b.killed && log == old(log)
      ensures !died ==> log == old(log) + [Fence(id, clean)]
      ensures docker && b.left >= 2 ==> clean && rest.left + 1 >= b.left
      ensures rest.killed == b.killed
    {
      BlockIntent(State(), id);
      hide Step, HexString;
      rest := b;
      var saved := true;
      if Find(intents, id) != Some(Blocked) {
        var w := Write(b);
        if w.applied {
          intents := intents[id := Blocked];
          assert State() == old(State()).(intents := old(intents)[id := Blocked]);
        }
        if w.died {
          return false, true, w.rest;
        }
        saved, rest := w.ok, w.rest;
      }
      clean, died := saved && docker, false;
      log := log + [Fence(id, clean)];
    }

    /** readQuotaPlan, and the phases each direction accepts. */
    method ReadPlan(id: string, tagging: bool) returns (ok: bool, plan: Option<Plan>)
      ensures ok ==> plan == PlanOf(State(), id) && (plan.None? ==> id !in plans && !tagging)
      ensures ok && plan.Some? ==>
                && ValidPlan(plan.value, id)
                && if tagging then !plan.value.authority.phase.Pending? else Rank(plan.value.authority.phase) < 2
      ensures PlanAccepted(State(), id, tagging) ==> ok
    {
      hide HexString;
      plan := None;
      if id in plans {
        if plans[id].BadPlan? || !ValidPlan(plans[id].plan, id) {
          return false, None;
        }
        plan := Some(plans[id].plan);
      }
      if tagging && (plan.None? || plan.value.authority.phase.Pending?) {
        return false, plan;
      }
      if !tagging && plan.Some? && (plan.value.authority.phase.Tagging? || plan.value.authority.phase.Tagged?) {
        return false, plan;
      }
      ok := true;
    }

    /** The plan on disk, and the site's reservation: a fresh one if there is no plan. */
    method Enroll(id: string, tagging: bool, env: Env) returns (r: Enrolled)
      requires Valid() && GoodEnv(env)
      modifies registry
      ensures Valid() && Step(old(State()), State(), id)
      ensures EnrolledFits(State(), id, tagging, root, env, r)
      ensures Admissible(old(State()), id, tagging, root, env) ==> r.Enrolled?
      ensures r.Enrolled? && r.plan.None? ==> r.entry.uuid == env.reserve.inventory.uuid
    {
      hide HexString, ValidAuthority;
      if !env.rootOk || env.daemon.None? {
        return Unenrolled(false);
      }
      var readable, plan := ReadPlan(id, tagging);
      if !readable {
        return Unenrolled(false);
      }
      ghost var s0 := registry.State();
      var entry := R.QuotaReservation(id, "", 0);
      if plan.None? {
        var reserved := registry.Reserve(id, env.reserve);
        RegistryStep(old(State()), id, s0, registry.State());
        hide Step;
        assert State() == old(State()).(ledger := registry.State());
        if !reserved.Reserved? {
          return Unenrolled(reserved.Died?);
        }
        entry := reserved.entry;
      } else {
        StepReflexive(State(), id);
      }
      hide Step;
      ghost var s1 := State();
      if Grounded(old(State()), id) {
        GroundedStays(old(State()), s1, id, id);
      }
      r := LoadEntry(id, tagging, env, plan, entry);
      StepTransitive(old(State()), s1, State(), id);
    }

    /** The ledger as it is now has the site's entry, and that agrees with the plan. */
    method LoadEntry(id: string, tagging: bool, env: Env, plan: Option<Plan>, known: R.QuotaReservation)
      returns (r: Enrolled)
      requires Valid() && env.daemon.Some? && plan == PlanOf(State(), id) && (plan.Some? ==> ValidPlan(plan.value, id))
      requires plan.None? ==> id !in plans && id !in guards && !tagging
      requires plan.None? ==> known in R.Entries(registry.State()) && known.site == id && !R.Pristine(registry.State())
      requires plan.Some? ==>
                 if tagging then !plan.value.authority.phase.Pending? else Rank(plan.value.authority.phase) < 2
      modifies registry
      ensures Valid() && Step(old(State()), State(), id)
      ensures EnrolledFits(State(), id, tagging, root, env, r)
      ensures r.Enrolled? && plan.None? ==> r.entry == known
      ensures && !env.lock.lockFails && R.Loadable(old(registry.State()))
              && (plan.Some? ==>
                    && Grounded(old(State()), id) && plan.value.authority.daemon == env.daemon.value
                    && plan.value.authority.state == root)
              ==> r.Enrolled?
    {
      hide HexString, ValidAuthority, R.RunStep, R.ValidLedger, R.ConflictFree, R.Healthy, R.WellFormedEntry;
      ghost var s0 := registry.State();
      var loading := registry.Load(env.lock);
      RegistryStep(old(State()), id, s0, registry.State());
      hide Step;
      assert State() == old(State()).(ledger := registry.State());
      if loading.Halted? {
        return Unenrolled(loading.outcome.Died?);
      }
      LedgerEntries(loading.ledger);
      var entry := known;
      if plan.Some? {
        entry := FindEntry(loading.ledger.reservations, id);
        if Grounded(old(State()), id) {
          GroundedStays(old(State()), State(), id, id);
          OneEntryPerSite(loading.ledger, R.QuotaReservation(id, plan.value.authority.uuid, plan.value.project), entry);
        }
        if entry.project == 0 || plan.value.authority.uuid != entry.uuid || plan.value.project != entry.project
           || plan.value.authority.daemon != env.daemon.value || plan.value.authority.state != root {
          return Unenrolled(false);
        }
      }
      return Enrolled(plan, entry);
    }

    /** The ownership file: created for a first plan on the filesystem, otherwise checked. */
    method OpenAuthority(id: string, tagging: bool, env: Env, e: Enrolled) returns (r: Identified)
      requires Valid() && GoodEnv(env) && e.Enrolled? && EnrolledFits(State(), id, tagging, root, env, e)
      modifies this`authorities
      ensures Valid() && Step(old(State()), State(), id)
      ensures IdentityFits(State(), id, tagging, r)
      ensures r.rest.killed == env.disk.killed
      ensures (env.disk.left >= 2 || e.plan.Some? || e.entry.uuid in old(authorities))
              && (if e.plan.Some? then Grounded(old(State()), id)
                  else OwnAuthority(old(State()), e.entry.uuid, env.daemon.value, root)) ==>
                r.Identity?
      ensures r.Identity? ==>
                r.rest.left == env.disk.left - if e.plan.None? && e.entry.uuid !in old(authorities) then 1 else 0
      ensures r.Identity? ==> r.entry == e.entry && r.plan == e.plan
    {
      hide HexString, R.Entries, R.Healthy, Step, R.WellFormedEntry;
      var authority: Authority;
      var daemon, uuid, b := env.daemon.value, e.entry.uuid, env.disk;
      StepReflexive(State(), id);
      if uuid !in authorities && e.plan.None? {
        authority := Authority(1, env.token, daemon, root, uuid, Pending);
        FirstOwner(State(), id, authority);
        EntryUUID(e.entry);
        var w := WriteOwner(authority, b);
        if !w.ok {
          return Unidentified(w.died, w.rest);
        }
        b := w.rest;
      } else {
        if uuid !in authorities || authorities[uuid].BadAuthority? {
          return Unidentified(false, b);
        }
        authority := authorities[uuid].authority;
        if !ValidAuthority(authority) || !(authority.phase.Pending? || authority.phase.Prepared?)
           || authority.daemon != daemon || authority.state != root || authority.uuid != uuid {
          return Unidentified(false, b);
        }
      }
      if e.plan.Some? && e.plan.value.authority.owner != authority.owner {
        return Unidentified(false, b);
      }
      return Identity(e.plan, authority, e.entry, b);
    }

    /** For a first plan, the launch guard and then the plan itself. */
    method Announce(id: string, tagging: bool, r: Identified) returns (plan: Plan, p: Progress)
      requires Valid() && r.Identity? && IdentityFits(State(), id, tagging, r)
      modifies this`plans, this`guards, registry
      ensures Valid() && Step(old(State()), State(), id)
      ensures p.rest.killed == r.rest.killed
      ensures p.Go? ==> PlanOf(State(), id) == Some(plan) && PlanFits(State(), id, tagging, r, plan)
      ensures PlanOf(old(State()), id).Some? ==>
                State() == old(State()) && p == Go(r.rest) && Some(plan) == PlanOf(old(State()), id)
      ensures PlanOf(old(State()), id).None? ==> (Orphaned(State(), id) <==> r.rest.left == 1)
      ensures r.rest.left >= 3 ==> p.Go? && p.rest.left + 2 >= r.rest.left
      ensures PlanOf(State(), id).Some? ==>
                Rank(PlanOf(State(), id).value.authority.phase) < 2 || State() == old(State())
    {
      hide Step, HexString, R.Healthy, Grounded, ValidAuthority, PlanFits, IdentityFits, PlanOf, Orphaned, Rank, Find;
      KnownPlanFits(State(), id, tagging, r);
      if r.plan.Some? {
        StepReflexive(State(), id);
        return r.plan.value, Go(r.rest);
      }
      plan := Plan(r.authority.(phase := Pending), id, r.entry.project);
      var guard := PendingGuard(r.entry.project, r.entry.uuid);
      FirstWrites(State(), id, tagging, r, plan);
      hide WithGuard, WithPlan;
      var w := WriteGuard(id, guard, r.rest);
      if w.ok {
        w := WritePlan(id, plan, w.rest);
      }
      p := if w.ok then Go(w.rest) else Stop(w.died, w.rest);
    }

    /** One durable write each. */
    method WriteGuard(id: string, guard: Guard, b: Budget) returns (w: Written)
      requires Valid()
      modifies this`guards, registry`marked
      ensures Valid() && w == Write(b)
      ensures State() == if w.applied then WithGuard(old(State()), id, guard) else old(State())
    {
      w := Write(b);
      if w.applied {
        guards := guards[id := GoodGuard(guard)];
        registry.marked := registry.marked + {id};
      }
    }

    method WritePlan(id: string, plan: Plan, b: Budget) returns (w: Written)
      requires Valid() && (id in guards || id in plans)
      modifies this`plans
      ensures Valid() && w == Write(b)
      ensures State() == if w.applied then WithPlan(old(State()), id, plan) else old(State())
    {
      w := Write(b);
      if w.applied {
        plans := plans[id := GoodPlan(plan)];
      }
    }

    method WriteOwner(a: Authority, b: Budget) returns (w: Written)
      requires Valid()
      modifies this`authorities
      ensures Valid() && w == Write(b)
      ensures State() == if w.applied then WithAuthority(old(State()), a) else old(State())
    {
      w := Write(b);
      if w.applied {
        authorities := authorities[a.uuid := GoodAuthority(a)];
      }
    }

    /** Fences the site and then looks at every possible writer. */
    method Isolate(id: string, env: Env, b: Budget) returns (p: Progress)
      requires Valid()
      modifies this`intents, this`log
      ensures Valid() && Step(old(State()), State(), id) && plans == old(plans)
      ensures Covered(old(log)) ==> Covered(log)
      ensures p.rest.killed == b.killed && (p.Stop? && p.died ==> b.killed)
      ensures p.Go? ==>
                log == old(log) + [Fence(id, true), Verified(id)] && Find(intents, id) == Some(Blocked) && Quiet(env)
      ensures p.Stop? && !p.died ==> exists clean :: log == old(log) + [Fence(id, clean)]
      ensures p.Stop? && p.died ==> log == old(log)
      ensures Quiet(env) && b.left >= 2 ==> p.Go? && p.rest.left + 1 >= b.left
    {
      hide Covered, Step, HexString;
      ghost var before := log;
      var clean, died, rest := FenceSite(id, env.fence, b);
      if !died && Covered(before) {
        CoveredAppend(before, Fence(id, clean));
      }
      if died || !clean {
        return Stop(died, rest);
      }
      if !env.compose || env.containers.None? {
        return Stop(false, rest);
      }
      var states := env.containers.value;
      for n := 0 to |states|
        invariant forall k | 0 <= k < n :: states[k].restartNo && states[k].idle
      {
        if !states[n].restartNo || !states[n].idle {
          return Stop(false, rest);
        }
      }
      if env.wordpressUsers != Some(false) || env.databaseUsers != Some(false) {
        return Stop(false, rest);
      }
      if Covered(before) {
        CoveredAppend(log, Verified(id));
      }
      log := log + [Verified(id)];
      return Go(rest);
    }

    /** Tagging needs the matching pending guard, and is announced on disk. */
    method StartTagging(id: string, plan: Plan, b: Budget) returns (p: Progress)
      requires Valid() && PlanOf(State(), id) == Some(plan) && !plan.authority.phase.Pending? && ValidPlan(plan, id)
      modifies this`plans
      ensures Valid() && Step(old(State()), State(), id) && PlanOf(State(), id).Some?
      ensures p.rest.killed == b.killed && (p.Stop? && p.died ==> b.killed)
      ensures p.Go? ==>
                && PlanOf(State(), id) == Some(Rephased(plan, Tagging))
                && Find(guards, id) == Some(GoodGuard(PendingGuard(plan.project, plan.authority.uuid)))
      ensures State() == old(State()) || State() == WithPlan(old(State()), id, Rephased(plan, Tagging))
      ensures b.left >= 2 && Find(guards, id) == Some(GoodGuard(PendingGuard(plan.project, plan.authority.uuid))) ==>
                p.Go? && p.rest.left + 1 >= b.left
    {
      StepReflexive(State(), id);
      if id !in guards || guards[id] != GoodGuard(PendingGuard(plan.project, plan.authority.uuid)) {
        return Stop(false, b);
      }
      PhaseWrite(State(), id, plan, Tagging);
      hide HexString, Step, SamePlan;
      var w := WritePlan(id, Rephased(plan, Tagging), b);
      return if w.ok then Go(w.rest) else Stop(w.died, w.rest);
    }

    /** Records a success: in the ownership file first, then in the plan. */
    method Record(id: string, tagging: bool, owner: Authority, plan: Plan, b: Budget) returns (p: Progress)
      requires Valid() && PlanOf(State(), id) == Some(plan)
      requires Find(authorities, owner.uuid) == Some(GoodAuthority(owner)) && Rank(owner.phase) < 2
      requires plan.authority.(phase := Pending) == owner.(phase := Pending)
      requires if tagging then plan.authority.phase.Tagging? else Rank(plan.authority.phase) < 2
      modifies this`plans, this`authorities
      ensures Valid() && Step(old(State()), State(), id) && PlanOf(State(), id).Some?
      ensures p.rest.killed == b.killed && (p.Stop? && p.died ==> b.killed)
      ensures var owned := WithAuthority(old(State()), owner.(phase := Prepared));
              var planned := WithPlan(owned, id, Rephased(plan, if tagging then Tagged else Prepared));
              (State() == old(State()) || State() == owned || State() == planned) && (p.Go? ==> State() == planned)
      ensures p.Go? ==> Completed(State(), id, tagging, R.QuotaReservation(id, owner.uuid, plan.project))
      ensures !tagging ==> Rank(PlanOf(State(), id).value.authority.phase) < 2
      ensures b.left >= 3 ==> p.Go?
    {
      var prepared, final := owner.(phase := Prepared), Rephased(plan, if tagging then Tagged else Prepared);
      RecordSteps(State(), id, tagging, owner, plan);
      hide HexString, Step, Completed, PlanOf, Rank, Rephased, WithAuthority, WithPlan, Find;
      var w := WriteOwner(prepared, b);
      if w.ok {
        w := WritePlan(id, final, w.rest);
      }
      return if w.ok then Go(w.rest) else Stop(w.died, w.rest);
    }

    /** Announces tagging, calls the native helper and records success. */
    method Perform(id: string, tagging: bool, env: Env, r: Identified, plan: Plan, b: Budget) returns (p: Progress)
      requires Valid() && r.Identity? && PlanOf(State(), id) == Some(plan) && PlanFits(State(), id, tagging, r, plan)
      requires r.entry.site == id && r.authority.uuid == r.entry.uuid
      requires |log| >= 2 && log[|log| - 1] == Verified(id) && log[|log| - 2] == Fence(id, true) && Covered(log)
      modifies this`plans, this`authorities, this`log
      ensures Valid() && Step(old(State()), State(), id) && Covered(log) && PlanOf(State(), id).Some?
      ensures log == old(log) || (|log| == |old(log)| + 1 && old(log) <= log && log[|old(log)|].Helper?)
      ensures p.rest.killed == b.killed && (p.Stop? && p.died ==> b.killed)
      ensures p.Go? ==> Completed(State(), id, tagging, r.entry)
      ensures !tagging ==> Rank(PlanOf(State(), id).value.authority.phase) < 2
      ensures && b.left >= 4 && env.helper == Reply(true, Expected(tagging))
              && (tagging ==> Find(guards, id) == Some(GoodGuard(PendingGuard(plan.project, plan.authority.uuid))))
              ==> p.Go?
    {
      hide HexString, Covered;
      var current, rest := plan, b;
      StepReflexive(State(), id);
      ghost var s0 := State();
      if tagging {
        p := StartTagging(id, plan, b);
        if p.Stop? {
          return;
        }
        current, rest := Rephased(plan, Tagging), p.rest;
      }
      ghost var s1 := State();
      hide Step;
      var call := Helper(id, tagging, tagging || current.authority.phase.Prepared?, current.authority.phase);
      CoveredHelper(log, call);
      log := log + [call];
      if env.helper != Reply(true, Expected(tagging)) {
        return Stop(false, rest);
      }
      p := Record(id, tagging, r.authority, current, rest);
      StepTransitive(s0, s1, State(), id);
    }

    /** Who the site is: its plan or a reservation, and the ownership file. */
    method Identify(id: string, tagging: bool, env: Env) returns (r: Identified)
      requires Valid() && GoodEnv(env)
      modifies this`authorities, registry
      ensures Valid() && Step(old(State()), State(), id) && IdentityFits(State(), id, tagging, r)
      ensures r.Identity? ==> r.rest.left + 1 >= env.disk.left
      ensures Admissible(old(State()), id, tagging, root, env) && env.disk.left >= 2 ==> r.Identity?
      ensures FirstRun(old(State()), id, tagging, root, env) ==>
                (r.Identity? && r.rest.left == 1
                 <==> env.disk.left == Halfway(old(State()), env.reserve.inventory.uuid))
    {
      ghost var s0 := State();
      var enrolled := Enroll(id, tagging, env);
      ghost var s1 := State();
      if enrolled.Unenrolled? {
        return Unidentified(enrolled.died, env.disk);
      }
      if Grounded(s0, id) {
        GroundedStays(s0, s1, id, id);
      }
      hide HexString, Step, Admissible;
      r := OpenAuthority(id, tagging, env, enrolled);
      StepTransitive(s0, s1, State(), id);
    }

    /** The same, and then the plan on disk. */
    method Establish(id: string, tagging: bool, env: Env) returns (r: Identified, plan: Plan, p: Progress)
      requires Valid() && GoodEnv(env)
      modifies this`plans, this`guards, this`authorities, registry
      ensures Valid() && Step(old(State()), State(), id)
      ensures p.Go? ==>
                && r.Identity? && r.entry.site == id && r.authority.uuid == r.entry.uuid
                && r.entry in R.Entries(State().ledger)
                && PlanOf(State(), id) == Some(plan) && PlanFits(State(), id, tagging, r, plan)
      ensures !tagging && PlanOf(State(), id) != PlanOf(old(State()), id) ==>
                Rank(PlanOf(State(), id).value.authority.phase) < 2
      ensures Admissible(old(State()), id, tagging, root, env) && env.disk.left >= 5 ==>
                p.Go? && p.rest.left + 3 >= env.disk.left
      ensures FirstRun(old(State()), id, tagging, root, env) ==>
                (Orphaned(State(), id) <==> env.disk.left == Halfway(old(State()), env.reserve.inventory.uuid))
    {
      ghost var s0 := State();
      plan := Plan(Authority(1, "", "", "", "", Pending), "", 0);
      hide HexString, Step, R.Entries;
      assert FirstRun(s0, id, tagging, root, env) ==> !Orphaned(s0, id) && PlanOf(s0, id).None?;
      hide Admissible;
      r := Identify(id, tagging, env);
      ghost var s1 := State();
      if r.Unidentified? {
        return r, plan, Stop(r.died, r.rest);
      }
      plan, p := Announce(id, tagging, r);
      StepTransitive(s0, s1, State(), id);
    }

    /** Behind the plan on disk: the fence, the inspection and the helper. */
    method Carry(id: string, tagging: bool, env: Env, r: Identified, plan: Plan, b: Budget) returns (p: Progress)
      requires Valid() && r.Identity? && PlanOf(State(), id) == Some(plan) && PlanFits(State(), id, tagging, r, plan)
      requires r.entry.site == id && r.authority.uuid == r.entry.uuid && Covered(log)
      modifies this`plans, this`authorities, this`intents, this`log
      ensures Valid() && Step(old(State()), State(), id) && Covered(log) && old(log) <= log
      ensures PlanOf(State(), id).Some? && (!tagging ==> Rank(PlanOf(State(), id).value.authority.phase) < 2)
      ensures p.Go? ==> Completed(State(), id, tagging, r.entry) && Find(intents, id) == Some(Blocked)
      ensures && b.left >= 5 && Quiet(env) && env.helper == Reply(true, Expected(tagging))
              && (tagging ==> Find(guards, id) == Some(GoodGuard(PendingGuard(plan.project, plan.authority.uuid))))
              ==> p.Go?
    {
      hide HexString, Covered, Step, R.Entries, Completed, Quiet, ValidPlan;
      ghost var s0 := State();
      p := Isolate(id, env, b);
      if p.Stop? {
        return;
      }
      ghost var s1 := State();
      p := Perform(id, tagging, env, r, plan, p.rest);
      StepTransitive(s0, s1, State(), id);
    }

    /** The whole transition without the deferred fence. */
    method Attempt(id: string, tagging: bool, env: Env) returns (p: Progress)
      requires Valid() && GoodEnv(env) && Covered(log)
      modifies this, registry
      ensures Valid() && Step(old(State()), State(), id) && Covered(log) && old(log) <= log
      ensures p.Go? ==> exists e :: e in R.Entries(State().ledger) && e.site == id && Completed(State(), id, tagging, e)
      ensures p.Go? ==> Find(intents, id) == Some(Blocked)
      ensures !tagging && PlanOf(State(), id) != PlanOf(old(State()), id) ==>
                Rank(PlanOf(State(), id).value.authority.phase) < 2
      ensures CanComplete(old(State()), id, tagging, root, env) ==> p.Go?
      ensures FirstRun(old(State()), id, tagging, root, env) ==>
                (Orphaned(State(), id) <==> env.disk.left == Halfway(old(State()), env.reserve.inventory.uuid))
    {
      hide HexString, Covered, Step, Admissible, R.Entries, ValidAuthority, Completed, Halfway, Quiet, PlanFits, Rank;
      ghost var s0 := State();
      var r, plan;
      r, plan, p := Establish(id, tagging, env);
      ghost var s1 := State();
      if p.Stop? {
        return;
      }
      if CanComplete(s0, id, tagging, root, env) && tagging {
        GuardIsThere(s0, s1, id, root, env, plan);
      }
      p := Carry(id, tagging, env, r, plan, p.rest);
      StepTransitive(s0, s1, State(), id);
      EntriesStay(s1, State(), id);
    }

    /** quotaDataTransition. Whatever goes wrong short of the process dying, the last thing it
        does is to fence the site with a blocked intent. */
    method Run(id: string, tagging: bool, env: Env) returns (o: Outcome)
      requires Valid() && GoodEnv(env) && Covered(log)
      modifies this, registry
      ensures Valid() && Step(old(State()), State(), id) && Covered(log) && old(log) <= log
      ensures o.Done? ==> exists e ::
                e in R.Entries(State().ledger) && e.site == id && Completed(State(), id, tagging, e)
      ensures o.Done? ==> Find(intents, id) == Some(Blocked)
      ensures o.Failed? && ValidID(id) ==> |log| > |old(log)| && log[|log| - 1].Fence? && log[|log| - 1].site == id
      ensures o.Failed? && ValidID(id) && log[|log| - 1].clean ==> Find(intents, id) == Some(Blocked)
      ensures !tagging && PlanOf(State(), id) != PlanOf(old(State()), id) ==>
                Rank(PlanOf(State(), id).value.authority.phase) < 2
      ensures ValidID(id) && CanComplete(old(State()), id, tagging, root, env) ==> o.Done?
      // A first run leaves an orphaned guard exactly if the disk fails right behind that write.
      ensures ValidID(id) && FirstRun(old(State()), id, tagging, root, env) ==>
                (Orphaned(State(), id) <==> env.disk.left == Halfway(old(State()), env.reserve.inventory.uuid))
    {
      StepReflexive(State(), id);
      hide HexString, Covered, Step;
      if !ValidID(id) {
        return Failed;
      }
      ghost var s0 := State();
      var p := Attempt(id, tagging, env);
      ghost var s1 := State();
      if p.Go? {
        return Done;
      }
      if p.died {
        return Died;
      }
      ghost var before := log;
      var clean, dead, rest := FenceSite(id, env.deferred, p.rest);
      StepTransitive(s0, s1, State(), id);
      if !dead {
        CoveredAppend(before, Fence(id, clean));
      }
      return if dead then Died else Failed;
    }
  }

  /** The first reservation of a site, or one with project 0 if there is none. */
  method FindEntry(r: seq<R.QuotaReservation>, id: string) returns (e: R.QuotaReservation)
    ensures e.project != 0 ==> e in r && e.site == id
    ensures (forall x | x in r :: R.WellFormedEntry(x)) && (exists x :: x in r && x.site == id) ==> e.project != 0
  {
    for n := 0 to |r|
      invariant forall k | 0 <= k < n :: r[k].site != id
    {
      if r[n].site == id {
        return r[n];
      }
    }
    return R.QuotaReservation(id, "", 0);
  }

  // ---- Histories: any operations on any sites, each run cut off anywhere ----

  /** A run; a new site; a site's directory removed; or the supervisor changing an intent. */
  datatype Move = Run | Create | Delete | Supervise

  predicate CreateSite(a: Store, b: Store, id: string) {
    b == a.(ledger := a.ledger.(sites := a.ledger.sites + {id}))
  }

  /** The site's directory goes with everything in it; ledger and ownership file lie outside. */
  predicate DeleteSite(a: Store, b: Store, id: string) {
    b == a.(plans := a.plans - {id}, guards := a.guards - {id}, intents := a.intents - {id},
            ledger := a.ledger.(sites := a.ledger.sites - {id}, marked := a.ledger.marked - {id}))
  }

  predicate SuperviseSite(a: Store, b: Store, id: string) {
    b == a.(intents := b.intents) && b.intents - {id} == a.intents - {id}
  }

  ghost predicate Moved(a: Store, b: Store, id: string, m: Move) {
    match m
    case Run => Step(a, b, id)
    case Create => CreateSite(a, b, id)
    case Delete => DeleteSite(a, b, id)
    case Supervise => SuperviseSite(a, b, id)
  }

  ghost predicate History(stores: seq<Store>, actors: seq<string>, moves: seq<Move>) {
    && |stores| == |actors| + 1 == |moves| + 1
    && stores[0].plans == map[] && stores[0].guards == map[] && stores[0].ledger.marked == {}
    && R.Healthy(stores[0].ledger)
    && forall k | 0 <= k < |actors| :: Moved(stores[k], stores[k + 1], actors[k], moves[k])
  }

  /** The site is not deleted from state i up to state k. */
  predicate Kept(actors: seq<string>, moves: seq<Move>, id: string, i: nat, k: nat)
    requires |actors| == |moves| && k <= |actors|
  {
    forall m | i <= m < k :: !(moves[m].Delete? && actors[m] == id)
  }

  lemma OneRun(a: Store, b: Store, id: string, actor: string)
    requires Step(a, b, actor)
    ensures PlanStep(Find(a.plans, id), Find(b.plans, id)) && GuardStep(Find(a.guards, id), Find(b.guards, id))
    ensures id !in a.plans && id in b.plans ==> id !in a.guards && Grounded(b, id)
  {
    if actor != id {
      assert Find(a.plans, id) == Find(a.plans - {actor}, id) && Find(b.plans, id) == Find(b.plans - {actor}, id);
      assert Find(a.guards, id) == Find(a.guards - {actor}, id) && Find(b.guards, id) == Find(b.guards - {actor}, id);
    }
    hide LedgerStep, Grounded;
  }

  lemma OneMove(a: Store, b: Store, id: string, actor: string, m: Move)
    requires Moved(a, b, actor, m)
    ensures !(m.Delete? && actor == id) ==>
              && PlanStep(Find(a.plans, id), Find(b.plans, id)) && GuardStep(Find(a.guards, id), Find(b.guards, id))
              && (id !in a.plans && id in b.plans ==> id !in a.guards && Grounded(b, id))
    ensures m.Delete? && actor == id ==> id !in b.plans && id !in b.guards
    ensures R.Healthy(a.ledger) ==> R.Healthy(b.ledger)
    ensures R.Entries(a.ledger) <= R.Entries(b.ledger)
    ensures Synced(a) ==> Synced(b)
    ensures forall u | u in a.authorities :: u in b.authorities && AuthorityStep(a.authorities[u], b.authorities[u])
  {
    if m.Run? {
      OneRun(a, b, id, actor);
      assert LedgerStep(a.ledger, b.ledger);
    }
    hide Grounded, R.ValidLedger;
  }

  /** No move takes the ground from a plan that it leaves. */
  lemma MoveKeepsGrounded(a: Store, b: Store, id: string, actor: string, m: Move)
    requires Moved(a, b, actor, m) && Grounded(a, id) && id in b.plans
    ensures Grounded(b, id)
  {
    hide ValidAuthority, LedgerStep;
    if m.Run? {
      GroundedStays(a, b, id, actor);
    }
  }

  /** Over every history a stored plan keeps its identity, and its phase never returns from
      tagging or tagged to pending or prepared, nor from prepared to pending, until the site is
      deleted. */
  lemma {:induction false} PlansOnlyAdvance(stores: seq<Store>, actors: seq<string>, moves: seq<Move>, id: string,
                                            i: nat, k: nat)
    requires History(stores, actors, moves) && i <= k < |stores| && PlanOf(stores[i], id).Some?
    requires Kept(actors, moves, id, i, k)
    ensures PlanOf(stores[k], id).Some?
    ensures SamePlan(PlanOf(stores[i], id).value, PlanOf(stores[k], id).value)
    ensures Rank(PlanOf(stores[i], id).value.authority.phase) <= Rank(PlanOf(stores[k], id).value.authority.phase)
    decreases k
  {
    if i < k {
      PlansOnlyAdvance(stores, actors, moves, id, i, k - 1);
      OneMove(stores[k - 1], stores[k], id, actors[k - 1], moves[k - 1]);
    }
  }

  predicate PendingGuards(s: Store) {
    forall id | id in s.guards ::
      s.guards[id].GoodGuard? && s.guards[id].guard.phase.Waiting? && s.guards[id].guard.hard == 0
  }

  /** Every plan agrees with the ledger, the ownership file and its guard, and every guard is
      still the pending one: no transition ever makes a guard ready. */
  lemma {:induction false} EveryPlanIsGrounded(stores: seq<Store>, actors: seq<string>, moves: seq<Move>, k: nat)
    requires History(stores, actors, moves) && k < |stores|
    ensures forall id | id in stores[k].plans :: Grounded(stores[k], id)
    ensures PendingGuards(stores[k]) && R.Healthy(stores[k].ledger) && Synced(stores[k])
    decreases k
  {
    if k > 0 {
      var a, b, actor, m := stores[k - 1], stores[k], actors[k - 1], moves[k - 1];
      EveryPlanIsGrounded(stores, actors, moves, k - 1);
      assert Moved(a, b, actor, m);
      OneMove(a, b, actor, actor, m);
      hide Moved, Grounded, R.Healthy, Synced;
      forall id | id in b.plans
        ensures Grounded(b, id)
      {
        OneMove(a, b, id, actor, m);
        if id in a.plans {
          MoveKeepsGrounded(a, b, id, actor, m);
        }
      }
      forall id | id in b.guards
        ensures b.guards[id].GoodGuard? && b.guards[id].guard.phase.Waiting? && b.guards[id].guard.hard == 0
      {
        OneMove(a, b, id, actor, m);
        assert id in a.guards ==> Find(b.guards, id) == Some(a.guards[id]);
      }
    }
  }

  /** Plans on one filesystem share one owner and daemon, and never a project. */
  lemma PlansShareOwnersNotProjects(stores: seq<Store>, actors: seq<string>, moves: seq<Move>, k: nat,
                                    x: string, y: string)
    requires History(stores, actors, moves) && k < |stores| && x in stores[k].plans && y in stores[k].plans
    ensures PlanOf(stores[k], x).Some? && PlanOf(stores[k], y).Some?
    ensures var p, q := PlanOf(stores[k], x).value, PlanOf(stores[k], y).value;
            p.authority.uuid == q.authority.uuid ==>
              && p.authority.(phase := Pending) == q.authority.(phase := Pending)
              && (x != y ==> p.project != q.project)
  {
    EveryPlanIsGrounded(stores, actors, moves, k);
    var s := stores[k];
    assert Grounded(s, x) && Grounded(s, y);
    var p, q := s.plans[x].plan, s.plans[y].plan;
    if p.authority.uuid == q.authority.uuid && x != y {
      DistinctProjects(s.ledger, R.QuotaReservation(x, p.authority.uuid, p.project),
                       R.QuotaReservation(y, q.authority.uuid, q.project));
    }
  }

  lemma DistinctProjects(s: R.Store, e: R.QuotaReservation, f: R.QuotaReservation)
    requires R.Healthy(s) && e in R.Entries(s) && f in R.Entries(s) && e.site != f.site && e.uuid == f.uuid
    ensures e.project != f.project
  {
    var r := R.Entries(s);
    var i :| 0 <= i < |r| && r[i] == e;
    var j :| 0 <= j < |r| && r[j] == f;
    assert R.ConflictFree(r);
  }

  /** What lies outside the sites' directories persists: reservations, and the identity of an
      ownership file. */
  lemma {:induction false} OwnersPersist(stores: seq<Store>, actors: seq<string>, moves: seq<Move>, u: string,
                                         i: nat, k: nat)
    requires History(stores, actors, moves) && i <= k < |stores|
    requires u in stores[i].authorities && stores[i].authorities[u].GoodAuthority?
    ensures R.Entries(stores[i].ledger) <= R.Entries(stores[k].ledger)
    ensures u in stores[k].authorities && stores[k].authorities[u].GoodAuthority?
    ensures stores[k].authorities[u].authority.(phase := Pending) ==
            stores[i].authorities[u].authority.(phase := Pending)
    decreases k
  {
    if i < k {
      OwnersPersist(stores, actors, moves, u, i, k - 1);
      OneMove(stores[k - 1], stores[k], "", actors[k - 1], moves[k - 1]);
    }
  }

  /** A site that is deleted, created again and planned again gets the identity it had: owner,
      daemon, filesystem and project outlive its directory. */
  lemma IdentityOutlivesDeletion(stores: seq<Store>, actors: seq<string>, moves: seq<Move>, id: string, i: nat, k: nat)
    requires History(stores, actors, moves) && i <= k < |stores|
    requires id in stores[i].plans && id in stores[k].plans
    ensures PlanOf(stores[i], id).Some? && PlanOf(stores[k], id).Some?
    ensures SamePlan(PlanOf(stores[i], id).value, PlanOf(stores[k], id).value)
  {
    EveryPlanIsGrounded(stores, actors, moves, i);
    EveryPlanIsGrounded(stores, actors, moves, k);
    assert Grounded(stores[i], id) && Grounded(stores[k], id);
    var p, q := stores[i].plans[id].plan, stores[k].plans[id].plan;
    OwnersPersist(stores, actors, moves, p.authority.uuid, i, k);
    var e, f := R.QuotaReservation(id, p.authority.uuid, p.project),
      R.QuotaReservation(id, q.authority.uuid, q.project);
    assert stores[k].ledger.ledger.Stored? && R.ValidLedger(stores[k].ledger.ledger.ledger);
    hide History, R.ValidLedger, ValidAuthority;
    PrefixMember(R.Entries(stores[i].ledger), R.Entries(stores[k].ledger), e);
    OneEntryPerSite(stores[k].ledger.ledger.ledger, e, f);
  }

  lemma PrefixMember<T>(a: seq<T>, b: seq<T>, x: T)
    requires a <= b && x in a
    ensures x in b
  {
    var i :| 0 <= i < |a| && a[i] == x;
    assert b[i] == x;
  }

  /** Recovery stays open: wherever the earlier runs were cut off, a site with a plan can be
      prepared or tagged again by one run with working storage, Docker and helper. */
  lemma RecoveryStaysOpen(stores: seq<Store>, actors: seq<string>, moves: seq<Move>, k: nat, id: string,
                          root: string, env: Env)
    requires History(stores, actors, moves) && k < |stores| && id in stores[k].plans
    requires env.rootOk && !env.lock.lockFails && env.daemon.Some?
    requires PlanOf(stores[k], id).Some? ==>
               && PlanOf(stores[k], id).value.authority.daemon == env.daemon.value
               && PlanOf(stores[k], id).value.authority.state == root
    ensures PlanOf(stores[k], id).Some?
    ensures var phase := PlanOf(stores[k], id).value.authority.phase;
            && (Admissible(stores[k], id, true, root, env) <==> !phase.Pending?)
            && (Admissible(stores[k], id, false, root, env) <==> phase.Pending? || phase.Prepared?)
  {
    EveryPlanIsGrounded(stores, actors, moves, k);
    var s := stores[k];
    assert Grounded(s, id) && R.Loadable(s.ledger);
  }

  /** A crash between the two first writes leaves a guard without a plan. No later run ever
      gives that site a plan, because the reservation refuses a marked site; only deleting the
      site ends it. */
  lemma {:induction false} OrphanedGuardIsPermanent(stores: seq<Store>, actors: seq<string>, moves: seq<Move>,
                                                    id: string, i: nat, k: nat)
    requires History(stores, actors, moves) && i <= k < |stores| && Orphaned(stores[i], id)
    requires Kept(actors, moves, id, i, k)
    ensures Orphaned(stores[k], id)
    decreases k
  {
    if i < k {
      OrphanedGuardIsPermanent(stores, actors, moves, id, i, k - 1);
      OneMove(stores[k - 1], stores[k], id, actors[k - 1], moves[k - 1]);
    }
  }

  /** Whatever a run for an orphaned guard meets, and wherever it stops, no plan results. */
  lemma OrphansGetNoPlan(s: Store, t: Store, id: string)
    requires Orphaned(s, id) && Step(s, t, id)
    ensures Orphaned(t, id) && PlanOf(t, id).None?
  {
    OneRun(s, t, id, id);
    hide Grounded;
  }

  /** A step to completion from a site with a plan: by preparing again, or by tagging. */
  lemma PlansCanComplete(s: Store, id: string) returns (t: Store, tagging: bool, e: R.QuotaReservation)
    requires Grounded(s, id)
    ensures Step(s, t, id) && Completed(t, id, tagging, e)
  {
    var p := s.plans[id].plan;
    var owner := s.authorities[p.authority.uuid].authority;
    assert owner.(phase := Pending) == p.authority.(phase := Pending) && owner.uuid == p.authority.uuid;
    assert Rank(owner.phase) < 2 && PlanOf(s, id) == Some(p) && !p.authority.phase.OtherPhase?;
    e := R.QuotaReservation(id, owner.uuid, p.project);
    var prepared := owner.(phase := Prepared);
    hide Step, Completed, Grounded, ValidPlan;
    if Rank(p.authority.phase) < 2 {
      tagging, t := false, WithPlan(WithAuthority(s, prepared), id, Rephased(p, Prepared));
      RecordSteps(s, id, false, owner, p);
    } else {
      var q := Rephased(p, Tagging);
      var u := WithPlan(s, id, q);
      PhaseWrite(s, id, p, Tagging);
      tagging, t := true, WithPlan(WithAuthority(u, prepared), id, Rephased(q, Tagged));
      RecordSteps(u, id, true, owner, q);
      StepTransitive(s, u, t, id);
    }
  }

  /** Whether some run for the site, under whatever circumstances, could end completed. */
  ghost predicate Completable(s: Store, id: string) {
    exists t, tagging, e :: Step(s, t, id) && Completed(t, id, tagging, e)
  }

  /** In every reachable state a marked site either has a plan or an orphaned guard. A run can
      complete exactly in the first case, and then there are circumstances in which it does; in
      the second no run completes. */
  lemma MarkedSitesRecoverByTheirPlan(stores: seq<Store>, actors: seq<string>, moves: seq<Move>, k: nat, id: string)
    requires History(stores, actors, moves) && k < |stores| && id in stores[k].ledger.marked
    ensures id in stores[k].plans <==> !Orphaned(stores[k], id)
    ensures Completable(stores[k], id) <==> id in stores[k].plans
    ensures (exists tagging, root, env :: GoodEnv(env) && CanComplete(stores[k], id, tagging, root, env)) <==>
            id in stores[k].plans
  {
    EveryPlanIsGrounded(stores, actors, moves, k);
    var s := stores[k];
    hide Step, R.Healthy;
    if id in s.plans {
      var p := s.plans[id].plan;
      assert Grounded(s, id);
      var tagging := !p.authority.phase.Pending?;
      var env := Favourable(p.authority.daemon, p.authority.uuid, tagging);
      RecoveryStaysOpen(stores, actors, moves, k, id, p.authority.state, env);
      assert CanComplete(s, id, tagging, p.authority.state, env);
      hide Admissible, CanComplete, Completed, Grounded;
      var t, mode, e := PlansCanComplete(s, id);
    } else {
      assert PlanOf(s, id).None?;
      forall t | Step(s, t, id)
        ensures PlanOf(t, id).None?
      {
        OrphansGetNoPlan(s, t, id);
      }
    }
  }

  /** Everything answers as it should. */
  function Favourable(daemon: string, token: string, tagging: bool): Env {
    var disk := Budget(8, false, false);
    var registry := R.Env(false, false, R.Inventory(true, "", 0, 0, 0, false, []), disk);
    Env(true, Some(daemon), registry, registry, token, true, true, Some([]), Some(false), Some(false),
        Reply(true, Expected(tagging)), true, disk)
  }

  /** A concrete history that ends with an orphaned guard: the reservation, the ownership file
      and the guard are written, and then the run stops. */
  lemma OrphanedGuardIsReachable(id: string, uuid: string, owner: Authority)
    requires ValidID(id) && ValidAuthority(owner) && owner.uuid == uuid && owner.phase.Pending?
    ensures var entry := R.QuotaReservation(id, uuid, R.FIRST_PROJECT);
            var ledger := R.Store(true, R.Stored(R.Ledger(1, true, [entry])), R.Initialized, {id}, {});
            var a := Store(map[], map[], map[], map[], R.Store(false, R.NoLedger, R.NoSentinel, {id}, {}));
            var b := Store(map[], map[], map[uuid := GoodAuthority(owner)], map[], ledger);
            var c := WithGuard(b, id, PendingGuard(entry.project, uuid));
            History([a, b, c], [id, id], [Run, Run]) && Orphaned(c, id)
  {
    var entry := R.QuotaReservation(id, uuid, R.FIRST_PROJECT);
    var ledger := R.Store(true, R.Stored(R.Ledger(1, true, [entry])), R.Initialized, {id}, {});
    var a := Store(map[], map[], map[], map[], R.Store(false, R.NoLedger, R.NoSentinel, {id}, {}));
    var b := Store(map[], map[], map[uuid := GoodAuthority(owner)], map[], ledger);
    var c := WithGuard(b, id, PendingGuard(entry.project, uuid));
    assert Step(a, b, id);
    assert Step(b, c, id) by {
      assert c.guards - {id} == b.guards - {id};
    }
  }
}
