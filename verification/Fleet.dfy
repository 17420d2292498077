/**
 Runs over a host (cmd/panel/main.go, cmd/panel/resources.go, cmd/worker/resources.go): the
 panel creates, retries, changes, starts and deletes sites in any order, every operation may
 stop anywhere, and the memory budget fits throughout. What makes it so is the panel's record:
 until a site is installed nothing but its recorded limit was ever asked for, so a retried
 creation never straddles; afterwards the worker compares limits before it changes them.
 */
module Fleets {
  import opened Common
  import opened Capacity
  import R = Receipts
  import S = SiteStatus

  /** The panel's record: the limit it asks for, and whether the site has left the states
      "creating" and "failed", from which creation is retried. */
  datatype Record = Record(memory: nat, installed: bool)

  datatype Fleet = Fleet(host: Host, records: map<string, Record>)

  datatype Move =
    | Create(memory: nat) | Retry | Change(memory: nat) | Recreate | Delete
    | Refresh | Settle | Drift

  /** Both containers have exactly the configured limit, as the runtime check before a change
      requires. */
  predicate AsConfigured(h: Host, site: string) {
    site in h.configs && forall db :: LiveOf(h, Name(site, db)) == h.configs[site]
  }

  /** The host's limits are those the inspection reports of the site. */
  predicate Inspected(h: Host, v: S.Findings) {
    v.inspected.Some? ==>
      forall db :: var cs := v.inspected.value;
                   var c := S.LatestOf(cs, |cs|, v.id, db);
                   c.Some? && c.value.memory >= 0 ==>
                     Name(v.id, db) in h.live && h.live[Name(v.id, db)] == c.value.memory
  }

  /** What the check before a change sees: a configured site that is shown as running or stopped
      has exactly its configured limits. */
  lemma LiveSitesAreAsConfigured(h: Host, v: S.Findings, limits: R.Limits, status: R.Status)
    requires S.Shows(v, Some(limits), status) && !status.Unhealthy? && Inspected(h, v)
    requires v.id in h.configs && h.configs[v.id] == limits.memory
    ensures AsConfigured(h, v.id)
  {
    S.LiveMeansInOrder(v, Some(limits), status);
    forall db: bool
      ensures LiveOf(h, Name(v.id, db)) == h.configs[v.id]
    {
      var cs := v.inspected.value;
      var c := S.LatestOf(cs, |cs|, v.id, db);
      assert S.Limited(c.value, limits);
      WholeMib(limits.memory);
    }
  }

  /** Nothing of the site exists yet. */
  predicate Unknown(h: Host, site: string) {
    site !in h.configs && forall db :: Name(site, db) !in h.live
  }

  /** The worker's part of a request of r, wherever it stops: refused without effect, or admitted. */
  ghost predicate Requested(a: Host, b: Host, site: string, r: nat) {
    b == a || (Check(Seen(a, site), r) && Passing(a, b, site, r))
  }

  /** A deletion, wherever it stops: containers go first, then the configuration. */
  ghost predicate Removing(a: Host, b: Host, site: string) {
    && SameOthers(a, b, site)
    && (ConfigOf(b, site) == ConfigOf(a, site) || ConfigOf(b, site) == 0)
    && forall db :: LiveOf(b, Name(site, db)) == LiveOf(a, Name(site, db)) || LiveOf(b, Name(site, db)) == 0
  }

  /** One operation of the panel on one site, or a check, or a change outside the panel. */
  ghost predicate Step(a: Fleet, b: Fleet, site: string, m: Move) {
    match m
    case Create(r) =>
      && site !in a.records && Unknown(a.host, site)
      && b.records == a.records[site := Record(r, false)] && Requested(a.host, b.host, site, r)
    case Retry =>
      && site in a.records && !a.records[site].installed
      && b.records == a.records && Requested(a.host, b.host, site, a.records[site].memory)
    case Change(r) =>
      && site in a.records && a.records[site].installed
      && (b.records == a.records || b.records == a.records[site := Record(r, true)])
      && Requested(a.host, b.host, site, r) && (b.host != a.host ==> AsConfigured(a.host, site))
    case Recreate =>
      b.records == a.records && Passing(a.host, b.host, site, ConfigOf(a.host, site))
    case Delete =>
      && Removing(a.host, b.host, site)
      && (b.records == a.records || (b.records == a.records - {site} && Unknown(b.host, site)))
    case Refresh =>
      && b.host == a.host && site in a.records && site in a.host.configs && ValidMemory(a.host.configs[site])
      && b.records == a.records[site := a.records[site].(memory := a.host.configs[site])]
    case Settle =>
      && b.host == a.host && site in a.records
      && b.records == a.records[site := a.records[site].(installed := true)]
    case Drift =>
      && b.records == a.records && b.host.configs == a.host.configs && b.host.live == a.host.live && Fits(b.host)
  }

  /** The site has no other limits than this one. */
  predicate Only(h: Host, site: string, r: nat) {
    && (site in h.configs ==> h.configs[site] == 0 || h.configs[site] == r)
    && forall db :: LiveOf(h, Name(site, db)) == 0 || LiveOf(h, Name(site, db)) == r
  }

  /** A site that is not installed has no limits but the one its record asks for. */
  ghost predicate Recorded(f: Fleet) {
    forall s | s in f.records && !f.records[s].installed :: Only(f.host, s, f.records[s].memory)
  }

  lemma OthersStay(a: Host, b: Host, site: string, s: string, r: nat)
    requires SameOthers(a, b, site) && s != site && Only(a, s, r)
    ensures Only(b, s, r)
  {
    assert forall db :: LiveOf(b, Name(s, db)) == LiveOf(a, Name(s, db));
  }

  lemma SameLimits(a: Host, b: Host, s: string, r: nat)
    requires b.configs == a.configs && b.live == a.live && Only(a, s, r)
    ensures Only(b, s, r)
  {
    assert forall db :: LiveOf(b, Name(s, db)) == LiveOf(a, Name(s, db));
  }

  /** Passing a request for the only limit leaves it the only one. */
  lemma PassingKeepsOnly(a: Host, b: Host, site: string, r: nat, k: nat)
    requires Passing(a, b, site, k) && Only(a, site, r) && (k == r || k == 0)
    ensures Only(b, site, r)
  {
    hide SameOthers, LiveOf;
    forall db: bool
      ensures LiveOf(b, Name(site, db)) == 0 || LiveOf(b, Name(site, db)) == r
    {
      assert LiveOf(a, Name(site, db)) == 0 || LiveOf(a, Name(site, db)) == r;
      if db {
      } else {
      }
    }
  }

  lemma RemovingKeepsOnly(a: Host, b: Host, site: string, r: nat)
    requires Removing(a, b, site) && Only(a, site, r)
    ensures Only(b, site, r)
  {
    hide SameOthers, LiveOf;
    assert forall db :: LiveOf(a, Name(site, db)) == 0 || LiveOf(a, Name(site, db)) == r;
  }

  /** The records stay true of the host. */
  lemma StepKeepsRecorded(a: Fleet, b: Fleet, site: string, m: Move)
    requires Recorded(a) && Step(a, b, site, m)
    ensures Recorded(b)
  {
    hide LiveOf, SameOthers, Fits, Check, Passing, Removing, Only;
    forall s | s in b.records && !b.records[s].installed
      ensures Only(b.host, s, b.records[s].memory)
    {
      if s != site {
        OtherSiteStays(a, b, site, m, s);
      } else {
        ThisSiteStays(a, b, site, m);
      }
    }
  }

  lemma OtherSiteStays(a: Fleet, b: Fleet, site: string, m: Move, s: string)
    requires Recorded(a) && Step(a, b, site, m) && s != site && s in b.records && !b.records[s].installed
    ensures Only(b.host, s, b.records[s].memory)
  {
    hide LiveOf, SameOthers, Fits, Check, Only;
    assert s in a.records && a.records[s] == b.records[s];
    if m.Drift? || b.host == a.host {
      SameLimits(a.host, b.host, s, a.records[s].memory);
    } else {
      OthersStay(a.host, b.host, site, s, a.records[s].memory);
    }
  }

  lemma ThisSiteStays(a: Fleet, b: Fleet, site: string, m: Move)
    requires Recorded(a) && Step(a, b, site, m) && site in b.records && !b.records[site].installed
    ensures Only(b.host, site, b.records[site].memory)
  {
    hide SameOthers, Fits, Check, Passing, Removing;
    var r := b.records[site].memory;
    match m
    case Create(k) =>
      assert Only(a.host, site, r);
      if b.host != a.host {
        PassingKeepsOnly(a.host, b.host, site, r, r);
      }
    case Retry =>
      if b.host != a.host {
        PassingKeepsOnly(a.host, b.host, site, r, r);
      }
    case Change(k) =>
      assert false;
    case Recreate =>
      PassingKeepsOnly(a.host, b.host, site, r, ConfigOf(a.host, site));
    case Delete =>
      RemovingKeepsOnly(a.host, b.host, site, r);
    case Refresh =>
      assert Only(a.host, site, a.records[site].memory);
    case Settle =>
      assert false;
    case Drift =>
      SameLimits(a.host, b.host, site, r);
  }

  /** Where nothing but the request is there, nothing straddles it. */
  lemma OnlyNeverStraddles(h: Host, site: string, r: nat)
    requires Only(h, site, r)
    ensures !Straddles(ConfigOf(h, site), r, LiveOf(h, Name(site, false)), LiveOf(h, Name(site, true)))
  {
  }

  lemma RequestedFits(a: Host, b: Host, site: string, r: nat)
    requires Fits(a) && Requested(a, b, site, r) && (b != a ==> Only(a, site, r) || AsConfigured(a, site))
    ensures Fits(b)
  {
    hide Fits, Check, Passing;
    if b != a {
      if Only(a, site, r) {
        OnlyNeverStraddles(a, site, r);
        AdmittedRequestFits(a, b, site, r);
      } else {
        AdmittedChangeFits(a, b, site, r);
      }
    }
  }

  lemma RemovingFits(a: Host, b: Host, site: string)
    requires Fits(a) && Removing(a, b, site)
    ensures Fits(b)
  {
    FitsBySite(a, a, site);
    FitsBySite(a, b, site);
  }

  /** No operation breaks the budget, wherever it stops. */
  lemma StepKeepsFits(a: Fleet, b: Fleet, site: string, m: Move)
    requires Fits(a.host) && Recorded(a) && Step(a, b, site, m)
    ensures Fits(b.host)
  {
    hide Fits, Check, Passing, Removing, SameOthers;
    match m
    case Create(r) =>
      RequestedFits(a.host, b.host, site, r);
    case Retry =>
      RequestedFits(a.host, b.host, site, a.records[site].memory);
    case Change(r) =>
      RequestedFits(a.host, b.host, site, r);
    case Recreate =>
      RecreatedFits(a.host, b.host, site);
    case Delete =>
      RemovingFits(a.host, b.host, site);
    case Refresh =>
    case Settle =>
    case Drift =>
  }

  lemma RecreatedFits(a: Host, b: Host, site: string)
    requires Fits(a) && Passing(a, b, site, ConfigOf(a, site))
    ensures Fits(b)
  {
    FitsBySite(a, a, site);
    FitsBySite(a, b, site);
  }

  ghost predicate History(fs: seq<Fleet>, sites: seq<string>, moves: seq<Move>) {
    && |fs| == |sites| + 1 == |moves| + 1
    && forall k | 0 <= k < |sites| :: Step(fs[k], fs[k + 1], sites[k], moves[k])
  }

  /** Whatever the panel does in whatever order, and wherever each operation stops: the memory
      budget fits at every point, and no retried creation ever straddles. */
  lemma {:induction false} BudgetIsKept(fs: seq<Fleet>, sites: seq<string>, moves: seq<Move>, n: nat)
    requires History(fs, sites, moves) && n < |fs|
    requires Fits(fs[0].host) && Recorded(fs[0])
    ensures Fits(fs[n].host) && Recorded(fs[n])
    decreases n
  {
    hide Fits, Step, Recorded;
    if n > 0 {
      BudgetIsKept(fs, sites, moves, n - 1);
      StepKeepsRecorded(fs[n - 1], fs[n], sites[n - 1], moves[n - 1]);
      StepKeepsFits(fs[n - 1], fs[n], sites[n - 1], moves[n - 1]);
    }
  }

  /** On a host that starts without sites the two conditions of the first state hold. */
  lemma EmptyHostFits(f: Fleet)
    requires f.records == map[] && f.host.configs == map[] && f.host.live == map[]
    requires Reserve(f.host.memory) + f.host.other <= f.host.memory
    ensures Fits(f.host) && Recorded(f)
  {
    assert Claims(f.host, None) == map[];
  }
}
