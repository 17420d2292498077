/**
 Memory admission (cmd/worker/resources.go, internal/core/resources.go): what the host counts
 as promised, and why admitted creations and changes keep the promise, also across a crash
 between the new configuration and the recreation of its containers.
 */
module Capacity {
  import opened Common

  const MIB: int := 1048576

  /** A managed container: WordPress or database of a site. */
  datatype Name = Name(site: string, db: bool)

  /** Limits by configuration (MiB, both containers of a site) and of existing containers
      (bytes), and what everything else uses. */
  datatype Host = Host(memory: int, configs: map<string, nat>, live: map<Name, nat>, other: nat)

  function Max(a: int, b: int): int {
    if a < b then b else a
  }

  /** Bytes rounded up to whole MiB. */
  function RoundUp(bytes: nat): nat {
    (bytes + MIB - 1) / MIB
  }

  function ConfigOf(h: Host, site: string): nat {
    if site in h.configs then h.configs[site] else 0
  }

  function LiveOf(h: Host, n: Name): nat {
    if n in h.live then RoundUp(h.live[n]) else 0
  }

  /** What one container may take: its configuration, or a larger limit it still has. */
  function Claim(h: Host, n: Name): nat {
    Max(ConfigOf(h, n.site), LiveOf(h, n))
  }

  function Names(h: Host): set<Name> {
    (set s | s in h.configs :: Name(s, false)) + (set s | s in h.configs :: Name(s, true)) + h.live.Keys
  }

  /** Claims of all containers but those of one site. */
  function Claims(h: Host, exclude: Option<string>): map<Name, nat> {
    map n | n in Names(h) && exclude != Some(n.site) :: Claim(h, n)
  }

  ghost function Total(m: map<Name, nat>): nat {
    if m == map[] then 0
    else
      var k :| k in m;
      m[k] + Total(m - {k})
  }

  lemma {:induction false} TotalRemove(m: map<Name, nat>, k: Name)
    requires k in m
    ensures Total(m) == m[k] + Total(m - {k})
  {
    var j :| j in m && Total(m) == m[j] + Total(m - {j});
    if j != k {
      TotalRemove(m - {j}, k);
      TotalRemove(m - {k}, j);
      assert m - {j} - {k} == m - {k} - {j};
    }
  }

  function Reserve(memory: int): int {
    Max(512 * MIB, memory / 5)
  }

  /** The budget: all claims, the host's reserve and everything else fit into memory. */
  ghost predicate Fits(h: Host) {
    Total(Claims(h, None)) * MIB + Reserve(h.memory) + h.other <= h.memory
  }

  // ---- Admission ----

  datatype HostCapacity = HostCapacity(memory: int, kept: int, granted: int, other: int)

  function Available(c: HostCapacity): int {
    Max(0, c.memory - c.kept - c.granted - c.other)
  }

  predicate ValidMemory(r: int) { 256 <= r <= 8192 }

  /** HostCapacity.Check for memory: both containers of the site must fit. */
  predicate Check(c: HostCapacity, r: int) {
    ValidMemory(r) && c.memory > 0 && r * 2 * MIB <= Available(c)
  }

  /** What hostCapacity reports of a host for a change of one site. */
  ghost function Seen(h: Host, site: string): HostCapacity {
    HostCapacity(h.memory, Reserve(h.memory), Total(Claims(h, Some(site))) * MIB, h.other)
  }

  /** One site's claims next to those of all others. */
  lemma TotalSplits(h: Host, site: string)
    ensures Total(Claims(h, None)) ==
            Total(Claims(h, Some(site))) + Claim(h, Name(site, false)) + Claim(h, Name(site, true))
  {
    var all, rest := Claims(h, None), Claims(h, Some(site));
    var wp, db := Name(site, false), Name(site, true);
    UnnamedClaimsNothing(h, wp);
    UnnamedClaimsNothing(h, db);
    assert all - {wp} - {db} == rest by {
      OthersRemain(h, site);
    }
    assert db in all <==> db in all - {wp};
    hide Claims, Claim, Names;
    TotalWithout(all, wp);
    TotalWithout(all - {wp}, db);
  }

  lemma TotalWithout(m: map<Name, nat>, n: Name)
    ensures Total(m) == (if n in m then m[n] else 0) + Total(m - {n})
  {
    if n in m {
      TotalRemove(m, n);
    } else {
      assert m - {n} == m;
    }
  }

  lemma UnnamedClaimsNothing(h: Host, n: Name)
    ensures Claim(h, n) == if n in Claims(h, None) then Claims(h, None)[n] else 0
  {
  }

  lemma OthersRemain(h: Host, site: string)
    ensures Claims(h, None) - {Name(site, false)} - {Name(site, true)} == Claims(h, Some(site))
  {
    hide Claim, Names;
  }

  /** Only this site's configuration and containers differ. */
  ghost predicate SameOthers(a: Host, b: Host, site: string) {
    && b.memory == a.memory && b.other == a.other
    && (forall s | s != site :: s in b.configs <==> s in a.configs)
    && (forall s | s != site && s in a.configs :: b.configs[s] == a.configs[s])
    && (forall n: Name | n.site != site :: n in b.live <==> n in a.live)
    && (forall n: Name | n.site != site && n in a.live :: b.live[n] == a.live[n])
  }

  lemma OthersKeep(a: Host, b: Host, site: string)
    requires SameOthers(a, b, site)
    ensures Claims(b, Some(site)) == Claims(a, Some(site))
  {
    var x, y := Claims(a, Some(site)), Claims(b, Some(site));
    forall n: Name
      ensures n in x <==> n in y
      ensures n in x ==> x[n] == y[n]
    {
      if n.site != site {
        OtherKeeps(a, b, site, n);
      }
    }
  }

  lemma OtherKeeps(a: Host, b: Host, site: string, n: Name)
    requires SameOthers(a, b, site) && n.site != site
    ensures n in Names(a) <==> n in Names(b)
    ensures Claim(a, n) == Claim(b, n)
  {
    hide RoundUp;
  }

  function Pair(h: Host, site: string): nat {
    Claim(h, Name(site, false)) + Claim(h, Name(site, true))
  }

  /** The bytes that all others leave for the site. */
  ghost function Room(a: Host, site: string): int {
    a.memory - Reserve(a.memory) - Total(Claims(a, Some(site))) * MIB - a.other
  }

  /** The budget in terms of one site: it fits exactly if its two claims fit into what the
      others leave. */
  lemma FitsBySite(a: Host, b: Host, site: string)
    requires SameOthers(a, b, site)
    ensures Fits(b) <==> Pair(b, site) * MIB <= Room(a, site)
  {
    OthersKeep(a, b, site);
    TotalSplits(b, site);
  }

  /** What a request of r leaves of a site, wherever it stops: the configuration it found or the
      new one, and for each container the limit it had, none, or the new one. */
  ghost predicate Passing(a: Host, b: Host, site: string, r: nat) {
    && SameOthers(a, b, site)
    && Passes(ConfigOf(a, site), r, LiveOf(a, Name(site, false)), LiveOf(a, Name(site, true)),
              ConfigOf(b, site), LiveOf(b, Name(site, false)), LiveOf(b, Name(site, true)))
  }

  predicate Passes(c: nat, r: nat, wp: nat, db: nat, c1: nat, wp1: nat, db1: nat) {
    (c1 == c || c1 == r) && (wp1 == wp || wp1 == 0 || wp1 == r) && (db1 == db || db1 == 0 || db1 == r)
  }

  /** The limits of the two containers lie on both sides of the request, and the configuration
      is below it. */
  predicate Straddles(c: nat, r: nat, wp: nat, db: nat) {
    c < r && (wp < r < db || db < r < wp)
  }

  /** With this much room for the site: if it fits before and r is admitted, it fits wherever the
      request stops. */
  ghost predicate StaysWithin(room: int, c: nat, r: nat, wp: nat, db: nat) {
    room >= Max(c, wp) + Max(c, db) && room >= 2 * r ==>
      forall c1: nat, wp1: nat, db1: nat | Passes(c, r, wp, db, c1, wp1, db1) :: room >= Max(c1, wp1) + Max(c1, db1)
  }

  /** Admission alone is not enough: whether a budget that fits before, and admits the request,
      fits at every point on every host is decided exactly by Straddles. */
  lemma StraddlingDecides(c: nat, r: nat, wp: nat, db: nat)
    ensures (forall room: int :: StaysWithin(room, c, r, wp, db)) <==> !Straddles(c, r, wp, db)
  {
    var room := Max(Max(c, wp) + Max(c, db), 2 * r);
    assert Passes(c, r, wp, db, r, wp, db);
    assert StaysWithin(room, c, r, wp, db) ==> !Straddles(c, r, wp, db);
  }

  /** An admitted request, be it a creation, a retried creation or a change, whatever
      configuration and containers it finds: without straddling limits the budget fits wherever
      it stops. If it finds nothing above the request, it even ends any excess of this site. */
  lemma AdmittedRequestFits(a: Host, b: Host, site: string, r: nat)
    requires Check(Seen(a, site), r) && Passing(a, b, site, r)
    ensures Fits(a) && !Straddles(ConfigOf(a, site), r, LiveOf(a, Name(site, false)), LiveOf(a, Name(site, true))) ==>
              Fits(b)
    ensures ConfigOf(a, site) <= r && LiveOf(a, Name(site, false)) <= r && LiveOf(a, Name(site, true)) <= r ==> Fits(b)
  {
    hide Fits, Claims, Total, Reserve, SameOthers, ConfigOf, LiveOf, Straddles, Passes;
    FitsBySite(a, a, site);
    FitsBySite(a, b, site);
    PassingStays(Room(a, site), ConfigOf(a, site), r, LiveOf(a, Name(site, false)), LiveOf(a, Name(site, true)),
                 ConfigOf(b, site), LiveOf(b, Name(site, false)), LiveOf(b, Name(site, true)));
  }

  /** The same in bytes of room for the site. */
  lemma PassingStays(room: int, c: nat, r: nat, wp: nat, db: nat, c1: nat, wp1: nat, db1: nat)
    requires Passes(c, r, wp, db, c1, wp1, db1) && r * 2 * MIB <= room
    ensures (Max(c, wp) + Max(c, db)) * MIB <= room && !Straddles(c, r, wp, db) ==>
              (Max(c1, wp1) + Max(c1, db1)) * MIB <= room
    ensures c <= r && wp <= r && db <= r ==> (Max(c1, wp1) + Max(c1, db1)) * MIB <= room
  {
    StraddlingDecides(c, r, wp, db);
    hide Straddles;
    if !Straddles(c, r, wp, db) {
      assert StaysWithin(room / MIB, c, r, wp, db);
    }
  }

  /** A 4 GiB host: one site with this configuration, whose containers have 1024 and 512 MiB. */
  function Crowded(config: nat, other: nat): Host {
    Host(4096 * MIB, map["s" := config], map[Name("s", false) := 1024 * MIB, Name("s", true) := 512 * MIB], other)
  }

  lemma CrowdedPair(config: nat, other: nat)
    ensures LiveOf(Crowded(config, other), Name("s", false)) == 1024
    ensures LiveOf(Crowded(config, other), Name("s", true)) == 512
    ensures ConfigOf(Crowded(config, other), "s") == config
  {
    WholeMib(1024);
    WholeMib(512);
    hide RoundUp;
  }

  lemma WholeMib(m: nat)
    ensures RoundUp(m * MIB) == m
  {
  }

  /** The site is alone on it. */
  lemma CrowdedRoom(config: nat, other: nat)
    ensures Total(Claims(Crowded(config, other), Some("s"))) == 0
  {
    assert Claims(Crowded(config, other), Some("s")) == map[];
  }

  lemma CrowdedOthers(config: nat, next: nat, other: nat)
    ensures SameOthers(Crowded(config, other), Crowded(next, other), "s")
  {
  }

  /** Configured for 512 MiB it fits and 768 MiB are admitted, but once they are written the
      promise is broken. */
  lemma AsymmetricLimitsBreakTheBudget(other: nat)
    requires other == 4096 * MIB - Reserve(4096 * MIB) - 1536 * MIB
    ensures var a, b := Crowded(512, other), Crowded(768, other);
            && b == a.(configs := map["s" := 768])
            && Fits(a) && Check(Seen(a, "s"), 768) && Passing(a, b, "s", 768) && !Fits(b)
  {
    var a, b := Crowded(512, other), Crowded(768, other);
    assert a.memory == b.memory == 4096 * MIB && a.other == b.other == other;
    hide Fits, Total, Claims, Crowded, SameOthers, LiveOf, ConfigOf;
    CrowdedOthers(512, 512, other);
    CrowdedOthers(512, 768, other);
    CrowdedRoom(512, other);
    CrowdedPair(512, other);
    CrowdedPair(768, other);
    FitsBySite(a, a, "s");
    FitsBySite(a, b, "s");
  }

  /** The worker changes resources only when both containers have exactly the configured limit;
      then no limits straddle. */
  lemma AdmittedChangeFits(a: Host, b: Host, site: string, r: nat)
    requires Fits(a) && Check(Seen(a, site), r) && Passing(a, b, site, r)
    requires forall db :: LiveOf(a, Name(site, db)) == ConfigOf(a, site)
    ensures Fits(b)
  {
    assert LiveOf(a, Name(site, false)) == LiveOf(a, Name(site, true)) == ConfigOf(a, site);
    AdmittedRequestFits(a, b, site, r);
  }

  /** Starting a site with its own configuration fits at every point of the recreation, and ends
      within the budget even if stale larger limits had broken it before. */
  lemma AdmittedStartFits(a: Host, b: Host, site: string)
    requires Check(Seen(a, site), ConfigOf(a, site)) && Passing(a, b, site, ConfigOf(a, site))
    ensures Fits(a) ==> Fits(b)
    ensures (forall db :: LiveOf(b, Name(site, db)) <= ConfigOf(a, site)) ==> Fits(b)
  {
    FitsBySite(a, a, site);
    FitsBySite(a, b, site);
  }
}
