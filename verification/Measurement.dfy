/**
 The measurement behind admission (hostCapacity in cmd/worker/resources.go): the directories'
 configurations, Docker's list of containers, their inspected limits, and usage samples of
 those without a limit add up to the claims of one host, with one site left out.
 */
module Measurements {
  import opened Common
  import opened Capacity

  /** A site's directory: without a configuration, with a bad one, or with a limit in MiB. */
  datatype Config = Missing | Malformed | Configured(memory: nat)
  datatype Entry = Entry(name: string, directory: bool, config: Config)

  /** One line each of Docker's list, its inspection, and its usage statistics. An unreadable
      memory figure is None. */
  datatype Row = Row(name: string, project: string, service: string, running: bool)
  datatype Info = Info(name: string, memory: int, cpus: int)
  datatype Usage = Usage(name: string, memory: Option<nat>, cpuValid: bool)

  /** What a container without limits is sampled for. */
  datatype Flags = Flags(memory: bool, cpu: bool)

  // ---- The directories ----

  predicate Counted(e: Entry, exclude: string) {
    ValidID(e.name) && e.directory && e.name != exclude
  }

  predicate Readable(entries: seq<Entry>, exclude: string) {
    forall k | 0 <= k < |entries| :: Counted(entries[k], exclude) ==> !entries[k].config.Malformed?
  }

  /** The limits in the directories up to n. */
  function Entered(entries: seq<Entry>, n: nat, exclude: string): map<string, nat>
    requires n <= |entries|
  {
    if n == 0 then map[]
    else
      var before, e := Entered(entries, n - 1, exclude), entries[n - 1];
      if Counted(e, exclude) && e.config.Configured? then before[e.name := e.config.memory] else before
  }

  // ---- The list of containers ----

  const WP: string := "wph-wp-"
  const DB: string := "wph-db-"
  const PROJECT: string := "wph-"

  function Label(n: Name): string {
    (if n.db then DB else WP) + n.site
  }

  function TrimPrefix(s: string, prefix: string): string {
    if prefix <= s then s[|prefix|..] else s
  }

  /** The managed container that a listed one is, if its project, service and name agree. */
  function Owned(r: Row): Option<Name> {
    var id := TrimPrefix(r.project, PROJECT);
    if !ValidID(id) then None
    else if r.service == "wordpress" && r.name == Label(Name(id, false)) then Some(Name(id, false))
    else if r.service == "db" && r.name == Label(Name(id, true)) then Some(Name(id, true))
    else None
  }

  predicate Wanted(r: Row, exclude: string) {
    Owned(r).Some? && Owned(r).value.site != exclude
  }

  /** The managed containers among the first n listed ones, by name. */
  function Managed(rows: seq<Row>, n: nat, exclude: string): map<string, Name>
    requires n <= |rows|
  {
    if n == 0 then map[]
    else
      var before, r := Managed(rows, n - 1, exclude), rows[n - 1];
      if Wanted(r, exclude) then before[r.name := Owned(r).value] else before
  }

  function Others(rows: seq<Row>, n: nat): set<string>
    requires n <= |rows|
  {
    if n == 0 then {}
    else
      var before, r := Others(rows, n - 1), rows[n - 1];
      if Owned(r).None? && r.running then before + {r.name} else before
  }

  lemma OwnedLabel(r: Row)
    requires Owned(r).Some?
    ensures r.name == Label(Owned(r).value)
  {
  }

  /** A name determines its managed container. */
  lemma LabelsDiffer(a: Name, b: Name)
    requires Label(a) == Label(b)
    ensures a == b
  {
    assert Label(a)[4] == Label(b)[4];
    assert Label(a)[7..] == a.site && Label(b)[7..] == b.site;
  }

  /** Exactly the containers of other sites with matching project, service and name are managed,
      each under its own name, and all that are listed under one name are the same container. */
  lemma {:induction false} ManagedMeaning(rows: seq<Row>, n: nat, exclude: string, x: string)
    requires n <= |rows|
    ensures x in Managed(rows, n, exclude) <==> exists k :: 0 <= k < n && Wanted(rows[k], exclude) && rows[k].name == x
    ensures x in Managed(rows, n, exclude) ==>
              Label(Managed(rows, n, exclude)[x]) == x && Managed(rows, n, exclude)[x].site != exclude
    ensures forall k | 0 <= k < n && Wanted(rows[k], exclude) && rows[k].name == x ::
              Managed(rows, n, exclude)[x] == Owned(rows[k]).value
  {
    hide Owned, Label;
    if n > 0 {
      ManagedMeaning(rows, n - 1, exclude, x);
      if Wanted(rows[n - 1], exclude) {
        OwnedLabel(rows[n - 1]);
      }
      forall k | 0 <= k < n && Wanted(rows[k], exclude) && rows[k].name == x
        ensures Managed(rows, n, exclude)[x] == Owned(rows[k]).value
      {
        OwnedLabel(rows[k]);
        LabelsDiffer(Managed(rows, n, exclude)[x], Owned(rows[k]).value);
      }
    }
  }

  method Classify(rows: seq<Row>, exclude: string) returns (managed: map<string, Name>, other: set<string>)
    ensures managed == Managed(rows, |rows|, exclude) && other == Others(rows, |rows|)
  {
    managed, other := map[], {};
    for n := 0 to |rows|
      invariant managed == Managed(rows, n, exclude) && other == Others(rows, n)
    {
      var r := rows[n];
      var owned := Owned(r);
      if owned.Some? {
        if owned.value.site == exclude {
          continue;
        }
        managed := managed[r.name := owned.value];
      } else if r.running {
        other := other + {r.name};
      }
    }
  }

  // ---- The inspection ----

  predicate Acceptable(managed: map<string, Name>, other: set<string>, i: Info) {
    && i.memory >= 0 && i.cpus >= 0
    && if i.name in managed then i.memory > 0 && i.cpus > 0 else i.name in other
  }

  function Raised(live: map<Name, nat>, n: Name, bytes: nat): map<Name, nat> {
    live[n := if n in live then Max(live[n], bytes) else bytes]
  }

  /** The largest limit inspected for each managed container, up to n. */
  function Inspected(managed: map<string, Name>, infos: seq<Info>, n: nat): map<Name, nat>
    requires n <= |infos|
  {
    if n == 0 then map[]
    else
      var before, i := Inspected(managed, infos, n - 1), infos[n - 1];
      if i.name in managed && i.memory > 0 then Raised(before, managed[i.name], i.memory) else before
  }

  function ForeignLimits(managed: map<string, Name>, infos: seq<Info>, n: nat): nat
    requires n <= |infos|
  {
    if n == 0 then 0
    else
      var before, i := ForeignLimits(managed, infos, n - 1), infos[n - 1];
      if i.name !in managed && i.memory > 0 then before + i.memory else before
  }

  /** The containers without a limit, and what is missing. */
  function Sampled(managed: map<string, Name>, infos: seq<Info>, n: nat): map<string, Flags>
    requires n <= |infos|
  {
    if n == 0 then map[]
    else
      var before, i := Sampled(managed, infos, n - 1), infos[n - 1];
      if i.name !in managed && (i.memory == 0 || i.cpus == 0) then before[i.name := Flags(i.memory == 0, i.cpus == 0)]
      else before
  }

  // ---- The samples ----

  predicate Answers(samples: map<string, Flags>, u: Usage) {
    && u.name in samples
    && (samples[u.name].memory ==> u.memory.Some?) && (samples[u.name].cpu ==> u.cpuValid)
  }

  ghost predicate Different(stats: seq<Usage>, n: nat)
    requires n <= |stats|
  {
    forall i, j | 0 <= i < j < n :: stats[i].name != stats[j].name
  }

  /** Exactly one readable answer for each container that was asked for. */
  ghost predicate Answered(samples: map<string, Flags>, stats: seq<Usage>) {
    && (forall k | 0 <= k < |stats| :: Answers(samples, stats[k]))
    && Different(stats, |stats|)
    && forall x | x in samples :: exists k :: 0 <= k < |stats| && stats[k].name == x
  }

  function UsageSum(samples: map<string, Flags>, stats: seq<Usage>, n: nat): nat
    requires n <= |stats|
  {
    if n == 0 then 0
    else
      var before, u := UsageSum(samples, stats, n - 1), stats[n - 1];
      if u.name in samples && samples[u.name].memory && u.memory.Some? then before + u.memory.value else before
  }

  // ---- Claims entry by entry ----

  /** The claims as the two loops leave them. */
  function Entries(configs: map<string, nat>, live: map<Name, nat>): map<Name, nat> {
    Claims(Host(0, configs, live, 0), None)
  }

  lemma NamesMeaning(h: Host, n: Name)
    ensures n in Names(h) <==> n.site in h.configs || n in h.live
  {
  }

  lemma EntryMeaning(configs: map<string, nat>, live: map<Name, nat>, n: Name)
    ensures n in Entries(configs, live) <==> n.site in configs || n in live
    ensures n in Entries(configs, live) ==>
              Entries(configs, live)[n] ==
              Max(if n.site in configs then configs[n.site] else 0, if n in live then RoundUp(live[n]) else 0)
  {
    NamesMeaning(Host(0, configs, live, 0), n);
    hide Names, RoundUp;
  }

  lemma EnterSite(configs: map<string, nat>, id: string, r: nat)
    ensures Entries(configs[id := r], map[]) == Entries(configs, map[])[Name(id, false) := r][Name(id, true) := r]
  {
    hide Entries, RoundUp;
    var x, y := Entries(configs[id := r], map[]), Entries(configs, map[])[Name(id, false) := r][Name(id, true) := r];
    forall n: Name
      ensures (n in x <==> n in y) && (n in x ==> x[n] == y[n])
    {
      EntryMeaning(configs[id := r], map[], n);
      EntryMeaning(configs, map[], n);
      assert n == Name(n.site, n.db);
    }
  }

  lemma RoundUpMax(a: nat, b: nat)
    ensures RoundUp(Max(a, b)) == Max(RoundUp(a), RoundUp(b))
  {
    if a < b {
      assert (a + MIB - 1) / MIB <= (b + MIB - 1) / MIB;
    }
  }

  lemma EnterLive(configs: map<string, nat>, live: map<Name, nat>, n: Name, bytes: nat)
    ensures var before := Entries(configs, live);
            Entries(configs, Raised(live, n, bytes)) ==
            before[n := Max(if n in before then before[n] else 0, RoundUp(bytes))]
  {
    hide Entries, RoundUp;
    var before, after := Entries(configs, live), Entries(configs, Raised(live, n, bytes));
    forall k: Name
      ensures k in after <==> k == n || k in before
      ensures k in before && k != n ==> after[k] == before[k]
    {
      EntryMeaning(configs, live, k);
      EntryMeaning(configs, Raised(live, n, bytes), k);
    }
    EntryMeaning(configs, live, n);
    EntryMeaning(configs, Raised(live, n, bytes), n);
    if n in live {
      RoundUpMax(live[n], bytes);
    }
  }

  lemma ClaimsOfMeasured(memory: int, configs: map<string, nat>, live: map<Name, nat>, other: nat)
    ensures Claims(Host(memory, configs, live, other), None) == Entries(configs, live)
  {
    var h, g := Host(memory, configs, live, other), Host(0, configs, live, 0);
    assert Names(h) == Names(g);
    forall n
      ensures Claim(h, n) == Claim(g, n)
    {}
    hide Names, Claim;
  }

  // ---- The program ----

  /** The sum over the allocation map, in whatever order it is visited. */
  method SumMap(m: map<Name, nat>) returns (sum: nat)
    ensures sum == Total(m)
  {
    sum := 0;
    var rest := m;
    while rest != map[]
      invariant sum + Total(rest) == Total(m)
      decreases |rest|
    {
      var k :| k in rest;
      TotalRemove(rest, k);
      sum := sum + rest[k];
      rest := rest - {k};
    }
  }

  method ReadConfigs(entries: seq<Entry>, exclude: string) returns (r: Option<map<Name, nat>>)
    ensures r.Some? <==> Readable(entries, exclude)
    ensures r.Some? ==> r.value == Entries(Entered(entries, |entries|, exclude), map[])
  {
    var allocation: map<Name, nat> := map[];
    assert Entries(map[], map[]) == map[];
    hide Claims, Entries, ValidID;
    for n := 0 to |entries|
      invariant allocation == Entries(Entered(entries, n, exclude), map[])
      invariant forall k | 0 <= k < n :: Counted(entries[k], exclude) ==> !entries[k].config.Malformed?
    {
      var e := entries[n];
      if !ValidID(e.name) || !e.directory || e.name == exclude || e.config.Missing? {
        continue;
      }
      if e.config.Malformed? {
        assert Counted(entries[n], exclude);
        return None;
      }
      EnterSite(Entered(entries, n, exclude), e.name, e.config.memory);
      allocation := allocation[Name(e.name, false) := e.config.memory][Name(e.name, true) := e.config.memory];
    }
    return Some(allocation);
  }

  /** Docker's inspection: managed containers raise their claim, other ones add their limit or
      ask for a sample. */
  method ReadLimits(allocation: map<Name, nat>, ghost configs: map<string, nat>, managed: map<string, Name>,
                    other: set<string>, infos: seq<Info>)
    returns (ok: bool, r: map<Name, nat>, limits: nat, samples: map<string, Flags>)
    requires allocation == Entries(configs, map[])
    ensures ok <==> forall k | 0 <= k < |infos| :: Acceptable(managed, other, infos[k])
    ensures ok ==> r == Entries(configs, Inspected(managed, infos, |infos|))
    ensures ok ==> limits == ForeignLimits(managed, infos, |infos|) && samples == Sampled(managed, infos, |infos|)
  {
    hide Entries, RoundUp;
    ok, r, limits, samples := false, allocation, 0, map[];
    for n := 0 to |infos|
      invariant r == Entries(configs, Inspected(managed, infos, n))
      invariant limits == ForeignLimits(managed, infos, n) && samples == Sampled(managed, infos, n)
      invariant forall k | 0 <= k < n :: Acceptable(managed, other, infos[k])
    {
      var i := infos[n];
      if i.memory < 0 || i.cpus < 0 {
        return;
      }
      if i.name in managed {
        if i.memory <= 0 || i.cpus <= 0 {
          return;
        }
        var name := managed[i.name];
        EnterLive(configs, Inspected(managed, infos, n), name, i.memory);
        r := r[name := Max(if name in r then r[name] else 0, RoundUp(i.memory))];
      } else if i.name in other {
        if i.memory > 0 {
          limits := limits + i.memory;
        }
        if i.memory == 0 || i.cpus == 0 {
          samples := samples[i.name := Flags(i.memory == 0, i.cpus == 0)];
        }
      } else {
        return;
      }
    }
    ok := true;
  }

  /** The names of the first n answers. */
  function SeenBy(stats: seq<Usage>, n: nat): set<string>
    requires n <= |stats|
  {
    if n == 0 then {} else SeenBy(stats, n - 1) + {stats[n - 1].name}
  }

  /** Answers are complete if as many were seen as asked for. */
  lemma {:induction false} SeenMeaning(stats: seq<Usage>, n: nat, x: string)
    requires n <= |stats|
    ensures x in SeenBy(stats, n) <==> exists k :: 0 <= k < n && stats[k].name == x
  {
    if n > 0 {
      SeenMeaning(stats, n - 1, x);
    }
  }

  lemma Unanswered(samples: map<string, Flags>, stats: seq<Usage>, n: nat)
    requires n < |stats| && (stats[n].name in SeenBy(stats, n) || !Answers(samples, stats[n]))
    ensures !Answered(samples, stats)
  {
    SeenMeaning(stats, n, stats[n].name);
    hide Answers, SeenBy;
  }

  lemma AddName(stats: seq<Usage>, n: nat)
    requires n < |stats| && Different(stats, n) && stats[n].name !in SeenBy(stats, n)
    ensures Different(stats, n + 1)
  {
    forall i | 0 <= i < n
      ensures stats[i].name != stats[n].name
    {
      SeenMeaning(stats, n, stats[i].name);
    }
    hide SeenBy;
  }

  /** The names seen so far are those asked for, as far as the answers are good. */
  lemma SeenIsAsked(samples: map<string, Flags>, stats: seq<Usage>, x: string)
    requires forall k | 0 <= k < |stats| :: Answers(samples, stats[k])
    requires x in SeenBy(stats, |stats|)
    ensures x in samples
  {
    hide SeenBy;
    SeenMeaning(stats, |stats|, x);
  }

  /** Without repetition the answers are complete exactly if there is one for each name. */
  lemma {:induction false} AnsweredBySize(samples: map<string, Flags>, stats: seq<Usage>)
    requires Different(stats, |stats|) && forall k | 0 <= k < |stats| :: Answers(samples, stats[k])
    ensures Answered(samples, stats) <==> |SeenBy(stats, |stats|)| == |samples|
  {
    hide SeenBy, Answers, Different;
    var seen := SeenBy(stats, |stats|);
    forall x | x in seen
      ensures x in samples.Keys
    {
      SeenIsAsked(samples, stats, x);
    }
    SubsetSize(seen, samples.Keys);
    forall x | x in samples
      ensures x in seen <==> exists k :: 0 <= k < |stats| && stats[k].name == x
    {
      SeenMeaning(stats, |stats|, x);
    }
    assert samples.Keys <= seen <==> seen == samples.Keys;
  }

  /** The statistics: accepted exactly if they answer once for each container asked for. */
  method ReadSamples(samples: map<string, Flags>, stats: seq<Usage>) returns (ok: bool, used: nat)
    ensures ok <==> Answered(samples, stats)
    ensures ok ==> used == UsageSum(samples, stats, |stats|)
  {
    var seen: set<string> := {};
    ok, used := false, 0;
    hide Answered, Different;
    for n := 0 to |stats|
      invariant used == UsageSum(samples, stats, n) && seen == SeenBy(stats, n)
      invariant forall k | 0 <= k < n :: Answers(samples, stats[k])
      invariant Different(stats, n)
    {
      var u := stats[n];
      if u.name !in samples || u.name in seen {
        Unanswered(samples, stats, n);
        return;
      }
      AddName(stats, n);
      seen := seen + {u.name};
      var flags := samples[u.name];
      if flags.memory && u.memory.None? {
        Unanswered(samples, stats, n);
        return;
      }
      if flags.memory {
        used := used + u.memory.value;
      }
      if flags.cpu && !u.cpuValid {
        Unanswered(samples, stats, n);
        return;
      }
    }
    AnsweredBySize(samples, stats);
    ok := |seen| == |samples|;
  }

  /** Docker is asked for limits only if something is listed, and for samples only if something
      lacks a limit. */
  function Inspection(rows: seq<Row>, infos: seq<Info>, exclude: string): seq<Info> {
    if Managed(rows, |rows|, exclude) == map[] && Others(rows, |rows|) == {} then [] else infos
  }

  function Statistics(samples: map<string, Flags>, stats: seq<Usage>): seq<Usage> {
    if samples == map[] then [] else stats
  }

  /** The host that these answers describe, without the excluded site. */
  function Described(memory: int, entries: seq<Entry>, rows: seq<Row>, infos: seq<Info>, stats: seq<Usage>,
                     exclude: string): Host {
    var managed, asked := Managed(rows, |rows|, exclude), Inspection(rows, infos, exclude);
    var samples := Sampled(managed, asked, |asked|);
    var used := Statistics(samples, stats);
    Host(memory, Entered(entries, |entries|, exclude), Inspected(managed, asked, |asked|),
         ForeignLimits(managed, asked, |asked|) + UsageSum(samples, used, |used|))
  }

  ghost predicate Measurable(memory: int, cpus: int, entries: seq<Entry>, rows: seq<Row>, infos: seq<Info>,
                             stats: seq<Usage>, exclude: string) {
    var managed, asked := Managed(rows, |rows|, exclude), Inspection(rows, infos, exclude);
    var samples := Sampled(managed, asked, |asked|);
    && (exclude == "" || ValidID(exclude)) && memory > 0 && cpus > 0 && Readable(entries, exclude)
    && (forall k | 0 <= k < |asked| :: Acceptable(managed, Others(rows, |rows|), asked[k]))
    && Answered(samples, Statistics(samples, stats))
  }

  /** hostCapacity for memory up to the disk probes: it reports exactly if every answer is in
      order, and then the claims, reserve and other usage of the host they describe. */
  method MeasureHost(memory: int, cpus: int, entries: seq<Entry>, rows: seq<Row>, infos: seq<Info>,
                     stats: seq<Usage>, exclude: string)
    returns (r: Option<HostCapacity>)
    ensures r.Some? <==> Measurable(memory, cpus, entries, rows, infos, stats, exclude)
    ensures r.Some? ==>
              var h := Described(memory, entries, rows, infos, stats, exclude);
              r.value == HostCapacity(memory, Reserve(memory), Total(Claims(h, None)) * MIB, h.other)
  {
    hide Claims, Entries, Entered, Inspected, ForeignLimits, Sampled, UsageSum, Total, Reserve, Managed, Others,
         Answered, ValidID, Acceptable, Readable;
    if (exclude != "" && !ValidID(exclude)) || cpus <= 0 || memory <= 0 {
      return None;
    }
    var read := ReadConfigs(entries, exclude);
    if read.None? {
      return None;
    }
    ghost var configs := Entered(entries, |entries|, exclude);
    var managed, other := Classify(rows, exclude);
    var asked := if managed == map[] && other == {} then [] else infos;
    var ok, allocation, limits, samples := ReadLimits(read.value, configs, managed, other, asked);
    if !ok {
      return None;
    }
    var used;
    ok, used := ReadSamples(samples, if samples == map[] then [] else stats);
    if !ok {
      return None;
    }
    var sum := SumMap(allocation);
    ClaimsOfMeasured(memory, configs, Inspected(managed, asked, |asked|), limits + used);
    return Some(HostCapacity(memory, Reserve(memory), sum * MIB, limits + used));
  }

  /** Measured with one site left out, a host looks as admission sees it. */
  lemma MeasuredIsSeen(h: Host, rest: Host, site: string)
    requires rest.memory == h.memory && rest.other == h.other && rest.configs == h.configs - {site}
    requires rest.live == map n | n in h.live && n.site != site :: h.live[n]
    ensures HostCapacity(rest.memory, Reserve(rest.memory), Total(Claims(rest, None)) * MIB, rest.other) ==
            Seen(h, site)
  {
    var x, y := Claims(rest, None), Claims(h, Some(site));
    forall n: Name
      ensures (n in x <==> n in y) && (n in x ==> x[n] == y[n])
    {
      NamesMeaning(h, n);
      NamesMeaning(rest, n);
    }
    assert x == y;
  }
}
