/**
 The worker's ledger of provisional project reservations (cmd/worker/quota_registry.go):
 a sentinel outside the registry directory, an atomically replaced ledger file inside it,
 and an allocator that takes the least identifier free in both the census and the ledger.
 */
module Registry {
  import opened Common
  import opened ProjectSets

  const MAX_RESERVATIONS: nat := 4096
  const FIRST_PROJECT: nat := 1000000

  datatype QuotaReservation = QuotaReservation(site: string, uuid: string, project: uint32)

  datatype Ledger = Ledger(version: int, present: bool, reservations: seq<QuotaReservation>)

  datatype LedgerFile = NoLedger | CorruptLedger | Stored(ledger: Ledger)
  datatype Sentinel = NoSentinel | CorruptSentinel | Initialized

  datatype Inventory = Inventory(
    verified: bool, uuid: string, scanned: nat, wordpress: nat, database: nat, listed: bool, ids: seq<uint32>)

  /** The durable state: .quota, projects.json, .quota-initialized, and the site directories
      with a compose file or with a quota marker. */
  datatype Store = Store(dir: bool, ledger: LedgerFile, sentinel: Sentinel, sites: set<string>, marked: set<string>)

  datatype Outcome = Died | Reserved(entry: QuotaReservation) | Failed(reason: string)

  datatype Env = Env(lockFails: bool, probeFails: bool, inventory: Inventory, disk: Budget)

  function Stopped(w: Written): Outcome {
    if w.died then Died else Failed("write failed")
  }

  predicate ValidUUID(u: string) { HexString(u, 32) }

  // ---- Specification ----

  ghost predicate ConflictFree(r: seq<QuotaReservation>) {
    forall i, j | 0 <= i < j < |r| ::
      r[i].site != r[j].site && !(r[i].uuid == r[j].uuid && r[i].project == r[j].project)
  }

  predicate WellFormedEntry(e: QuotaReservation) {
    ValidID(e.site) && ValidUUID(e.uuid) && e.project != 0
  }

  ghost predicate ValidLedger(l: Ledger) {
    && l.version == 1 && l.present && |l.reservations| <= MAX_RESERVATIONS
    && (forall i | 0 <= i < |l.reservations| :: WellFormedEntry(l.reservations[i]))
    && ConflictFree(l.reservations)
  }

  const EMPTY_LEDGER := Ledger(1, true, [])

  /** Identifiers that may not be handed out on the filesystem `uuid`. */
  ghost function Taken(ids: seq<uint32>, r: seq<QuotaReservation>, uuid: string): set<uint32> {
    if r == [] then Elements(ids)
    else
      var rest, last := Taken(ids, r[..|r| - 1], uuid), r[|r| - 1];
      if last.uuid == uuid then rest + {last.project} else rest
  }

  ghost predicate LeastFree(p: uint32, taken: set<uint32>) {
    p >= FIRST_PROJECT && p !in taken && forall x: uint32 | FIRST_PROJECT <= x < p :: x in taken
  }

  lemma {:induction false} TakenMeaning(ids: seq<uint32>, r: seq<QuotaReservation>, uuid: string, p: uint32)
    ensures p in Taken(ids, r, uuid) <==> p in ids || exists i :: 0 <= i < |r| && r[i].uuid == uuid && r[i].project == p
  {
    if r != [] {
      var front, last := r[..|r| - 1], r[|r| - 1];
      TakenMeaning(ids, front, uuid, p);
      assert forall i | 0 <= i < |front| :: front[i] == r[i];
      assert r[|front|] == last;
    }
  }

  lemma {:induction false} TakenSize(ids: seq<uint32>, r: seq<QuotaReservation>, uuid: string)
    ensures |Taken(ids, r, uuid)| <= |ids| + |r|
  {
    if r == [] {
      ElementsSize(ids);
    } else {
      TakenSize(ids, r[..|r| - 1], uuid);
    }
  }

  lemma {:induction false} ElementsSize(ids: seq<uint32>)
    ensures |Elements(ids)| <= |ids|
  {
    if ids == [] {
      assert Elements(ids) == {};
    } else {
      ElementsSize(ids[..|ids| - 1]);
      assert ids == ids[..|ids| - 1] + [ids[|ids| - 1]];
      assert Elements(ids) == Elements(ids[..|ids| - 1]) + {ids[|ids| - 1]};
    }
  }

  ghost function Span(from: nat, n: nat): (s: set<uint32>)
    requires from + n <= UINT32_MAX + 1
    ensures forall x: uint32 :: x in s <==> from <= x < from + n
    ensures |s| == n
  {
    if n == 0 then {} else Span(from, n - 1) + {from + n - 1}
  }

  /** By counting, the search ends long before 32-bit identifiers run out. */
  lemma SearchStaysLow(p: nat, taken: set<uint32>)
    requires FIRST_PROJECT <= p <= UINT32_MAX && forall x: uint32 | FIRST_PROJECT <= x < p :: x in taken
    ensures p <= FIRST_PROJECT + |taken|
  {
    var span := Span(FIRST_PROJECT, p - FIRST_PROJECT);
    SubsetSize(span, taken);
  }

  // ---- One run as a step ----

  /** The state from which a ledger is initialised: nothing of the registry is left. */
  predicate Pristine(s: Store) {
    !s.dir && s.ledger.NoLedger? && s.sentinel.NoSentinel?
  }

  ghost predicate Appended(a: LedgerFile, b: LedgerFile) {
    && a.Stored? && b.Stored? && ValidLedger(a.ledger) && ValidLedger(b.ledger)
    && exists e :: b.ledger == a.ledger.(reservations := a.ledger.reservations + [e])
  }

  /** What a reservation run may change: the directory appears; from a pristine state the
      sentinel and then an empty ledger appear; a valid ledger grows by one entry. */
  ghost predicate RunStep(a: Store, b: Store) {
    && b.sites == a.sites && b.marked == a.marked && (a.dir ==> b.dir)
    && (b.sentinel == a.sentinel || (Pristine(a) && b.sentinel.Initialized? && b.dir))
    && (|| b.ledger == a.ledger
        || (Appended(a.ledger, b.ledger) && a.sentinel.Initialized? && a.dir)
        || (Pristine(a) && b.dir && b.sentinel.Initialized? &&
            (b.ledger == Stored(EMPTY_LEDGER) || Appended(Stored(EMPTY_LEDGER), b.ledger))))
  }

  /** Creating a site adds its directory. */
  predicate CreateStep(a: Store, b: Store) {
    b.dir == a.dir && b.ledger == a.ledger && b.sentinel == a.sentinel && a.sites <= b.sites && b.marked == a.marked
  }

  /** A guard or plan appears in a site's directory. */
  predicate MarkStep(a: Store, b: Store) {
    b.dir == a.dir && b.ledger == a.ledger && b.sentinel == a.sentinel && b.sites == a.sites && a.marked <= b.marked
  }

  /** Deleting a site removes its directory and nothing of the registry. */
  predicate DeleteStep(a: Store, b: Store) {
    b.dir == a.dir && b.ledger == a.ledger && b.sentinel == a.sentinel && b.sites <= a.sites && b.marked <= a.marked
  }

  ghost predicate Step(a: Store, b: Store) {
    RunStep(a, b) || CreateStep(a, b) || MarkStep(a, b) || DeleteStep(a, b)
  }

  ghost predicate Healthy(s: Store) {
    && (s.ledger.Stored? ==> ValidLedger(s.ledger.ledger) && s.dir && s.sentinel.Initialized?)
    && !s.ledger.CorruptLedger? && !s.sentinel.CorruptSentinel?
  }

  function Entries(s: Store): seq<QuotaReservation> {
    if s.ledger.Stored? then s.ledger.ledger.reservations else []
  }

  ghost predicate History(stores: seq<Store>) {
    && |stores| > 0 && Pristine(stores[0])
    && forall k | 0 <= k < |stores| - 1 :: Step(stores[k], stores[k + 1])
  }

  /** Over every history of reservations with crashes at any write, of new, marked and deleted
      sites, the ledger stays valid and each state's entries begin with those of every earlier
      state. */
  lemma {:induction false} LedgerOnlyGrows(stores: seq<Store>, i: nat, k: nat)
    requires History(stores) && i <= k < |stores|
    ensures Healthy(stores[k]) && Entries(stores[i]) <= Entries(stores[k])
    decreases k
  {
    hide Step, Healthy, Entries;
    if k > 0 {
      LedgerOnlyGrows(stores, k - 1, k - 1);
      StepKeepsHealthy(stores[k - 1], stores[k]);
      if i < k {
        LedgerOnlyGrows(stores, i, k - 1);
      }
    } else {
      PristineIsHealthy(stores[0]);
    }
  }

  lemma PristineIsHealthy(s: Store)
    requires Pristine(s)
    ensures Healthy(s)
  {
  }

  lemma StepKeepsHealthy(a: Store, b: Store)
    requires Step(a, b) && Healthy(a)
    ensures Healthy(b) && Entries(a) <= Entries(b)
  {
    EmptyIsValid();
    hide ValidLedger;
  }

  lemma EmptyIsValid()
    ensures ValidLedger(EMPTY_LEDGER)
  {
  }

  /** No identifier is ever handed out twice on a filesystem, even after its site is gone,
      and a site keeps its identifier through all restarts. */
  lemma IdentifiersAreNeverReused(stores: seq<Store>, i: nat, k: nat, x: QuotaReservation, y: QuotaReservation)
    requires History(stores) && i <= k < |stores|
    requires x in Entries(stores[i]) && y in Entries(stores[k])
    ensures x.site == y.site ==> x == y
    ensures x.uuid == y.uuid && x.project == y.project ==> x == y
  {
    hide History, Entries, Healthy;
    LedgerOnlyGrows(stores, i, k);
    var m :| 0 <= m < |Entries(stores[i])| && Entries(stores[i])[m] == x;
    assert Entries(stores[k])[m] == x;
    EntriesDiffer(stores[k], x, y);
  }

  /** In a healthy registry site and pair each determine the entry. */
  lemma EntriesDiffer(s: Store, x: QuotaReservation, y: QuotaReservation)
    requires Healthy(s) && x in Entries(s) && y in Entries(s)
    ensures x.site == y.site ==> x == y
    ensures x.uuid == y.uuid && x.project == y.project ==> x == y
  {
    var r := Entries(s);
    var i :| 0 <= i < |r| && r[i] == x;
    var j :| 0 <= j < |r| && r[j] == y;
    assert ConflictFree(r);
    hide Entries, Healthy;
    assert i < j || j < i || i == j;
  }

  /** With the ledger missing but any other trace of the registry left, no run recreates it:
      losing the directory, the ledger or the sentinel alone never resets burned identifiers. */
  lemma PartialLossNeverResets(a: Store, b: Store)
    requires !Pristine(a) && !(a.ledger.Stored? && a.sentinel.Initialized?) && RunStep(a, b)
    ensures b.ledger == a.ledger && !Pristine(b) && !(b.ledger.Stored? && b.sentinel.Initialized?)
  {
  }

  lemma {:induction false} PartialLossIsPermanent(stores: seq<Store>, k: nat)
    requires |stores| > 0 && k < |stores|
    requires forall m | 0 <= m < |stores| - 1 :: Step(stores[m], stores[m + 1])
    requires !Pristine(stores[0]) && !(stores[0].ledger.Stored? && stores[0].sentinel.Initialized?)
    ensures stores[k].ledger == stores[0].ledger
    ensures !Pristine(stores[k]) && !(stores[k].ledger.Stored? && stores[k].sentinel.Initialized?)
  {
    if k > 0 {
      PartialLossIsPermanent(stores, k - 1);
      assert Step(stores[k - 1], stores[k]);
      if RunStep(stores[k - 1], stores[k]) {
        PartialLossNeverResets(stores[k - 1], stores[k]);
      }
    }
  }

  // ---- The program ----

  /** validateQuotaLedger. */
  method ValidateLedger(l: Ledger) returns (ok: bool)
    ensures ok <==> ValidLedger(l)
  {
    if l.version != 1 || !l.present || |l.reservations| > MAX_RESERVATIONS {
      return false;
    }
    assert ConflictFree([]);
    hide ConflictFree, WellFormedEntry;
    var r := l.reservations;
    var ids: set<(string, uint32)>, sites: set<string> := {}, {};
    for n := 0 to |r|
      invariant sites == SitesOf(r, n) && ids == KeysOf(r, n)
      invariant ConflictFree(r[..n])
      invariant forall i | 0 <= i < n :: WellFormedEntry(r[i])
    {
      var e := r[n];
      ConflictStep(r, n);
      if !WellFormedEntry(e) {
        return false;
      }
      if (e.uuid, e.project) in ids || e.site in sites {
        ConflictPrefix(r, n + 1);
        return false;
      }
      ids, sites := ids + {(e.uuid, e.project)}, sites + {e.site};
    }
    assert r[..|r|] == r;
    return true;
  }

  function SitesOf(r: seq<QuotaReservation>, n: nat): set<string>
    requires n <= |r|
  {
    if n == 0 then {} else SitesOf(r, n - 1) + {r[n - 1].site}
  }

  function KeysOf(r: seq<QuotaReservation>, n: nat): set<(string, uint32)>
    requires n <= |r|
  {
    if n == 0 then {} else KeysOf(r, n - 1) + {(r[n - 1].uuid, r[n - 1].project)}
  }

  lemma {:induction false} SitesOfMeaning(r: seq<QuotaReservation>, n: nat, x: string)
    requires n <= |r|
    ensures x in SitesOf(r, n) <==> exists i :: 0 <= i < n && r[i].site == x
  {
    if n > 0 {
      SitesOfMeaning(r, n - 1, x);
    }
  }

  lemma {:induction false} KeysOfMeaning(r: seq<QuotaReservation>, n: nat, x: (string, uint32))
    requires n <= |r|
    ensures x in KeysOf(r, n) <==> exists i :: 0 <= i < n && r[i].uuid == x.0 && r[i].project == x.1
  {
    if n > 0 {
      KeysOfMeaning(r, n - 1, x);
    }
  }

  /** The two map lookups decide whether the next entry conflicts with an earlier one. */
  lemma ConflictStep(r: seq<QuotaReservation>, n: nat)
    requires n < |r|
    ensures ConflictFree(r[..n + 1]) <==>
              ConflictFree(r[..n]) && r[n].site !in SitesOf(r, n) && (r[n].uuid, r[n].project) !in KeysOf(r, n)
  {
    SitesOfMeaning(r, n, r[n].site);
    KeysOfMeaning(r, n, (r[n].uuid, r[n].project));
    hide SitesOf, KeysOf;
    var front, longer := r[..n], r[..n + 1];
    assert forall i | 0 <= i < n :: front[i] == r[i] && longer[i] == r[i];
    assert longer[n] == r[n];
    if ConflictFree(longer) {
      ConflictPrefix(longer, n);
      assert longer[..n] == front;
    }
  }

  lemma ConflictPrefix(r: seq<QuotaReservation>, n: nat)
    requires n <= |r|
    ensures ConflictFree(r) ==> ConflictFree(r[..n])
  {
  }

  predicate PlausibleInventory(v: Inventory) {
    && v.verified && ValidUUID(v.uuid) && 0 < v.scanned <= 1000000
    && 0 < v.wordpress <= 1000000 && 0 < v.database <= 1000000 && v.listed
    && v.wordpress + v.database <= v.scanned
  }

  /** storageInventory: accepts exactly plausible reports with a strictly rising list. */
  method CheckInventory(v: Inventory) returns (ok: bool)
    ensures ok <==> GoodInventory(v)
  {
    if !PlausibleInventory(v) {
      return false;
    }
    ok := CheckCensusIds(v.ids);
  }

  /** The search loop: map lookups upwards from the first provisional identifier. */
  method FindLeastFree(occupied: set<uint32>) returns (p: uint32)
    requires |occupied| < UINT32_MAX - FIRST_PROJECT
    ensures LeastFree(p, occupied) && p <= FIRST_PROJECT + |occupied|
  {
    p := FIRST_PROJECT;
    while p in occupied
      invariant FIRST_PROJECT <= p && forall x: uint32 | FIRST_PROJECT <= x < p :: x in occupied
      decreases UINT32_MAX - p
    {
      SearchStaysLow(p, occupied);
      p := p + 1;
    }
    SearchStaysLow(p, occupied);
  }

  method CollectTaken(ids: seq<uint32>, r: seq<QuotaReservation>, uuid: string) returns (occupied: set<uint32>)
    ensures occupied == Taken(ids, r, uuid)
  {
    occupied := {};
    for n := 0 to |ids|
      invariant occupied == Elements(ids[..n])
    {
      assert ids[..n + 1] == ids[..n] + [ids[n]];
      assert Elements(ids[..n + 1]) == Elements(ids[..n]) + {ids[n]};
      occupied := occupied + {ids[n]};
    }
    assert ids[..|ids|] == ids;
    for n := 0 to |r|
      invariant occupied == Taken(ids, r[..n], uuid)
    {
      assert r[..n + 1][..n] == r[..n];
      if r[n].uuid == uuid {
        occupied := occupied + {r[n].project};
      }
    }
    assert r[..|r|] == r;
  }

  /** A healthy registry, or none at all with no quota marker on any site. */
  ghost predicate Loadable(s: Store) {
    || (s.ledger.Stored? && ValidLedger(s.ledger.ledger) && s.sentinel.Initialized?)
    || (Pristine(s) && s.marked == {})
  }

  ghost predicate GoodInventory(v: Inventory) {
    PlausibleInventory(v) && |v.ids| <= MAX_PROJECTS && StrictlyIncreasing(v.ids) && 0 !in v.ids
  }

  /** The site's own entry still fits the census, or there is room for a new one. */
  ghost predicate Reservable(s: Store, id: string, v: Inventory) {
    && ValidID(id) && id in s.sites && id !in s.marked && Loadable(s) && GoodInventory(v)
    && (forall i | 0 <= i < |Entries(s)| && Entries(s)[i].site == id ::
          Entries(s)[i].uuid == v.uuid && Entries(s)[i].project !in v.ids)
    && (|Entries(s)| < MAX_RESERVATIONS || exists i :: 0 <= i < |Entries(s)| && Entries(s)[i].site == id)
  }

  /** The writes of a first load, each of them a step from where it began. */
  lemma Initialising(s: Store)
    ensures RunStep(s, s) && RunStep(s, s.(dir := true))
    ensures Pristine(s) ==>
              && RunStep(s, s.(dir := true, sentinel := Initialized))
              && RunStep(s, s.(dir := true, sentinel := Initialized, ledger := Stored(EMPTY_LEDGER)))
  {
    hide ValidLedger;
  }

  /** A load followed by one appended entry. */
  lemma Appending(a: Store, b: Store, e: QuotaReservation)
    requires RunStep(a, b) && b.ledger.Stored? && b.sentinel.Initialized? && b.dir && ValidLedger(b.ledger.ledger)
    requires b.ledger == a.ledger || (Pristine(a) && b.ledger == Stored(EMPTY_LEDGER))
    requires a.ledger == b.ledger ==> b == a
    requires ValidLedger(b.ledger.ledger.(reservations := b.ledger.ledger.reservations + [e]))
    ensures RunStep(a, b.(ledger := Stored(b.ledger.ledger.(reservations := b.ledger.ledger.reservations + [e]))))
  {
    hide ValidLedger;
    var l := b.ledger.ledger;
    assert Appended(b.ledger, Stored(l.(reservations := l.reservations + [e])));
  }

  lemma AppendKeepsValid(l: Ledger, e: QuotaReservation)
    requires ValidLedger(l) && |l.reservations| < MAX_RESERVATIONS && WellFormedEntry(e)
    requires forall i | 0 <= i < |l.reservations| ::
               l.reservations[i].site != e.site
                 && !(l.reservations[i].uuid == e.uuid && l.reservations[i].project == e.project)
    ensures ValidLedger(l.(reservations := l.reservations + [e]))
  {
  }

  /** The loop over the ledger for the site's own entry; its length if there is none. */
  method FirstEntry(r: seq<QuotaReservation>, id: string) returns (n: nat)
    ensures n <= |r| && (n < |r| ==> r[n].site == id) && forall k | 0 <= k < n :: r[k].site != id
  {
    n := 0;
    while n < |r| && r[n].site != id
      invariant n <= |r| && forall k | 0 <= k < n :: r[k].site != id
    {
      n := n + 1;
    }
  }

  /** The entry for a new site: the least identifier free in census and ledger. */
  method FreshEntry(l: Ledger, id: string, inventory: Inventory) returns (e: QuotaReservation)
    requires ValidLedger(l) && |l.reservations| < MAX_RESERVATIONS && GoodInventory(inventory) && ValidID(id)
    requires forall k | 0 <= k < |l.reservations| :: l.reservations[k].site != id
    ensures e.site == id && e.uuid == inventory.uuid && e.project !in inventory.ids
    ensures LeastFree(e.project, Taken(inventory.ids, l.reservations, inventory.uuid)) && e.project <= 1069631
    ensures ValidLedger(l.(reservations := l.reservations + [e]))
  {
    hide ConflictFree, Taken;
    var r := l.reservations;
    var occupied := CollectTaken(inventory.ids, r, inventory.uuid);
    TakenSize(inventory.ids, r, inventory.uuid);
    var project := FindLeastFree(occupied);
    e := QuotaReservation(id, inventory.uuid, project);
    TakenMeaning(inventory.ids, r, inventory.uuid, project);
    AppendKeepsValid(l, e);
  }

  datatype Loading = Halted(outcome: Outcome) | Loaded(ledger: Ledger, rest: Budget)

  class QuotaRegistry {
    var dir: bool
    var ledger: LedgerFile
    var sentinel: Sentinel
    var sites: set<string>
    var marked: set<string>

    constructor (sites: set<string>)
      ensures Pristine(State()) && this.sites == sites
    {
      dir, ledger, sentinel, this.sites, marked := false, NoLedger, NoSentinel, sites, {};
    }

    function State(): Store
      reads this
    {
      Store(dir, ledger, sentinel, sites, marked)
    }

    /** lockQuotaLedger followed by loadQuotaLedger. */
    method Load(env: Env) returns (r: Loading)
      requires ledger.Stored? ==> dir
      modifies `dir, `ledger, `sentinel
      ensures RunStep(old(State()), State()) && (ledger.Stored? ==> dir)
      ensures r.Loaded? ==> ValidLedger(r.ledger) && ledger == Stored(r.ledger) && sentinel.Initialized? && dir
      ensures r.Loaded? ==> (Pristine(old(State())) && r.ledger == EMPTY_LEDGER) || ledger == old(ledger)
      ensures r.Loaded? && !Pristine(old(State())) ==> State() == old(State())
      ensures r.Halted? ==> !r.outcome.Reserved? && (r.outcome.Died? ==> env.disk.killed)
      ensures r.Loaded? ==> r.rest.left + 3 >= env.disk.left && r.rest.killed == env.disk.killed
      ensures !env.lockFails && (Pristine(old(State())) ==> env.disk.left >= 4) ==>
                (r.Loaded? <==> Loadable(old(State())))
    {
      EmptyIsValid();
      Initialising(State());
      hide ValidLedger, RunStep;
      if env.lockFails {
        return Halted(Failed("lock"));
      }
      var rest, first := env.disk, !dir;
      if first {
        var w := Write(rest);
        dir := w.applied;
        if !w.ok {
          return Halted(Stopped(w));
        }
        rest := w.rest;
      }
      if first && ledger.NoLedger? && sentinel.NoSentinel? {
        if marked != {} {
          return Halted(Failed("existing quota markers require ledger recovery"));
        }
        var w := Write(rest);
        if w.applied {
          sentinel := Initialized;
        }
        if !w.ok {
          return Halted(Stopped(w));
        }
        w := Write(w.rest);
        if w.applied {
          ledger := Stored(EMPTY_LEDGER);
        }
        return if w.ok then Loaded(EMPTY_LEDGER, w.rest) else Halted(Stopped(w));
      }
      if !ledger.Stored? || !sentinel.Initialized? {
        return Halted(Failed("quota ledger is missing or uninitialized"));
      }
      var valid := ValidateLedger(ledger.ledger);
      return if valid then Loaded(ledger.ledger, rest) else Halted(Failed("invalid or conflicting quota reservation"));
    }

    /** reserveQuotaProject. */
    method Reserve(id: string, env: Env) returns (o: Outcome)
      requires ledger.Stored? ==> dir
      modifies `dir, `ledger, `sentinel
      ensures RunStep(old(State()), State()) && (ledger.Stored? ==> dir)
      ensures o.Died? ==> env.disk.killed
      // A known site gets its recorded entry back, and nothing changes.
      ensures o.Reserved? && (exists e :: e in Entries(old(State())) && e.site == id) ==>
                o.entry in Entries(old(State())) && o.entry.site == id && State() == old(State())
      ensures o.Reserved? ==> o.entry in Entries(State()) && o.entry.site == id && o.entry.uuid == env.inventory.uuid
      ensures o.Reserved? ==> o.entry.project !in env.inventory.ids
      ensures o.Reserved? ==> ValidID(id) && id in sites && id !in old(marked) && Loadable(State())
      // A new site gets the least identifier free in the census and in the ledger.
      ensures o.Reserved? && (forall e | e in Entries(old(State())) :: e.site != id) ==>
                && Entries(State()) == Entries(old(State())) + [o.entry]
                && LeastFree(o.entry.project, Taken(env.inventory.ids, Entries(old(State())), env.inventory.uuid))
                && o.entry.project <= 1069631
      ensures Reservable(old(State()), id, env.inventory) && !env.lockFails && !env.probeFails && env.disk.left >= 5 ==>
                o.Reserved?
    {
      hide RunStep, ValidLedger, Taken, LeastFree, WellFormedEntry, PlausibleInventory, StrictlyIncreasing, HexString;
      ghost var before := State();
      Initialising(before);
      if !ValidID(id) || id !in sites || id in marked {
        return Failed("site");
      }
      var loading := Load(env);
      if loading.Halted? {
        return loading.outcome;
      }
      var r := loading.ledger.reservations;
      assert Entries(State()) == r == Entries(old(State()));
      var inventory := env.inventory;
      var usable := CheckInventory(inventory);
      if env.probeFails || !usable {
        return Failed("inventory");
      }
      var n := FirstEntry(r, id);
      if n < |r| {
        assert r[n] in r;
        if r[n].uuid != inventory.uuid || r[n].project in inventory.ids {
          return Failed("reserved project changed filesystem or became occupied");
        }
        return Reserved(r[n]);
      }
      if |r| >= MAX_RESERVATIONS {
        return Failed("quota ledger reservation limit reached");
      }
      var entry := FreshEntry(loading.ledger, id, inventory);
      Appending(before, State(), entry);
      var grown := loading.ledger.(reservations := r + [entry]);
      assert ValidLedger(grown) && (r + [entry])[|r|] == entry;
      var w := Write(loading.rest);
      if w.applied {
        ledger := Stored(grown);
      }
      return if w.ok then Reserved(entry) else Stopped(w);
    }
  }

  /** Whatever the census and the ledger hold, a fresh identifier stays at or below 1069631,
      so the 32-bit exhaustion branch is never reached. */
  lemma FreshIdentifierBound(ids: seq<uint32>, r: seq<QuotaReservation>, uuid: string, p: uint32)
    requires |ids| <= MAX_PROJECTS && |r| < MAX_RESERVATIONS && LeastFree(p, Taken(ids, r, uuid))
    ensures p <= 1069631
  {
    TakenSize(ids, r, uuid);
    SearchStaysLow(p, Taken(ids, r, uuid));
  }
}
