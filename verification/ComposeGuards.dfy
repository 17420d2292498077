/**
 Where the writer policy's rewrite (cmd/worker/security.go) puts its guard lines. The rewrite
 counts lines over the whole text; which service a line belongs to is decided by the header
 above it. Each service gets one guard line exactly if each but cli had one legacy line.
 */
module ComposeGuards {
  import opened Common
  import opened Compose
  import opened RestartPolicy
  import opened ComposePolicies

  // ---- Sections ----

  /** The header in force after a line: the last one of the second level, none behind a line of
      the outermost level. */
  function Below(before: string, line: string): string {
    if Outer(line) then "" else if Header(line) then line else before
  }

  function HeaderAt(before: string, lines: seq<string>): string {
    if lines == [] then before else Below(HeaderAt(before, lines[..|lines| - 1]), lines[|lines| - 1])
  }

  /** The lines below the header h that end in the suffix. */
  function CountIn(before: string, lines: seq<string>, suffix: string, h: string): nat {
    if lines == [] then 0
    else
      CountIn(before, lines[..|lines| - 1], suffix, h)
      + if HeaderAt(before, lines) == h && HasSuffix(lines[|lines| - 1], suffix) then 1 else 0
  }

  lemma {:induction false} CountInAppend(before: string, a: seq<string>, b: seq<string>, suffix: string, h: string)
    ensures HeaderAt(before, a + b) == HeaderAt(HeaderAt(before, a), b)
    ensures CountIn(before, a + b, suffix, h) ==
              CountIn(before, a, suffix, h) + CountIn(HeaderAt(before, a), b, suffix, h)
  {
    hide HasSuffix, Below;
    if b == [] {
      assert a + b == a;
    } else {
      CountInAppend(before, a, b[..|b| - 1], suffix, h);
      assert (a + b)[..|a + b| - 1] == a + b[..|b| - 1];
    }
  }

  lemma CountInOne(before: string, line: string, suffix: string, h: string)
    ensures HeaderAt(before, [line]) == Below(before, line)
    ensures CountIn(before, [line], suffix, h) == if Below(before, line) == h && HasSuffix(line, suffix) then 1 else 0
  {
    assert [line][..0] == [];
    assert CountIn(before, [], suffix, h) == 0 && HeaderAt(before, []) == before;
    hide HasSuffix, Below;
  }

  /** What four different sections have together is no more than the text has. */
  lemma {:induction false} SectionsSum(before: string, lines: seq<string>, suffix: string,
                                       a: string, b: string, c: string, d: string)
    requires a != b && a != c && a != d && b != c && b != d && c != d
    ensures CountIn(before, lines, suffix, a) + CountIn(before, lines, suffix, b)
            + CountIn(before, lines, suffix, c) + CountIn(before, lines, suffix, d) <= CountSuffix(lines, suffix)
  {
    hide HasSuffix, HeaderAt;
    if lines != [] {
      SectionsSum(before, lines[..|lines| - 1], suffix, a, b, c, d);
    }
  }

  lemma {:induction false} SectionWithin(before: string, lines: seq<string>, suffix: string, h: string)
    ensures CountIn(before, lines, suffix, h) <= CountSuffix(lines, suffix)
  {
    hide HasSuffix, HeaderAt;
    if lines != [] {
      SectionWithin(before, lines[..|lines| - 1], suffix, h);
    }
  }

  /** Two lines are the same for the sections. */
  predicate SameLevel(a: string, b: string) {
    (Outer(a) <==> Outer(b)) && (Header(a) <==> Header(b)) && (Header(a) ==> a == b)
  }

  lemma {:induction false} CountInSame(before: string, a: seq<string>, b: seq<string>, suffix: string, h: string)
    requires |a| == |b| && forall k | 0 <= k < |a| ::
               SameLevel(a[k], b[k]) && (HasSuffix(a[k], suffix) <==> HasSuffix(b[k], suffix))
    ensures HeaderAt(before, a) == HeaderAt(before, b) && CountIn(before, a, suffix, h) == CountIn(before, b, suffix, h)
  {
    if a != [] {
      CountInSame(before, a[..|a| - 1], b[..|b| - 1], suffix, h);
      hide HasSuffix, Outer, Header;
    }
  }

  // ---- Swapping and inserting ----

  /** Option lines are neither headers nor move a section. */
  lemma SwapLineLevel(line: string, quoted: string)
    ensures SameLevel(line, SwapLine(line, quoted))
  {
    var l, g := Legacy(), Guard(quoted);
    if HasSuffix(line, l) {
      var p := line[..|line| - |l|];
      assert line == p + l;
      assert l[|l| - 1] == ']' && g[|g| - 1] == ']' && l[0] == ' ' && g[0] == ' ';
      NoHeader(line);
      NoHeader(p + g);
    }
  }

  lemma NoHeader(line: string)
    requires line != "" && line[|line| - 1] == ']'
    ensures !Header(line)
  {
    assert line[|line| - 1..][0] == ']';
  }

  lemma {:induction false} SwapAllSections(before: string, front: seq<string>, quoted: string, h: string)
    requires Quoted(quoted)
    ensures HeaderAt(before, SwapAll(front, quoted)) == HeaderAt(before, front)
    ensures CountIn(before, SwapAll(front, quoted), Guard(quoted), h) ==
            CountIn(before, front, Legacy(), h) + CountIn(before, front, Guard(quoted), h)
  {
    if front != [] {
      var n := |front| - 1;
      SwapAllSections(before, front[..n], quoted, h);
      SwapLineLevel(front[n], quoted);
      SwapLineMeaning(front[n], quoted);
      SuffixesExclude(front[n], quoted);
      assert SwapAll(front, quoted)[..n] == SwapAll(front[..n], quoted);
      hide HasSuffix, SwapLine, Guard, Legacy, Outer, Header;
    }
  }

  lemma {:induction false} CountedSomewhere(front: seq<string>, i: nat, h: string) returns (k: nat)
    requires CountBetween(front, i, h) > 0
    ensures i <= k < |front| && front[k] == h
    decreases |front| - i
  {
    if front[i] == h {
      k := i;
    } else {
      k := CountedSomewhere(front, i + 1, h);
    }
  }

  /** The line behind which the new guard goes is the header of cli itself. */
  lemma OnlyCli(front: seq<string>, k: nat)
    requires CountSuffix(front, Service("cli")) == 1 && CountBetween(front, 1, Service("cli")) == 1
    requires k < |front| && HasSuffix(front[k], Service("cli"))
    ensures front[k] == Service("cli")
  {
    var cli := Service("cli");
    SelfSuffix(cli);
    hide Service, HasSuffix, CountSuffix, CountBetween;
    var j := CountedSomewhere(front, 1, cli);
    if k < j {
      OnlyOnce(front, cli, k, j);
    } else if j < k {
      OnlyOnce(front, cli, j, k);
    }
  }

  lemma InsertedSections(front: seq<string>, k: nat, line: string, suffix: string, h: string)
    requires k < |front| && Header(front[k]) && !Outer(front[k]) && !Header(line) && !Outer(line)
    ensures CountIn("", Inserted(front, k, line), suffix, h) ==
            CountIn("", front, suffix, h) + if h == front[k] && HasSuffix(line, suffix) then 1 else 0
  {
    hide HasSuffix, Header, Outer, HeaderAt, CountIn;
    var a, b, c := front[..k], [front[k]], front[k + 1..];
    assert front == a + (b + c) && Inserted(front, k, line) == a + (b + ([line] + c));
    CountInAppend("", a, b + c, suffix, h);
    CountInAppend("", a, b + ([line] + c), suffix, h);
    CountInAppend(HeaderAt("", a), b, c, suffix, h);
    CountInAppend(HeaderAt("", a), b, [line] + c, suffix, h);
    CountInOne(HeaderAt("", a), front[k], suffix, h);
    CountInAppend(front[k], [line], c, suffix, h);
    CountInOne(front[k], line, suffix, h);
  }

  lemma GuardLevel(quoted: string)
    ensures !Header(Guard(quoted)) && !Outer(Guard(quoted))
    ensures Header(Service("cli")) && !Outer(Service("cli"))
  {
    var g := Guard(quoted);
    assert g[|g| - 1] == ']' && Stem()[0] == ' ' && g[0] == ' ';
    NoHeader(g);
    var c := Service("cli");
    assert c == "  cli:" && c[5..] == ":" && c[2] == 'c' && "   "[2] == ' ';
  }

  /** The whole new text: each line as it was or with its legacy option swapped, and one guard
      line more, directly behind the header of cli. */
  lemma MigratedLines(t: Text, quoted: string) returns (k: nat)
    requires Migratable(t) && FamiliarServices(t) && Quoted(quoted)
    ensures k < |t.front| && t.front[k] == Service("cli") && Migrated(t, quoted).rest == t.rest
    ensures Migrated(t, quoted).front == Inserted(SwapAll(t.front, quoted), k, Guard(quoted))
    ensures SwapAll(t.front, quoted)[k] == Service("cli")
  {
    var cli, r := Service("cli"), SwapAll(t.front, quoted);
    SwapAllCounts(t.front, quoted);
    SwapAllServices(t.front, quoted, cli);
    hide Service, HasSuffix, Guard, SwapAll, CountSuffix, CountBetween, InsertAfterFirst;
    CountBetweenSame(t.front, r, 1, cli);
    k := InsertPoint(r, cli, Guard(quoted));
    OnlyCli(r, k);
  }

  lemma {:induction false} SwappedLine(front: seq<string>, quoted: string, k: nat)
    requires k < |front|
    ensures SwapAll(front, quoted)[k] == SwapLine(front[k], quoted)
  {
    hide SwapLine;
    if k < |front| - 1 {
      SwappedLine(front[..|front| - 1], quoted, k);
    }
  }

  /** Migration turns legacy lines into guard lines where they are, and adds one below cli. */
  lemma MigratedSections(t: Text, quoted: string, h: string)
    requires Migratable(t) && FamiliarServices(t) && Quoted(quoted)
    ensures CountIn("", Migrated(t, quoted).front, Guard(quoted), h) ==
            CountIn("", t.front, Legacy(), h) + if h == Service("cli") then 1 else 0
  {
    var g, r := Guard(quoted), SwapAll(t.front, quoted);
    var k := MigratedLines(t, quoted);
    MigratedMeaning(t, quoted);
    MigratedCounts(t, quoted);
    GuardLevel(quoted);
    SelfSuffix(g);
    hide Guard, Legacy, Service, SwapAll, CountIn, HeaderAt, CountSuffix, HasSuffix, Header, Outer, Inserted, Migrated,
         Migratable, FamiliarServices, HitsIn, Hits, Writers, AllHits;
    InsertedSections(r, k, g, g, h);
    SwapAllSections("", t.front, quoted, h);
    SectionWithin("", t.front, g, h);
  }

  // ---- The restart rewrite on top ----

  lemma FamiliarLevel(line: string)
    requires Familiar(line)
    ensures !Header(line) && !Outer(line)
  {
    assert "   " <= line;
  }

  lemma RestartedLevel(lines: seq<string>, k: nat)
    requires Restartable(lines) && k < |lines|
    ensures SameLevel(lines[k], Restarted(lines)[k])
  {
    assert Familiar(RestartNo());
    RestartedLine(lines, k);
    FamiliarLevel(RestartNo());
    hide Header, Outer, RestartNo, Familiar;
    if IsRestart(lines, k) {
      FamiliarLevel(lines[k]);
    }
  }

  lemma WithRestartSections(t: Text, quoted: string, marked: bool, h: string)
    requires WithRestart(t, marked).Some?
    ensures CountIn("", WithRestart(t, marked).value.front, Guard(quoted), h) == CountIn("", t.front, Guard(quoted), h)
  {
    hide Restarted, Restartable, CountIn, HeaderAt, Guard, HasSuffix, SameLevel;
    if marked {
      var u, lines := WithRestart(t, marked).value, Lines(t);
      RestartedIsAlike(t, quoted);
      forall k | 0 <= k < |t.front|
        ensures SameLevel(t.front[k], u.front[k])
                && (HasSuffix(t.front[k], Guard(quoted)) <==> HasSuffix(u.front[k], Guard(quoted)))
      {
        RestartedLevel(lines, k);
        assert lines[k] == t.front[k] && Lines(u)[k] == u.front[k];
        assert Alike(t.front[k], u.front[k], quoted);
      }
      hide Alike, WithRestart;
      CountInSame("", t.front, u.front, Guard(quoted), h);
    }
  }

  // ---- Which services are guarded ----

  function WriterNames(t: Text): set<string> {
    {"wordpress", "db", "cli"} + if CountSuffix(t.front, Service("phpmyadmin")) == 1 then {"phpmyadmin"} else {}
  }

  /** Every writer's section has exactly one guard line. */
  ghost predicate EachGuarded(t: Text, quoted: string) {
    forall s | s in WriterNames(t) :: CountIn("", t.front, Guard(quoted), Service(s)) == 1
  }

  /** Every writer's section except cli's has exactly one legacy line. */
  ghost predicate EachLegacy(t: Text) {
    forall s | s in WriterNames(t) && s != "cli" :: CountIn("", t.front, Legacy(), Service(s)) == 1
  }

  lemma HeadersDiffer()
    ensures Service("wordpress") != Service("db") && Service("wordpress") != Service("cli")
    ensures Service("wordpress") != Service("phpmyadmin") && Service("db") != Service("cli")
    ensures Service("db") != Service("phpmyadmin") && Service("cli") != Service("phpmyadmin")
  {
    var w, d, c, p := Service("wordpress"), Service("db"), Service("cli"), Service("phpmyadmin");
    assert |w| == 12 && |d| == 5 && |c| == 6 && |p| == 13;
  }

  /** If each other writer has its legacy line, none is left for cli. */
  lemma NoneForCli(t: Text)
    requires Migratable(t) && EachLegacy(t)
    ensures CountIn("", t.front, Legacy(), Service("cli")) == 0
  {
    HeadersDiffer();
    var w, d, c, p := Service("wordpress"), Service("db"), Service("cli"), Service("phpmyadmin");
    assert CountIn("", t.front, Legacy(), w) == 1 && CountIn("", t.front, Legacy(), d) == 1;
    assert "phpmyadmin" in WriterNames(t) ==> CountIn("", t.front, Legacy(), p) == 1;
    SectionsSum("", t.front, Legacy(), w, d, c, p);
    hide Legacy, Service, CountIn, CountSuffix, AllHits;
  }

  /** The rewrite guards every writer's section once, exactly if the text was guarded like that
      already, or every writer but cli had one legacy line in its section. The rewrite itself
      checks only the sums. */
  lemma RewriteGuardsEachSection(t: Text, quoted: string, marked: bool)
    requires Quoted(quoted) && WriterCompose(t, quoted, marked).Some?
    ensures var u := WriterCompose(t, quoted, marked).value;
            && WriterNames(u) == WriterNames(t)
            && (EachGuarded(u, quoted) <==> if Guarded(t, quoted) then EachGuarded(t, quoted) else EachLegacy(t))
  {
    var u := WriterCompose(t, quoted, marked).value;
    RewriteGuardsAsManyAsWriters(t, quoted, marked);
    if Guarded(t, quoted) {
      forall s: string
        ensures CountIn("", u.front, Guard(quoted), Service(s)) == CountIn("", t.front, Guard(quoted), Service(s))
      {
        WithRestartSections(t, quoted, marked, Service(s));
      }
      hide Guard, Service, CountIn, CountSuffix, WithRestart, Migrated, AllHits, FamiliarServices, Legacy;
    } else {
      forall s: string
        ensures CountIn("", u.front, Guard(quoted), Service(s)) ==
                CountIn("", t.front, Legacy(), Service(s)) + if s == "cli" then 1 else 0
      {
        WithRestartSections(Migrated(t, quoted), quoted, marked, Service(s));
        MigratedSections(t, quoted, Service(s));
        OnlyCliIsCli(s);
      }
      hide Guard, Service, CountIn, CountSuffix, WithRestart, Migrated, AllHits, FamiliarServices, Legacy;
      if EachLegacy(t) {
        NoneForCli(t);
      }
    }
  }

  lemma OnlyCliIsCli(s: string)
    ensures Service(s) == Service("cli") <==> s == "cli"
  {
    assert Service(s)[2..2 + |s|] == s && |Service(s)| == 3 + |s|;
    assert Service("cli")[2..5] == "cli";
  }

  // ---- Concrete texts ----

  /** Occurrences need one of their characters at the right distance. */
  lemma {:induction false} NoHitsBefore(s: string, needle: string, q: nat)
    requires q < |needle| && forall i | q <= i < |s| :: s[i] != needle[q]
    ensures Hits(s, needle) == 0
  {
    if |s| >= |needle| {
      NoHitsBefore(s[1..], needle, q);
      PrefixChar(needle, s, q);
    }
  }

  lemma PrefixChar(p: string, s: string, q: nat)
    requires q < |p| <= |s|
    ensures p <= s ==> s[q] == p[q]
  {
  }

  lemma LegacyNamesOptionOnce()
    ensures Hits(Legacy(), OptionName()) == 1
  {
    var l, o := Legacy(), OptionName();
    assert o <= l && |o| == 17 && o[12] == '_';
    assert forall i | 13 <= i < |l| :: l[i] != '_';
    assert forall i | 12 <= i < |l[1..]| :: l[1..][i] != '_';
    hide Legacy, OptionName;
    NoHitsBefore(l[1..], o, 12);
  }

  /** The panel's own layout, without the optional database manager. */
  function Standard(): Text {
    Text(["services:", "  wordpress:", Legacy(), "  db:", Legacy(), "  cli:"], "")
  }

  /** The same with both option lines below WordPress. */
  function Shifted(): Text {
    Text(["services:", "  wordpress:", Legacy(), Legacy(), "  db:", "  cli:"], "")
  }

  function Bit(b: bool): nat { if b then 1 else 0 }

  lemma CountSix(a: string, b: string, c: string, d: string, e: string, f: string, x: string)
    ensures CountSuffix([a, b, c, d, e, f], x) ==
            Bit(HasSuffix(a, x)) + Bit(HasSuffix(b, x)) + Bit(HasSuffix(c, x)) + Bit(HasSuffix(d, x))
            + Bit(HasSuffix(e, x)) + Bit(HasSuffix(f, x))
  {
    hide HasSuffix, CountSuffix;
    assert [a, b, c, d, e, f] == [a] + ([b] + ([c] + ([d] + ([e] + [f]))));
    CountSuffixAppend([a], [b] + ([c] + ([d] + ([e] + [f]))), x);
    CountSuffixAppend([b], [c] + ([d] + ([e] + [f])), x);
    CountSuffixAppend([c], [d] + ([e] + [f]), x);
    CountSuffixAppend([d], [e] + [f], x);
    CountSuffixAppend([e], [f], x);
    CountSuffixOne(a, x);
    CountSuffixOne(b, x);
    CountSuffixOne(c, x);
    CountSuffixOne(d, x);
    CountSuffixOne(e, x);
    CountSuffixOne(f, x);
  }

  lemma HitsSix(a: string, b: string, c: string, d: string, e: string, f: string, x: string)
    ensures HitsIn([a, b, c, d, e, f], x) == Hits(a, x) + Hits(b, x) + Hits(c, x) + Hits(d, x) + Hits(e, x) + Hits(f, x)
  {
    hide Hits, HitsIn;
    assert [a, b, c, d, e, f] == [a] + ([b] + ([c] + ([d] + ([e] + [f]))));
    HitsInAppend([a], [b] + ([c] + ([d] + ([e] + [f]))), x);
    HitsInAppend([b], [c] + ([d] + ([e] + [f])), x);
    HitsInAppend([c], [d] + ([e] + [f]), x);
    HitsInAppend([d], [e] + [f], x);
    HitsInAppend([e], [f], x);
    HitsInOne(a, x);
    HitsInOne(b, x);
    HitsInOne(c, x);
    HitsInOne(d, x);
    HitsInOne(e, x);
    HitsInOne(f, x);
  }

  /** A header of the layout ends in none of the counted suffixes but its own. */
  lemma PlainLine(line: string)
    requires line in ["services:", "  wordpress:", "  db:", "  cli:"]
    ensures !HasSuffix(line, Legacy()) && !HasSuffix(line, Service("phpmyadmin"))
    ensures HasSuffix(line, Service("cli")) <==> line == "  cli:"
    ensures Hits(line, OptionName()) == 0
  {
    var l, p, c := Legacy(), Service("phpmyadmin"), Service("cli");
    assert l[|l| - 1] == ']' && p[|p| - 2] == 'n' && c[|c| - 2] == 'i' && c == "  cli:";
    assert OptionName()[12] == '_' && '_' !in line;
    var last, before := line[|line| - 1], line[|line| - 2];
    assert last == ':' && before != 'n' && (before == 'i' ==> line == "  cli:");
    hide HasSuffix, Hits, OptionName, Legacy, Service;
    EndOf(line, l);
    EndOf(line, p);
    EndOf(line, c);
    SelfSuffix(c);
    NoHits(line, OptionName(), '_');
  }

  lemma OptionLine()
    ensures HasSuffix(Legacy(), Legacy()) && !HasSuffix(Legacy(), Service("phpmyadmin"))
    ensures !HasSuffix(Legacy(), Service("cli"))
    ensures Hits(Legacy(), OptionName()) == 1
  {
    var l, p, c := Legacy(), Service("phpmyadmin"), Service("cli");
    assert l[|l| - 1] == ']' && p[|p| - 1] == ':' && c[|c| - 1] == ':';
    EndOf(l, p);
    EndOf(l, c);
    SelfSuffix(l);
    LegacyNamesOptionOnce();
  }

  /** The counts of the two layouts: four headers, and two options around the third. */
  lemma LayoutCounts(x: string, y: string)
    requires (x == Legacy() && y == "  db:") || (x == "  db:" && y == Legacy())
    ensures var f := ["services:", "  wordpress:", Legacy(), x, y, "  cli:"];
            && CountSuffix(f, Legacy()) == 2 && HitsIn(f, OptionName()) == 2
            && CountSuffix(f, Service("phpmyadmin")) == 0 && CountSuffix(f, Service("cli")) == 1
  {
    hide Legacy, OptionName, Service, HasSuffix, Hits, HitsIn, CountSuffix;
    CountSix("services:", "  wordpress:", Legacy(), x, y, "  cli:", Legacy());
    CountSix("services:", "  wordpress:", Legacy(), x, y, "  cli:", Service("phpmyadmin"));
    CountSix("services:", "  wordpress:", Legacy(), x, y, "  cli:", Service("cli"));
    HitsSix("services:", "  wordpress:", Legacy(), x, y, "  cli:", OptionName());
    PlainLine("services:");
    PlainLine("  wordpress:");
    PlainLine("  db:");
    PlainLine("  cli:");
    OptionLine();
  }

  lemma {:induction false} NoneBetween(front: seq<string>, i: nat, h: string)
    requires forall j | i <= j < |front| :: front[j] != h
    ensures CountBetween(front, i, h) == 0
    decreases |front| - i
  {
    if i < |front| {
      NoneBetween(front, i + 1, h);
    }
  }

  lemma {:induction false} OnceBetween(front: seq<string>, i: nat, k: nat, h: string)
    requires i <= k < |front| && front[k] == h
    requires forall j | i <= j < |front| :: j == k || front[j] != h
    ensures CountBetween(front, i, h) == 1
    decreases k - i
  {
    if i < k {
      OnceBetween(front, i + 1, k, h);
    } else {
      NoneBetween(front, i + 2, h);
    }
  }

  lemma LayoutHeaders(t: Text)
    requires t == Standard() || t == Shifted()
    ensures FamiliarServices(t)
  {
    var w, d, c := Service("wordpress"), Service("db"), Service("cli");
    assert w == "  wordpress:" && d == "  db:" && c == "  cli:";
    hide Service;
    if t == Standard() {
      OneOfEach(t.front, 3, 4);
    } else {
      OneOfEach(t.front, 4, 3);
    }
  }

  /** Six lines with the three headers and two options. */
  lemma OneOfEach(f: seq<string>, k: nat, m: nat)
    requires |f| == 6 && ((k == 3 && m == 4) || (k == 4 && m == 3))
    requires f[1] == Service("wordpress") && f[k] == Service("db") && f[5] == Service("cli")
    requires f[2] == f[m] == Legacy()
    ensures CountBetween(f, 1, Service("wordpress")) == 1
    ensures CountBetween(f, 1, Service("db")) == 1 && CountBetween(f, 1, Service("cli")) == 1
  {
    hide Legacy, Service, CountBetween;
    HeadersDiffer();
    ServiceEnding("wordpress");
    ServiceEnding("db");
    ServiceEnding("cli");
    OptionEndings("");
    OnceBetween(f, 1, 1, Service("wordpress"));
    OnceBetween(f, 1, k, Service("db"));
    OnceBetween(f, 1, 5, Service("cli"));
  }

  predicate Counted(t: Text) {
    && CountSuffix(t.front, Legacy()) == 2 && HitsIn(t.front, OptionName()) == 2
    && CountSuffix(t.front, Service("phpmyadmin")) == 0 && CountSuffix(t.front, Service("cli")) == 1
    && t.rest == ""
  }

  lemma StandardCounts()
    ensures Counted(Standard())
  {
    LayoutCounts("  db:", Legacy());
    hide Legacy, OptionName, Service, CountSuffix, HitsIn;
  }

  lemma ShiftedCounts()
    ensures Counted(Shifted())
  {
    LayoutCounts(Legacy(), "  db:");
    hide Legacy, OptionName, Service, CountSuffix, HitsIn;
  }

  /** Both layouts are accepted and not guarded yet. */
  lemma LayoutIsMigratable(t: Text, quoted: string)
    requires t == Standard() || t == Shifted()
    ensures Migratable(t) && FamiliarServices(t) && !Guarded(t, quoted) && Writers(t) == 3
  {
    hide Standard, Shifted, Legacy, Guard, OptionName, Service, CountSuffix, HitsIn, FamiliarServices;
    LayoutHeaders(t);
    StandardCounts();
    ShiftedCounts();
    assert Hits("", OptionName()) == 0;
  }

  /** A header that no line is has no section. */
  lemma {:induction false} NoSection(before: string, lines: seq<string>, suffix: string, h: string)
    requires before != h && h != "" && h !in lines
    ensures CountIn(before, lines, suffix, h) == 0 && HeaderAt(before, lines) != h
  {
    hide HasSuffix, Header, Outer;
    if lines != [] {
      NoSection(before, lines[..|lines| - 1], suffix, h);
    }
  }

  lemma BothBelowWordPress()
    ensures CountIn("", Shifted().front, Legacy(), Service("db")) == 0
  {
    var l, d, c := Legacy(), Service("db"), Service("cli");
    var a, b := ["services:", "  wordpress:", l, l], [d, c];
    assert d == "  db:" && c == "  cli:" && Shifted().front == a + b;
    assert l[|l| - 1] == ']' && d[|d| - 1] == ':';
    assert |"services:"| == 9 && |"  wordpress:"| == 12 && |d| == 5;
    PlainLine(d);
    PlainLine(c);
    hide Legacy, Service, CountIn, CountSuffix, HasSuffix, Shifted;
    assert d !in a;
    CountInAppend("", a, b, l, d);
    NoSection("", a, l, d);
    SectionWithin(HeaderAt("", a), b, l, d);
    assert b == [d] + [c];
    CountSuffixAppend([d], [c], l);
    CountSuffixOne(d, l);
    CountSuffixOne(c, l);
  }

  /** An accepted text after whose rewrite the database has no guard line, although there are as
      many guard lines as writers. */
  lemma ShiftedLeavesDatabaseUnguarded(quoted: string)
    requires Quoted(quoted)
    ensures var u := WriterCompose(Shifted(), quoted, false);
            && u.Some? && CountSuffix(u.value.front, Guard(quoted)) == Writers(u.value)
            && CountIn("", u.value.front, Guard(quoted), Service("db")) == 0
  {
    var t := Shifted();
    LayoutIsMigratable(t, quoted);
    RewriteGuardsAsManyAsWriters(t, quoted, false);
    MigratedSections(t, quoted, Service("db"));
    HeadersDiffer();
    BothBelowWordPress();
    hide Guard, Legacy, Service, CountIn, CountSuffix, Migratable, FamiliarServices, Guarded, Writers, Migrated;
  }

  /** One option below one header, whatever comes before. */
  lemma OptionBelow(before: string, header: string, h: string)
    requires header in [Service("wordpress"), Service("db")]
    ensures HeaderAt(before, [header, Legacy()]) == header
    ensures CountIn(before, [header, Legacy()], Legacy(), h) == if h == header then 1 else 0
  {
    var l := Legacy();
    assert Service("wordpress") == "  wordpress:" && Service("db") == "  db:";
    assert Header(header) && !Outer(header) by {
      assert header[|header| - 1..] == ":" && header[2] != ' ' && "   "[2] == ' ';
    }
    assert !Header(l) && !Outer(l) by {
      assert l[|l| - 1] == ']' && Stem()[0] == ' ' && l[0] == ' ';
      NoHeader(l);
    }
    PlainLine(header);
    SelfSuffix(l);
    hide Legacy, Service, Header, Outer, HasSuffix, HeaderAt, CountIn;
    assert [header, l] == [header] + [l];
    CountInAppend(before, [header], [l], l, h);
    CountInOne(before, header, l, h);
    CountInOne(header, l, l, h);
  }

  lemma StandardSections(h: string)
    requires h == Service("wordpress") || h == Service("db")
    ensures CountIn("", Standard().front, Legacy(), h) == 1
  {
    var l, w, d, c := Legacy(), Service("wordpress"), Service("db"), Service("cli");
    assert w == "  wordpress:" && d == "  db:" && c == "  cli:";
    var tail := [d, l] + [c];
    assert Standard().front == ["services:"] + ([w, l] + tail);
    HeadersDiffer();
    PlainLine("services:");
    PlainLine(c);
    hide Standard, Legacy, Service, CountIn, HeaderAt, HasSuffix, Hits, OptionName, Below;
    CountInAppend("", ["services:"], [w, l] + tail, l, h);
    CountInOne("", "services:", l, h);
    CountInAppend(HeaderAt("", ["services:"]), [w, l], tail, l, h);
    OptionBelow(HeaderAt("", ["services:"]), w, h);
    CountInAppend(w, [d, l], [c], l, h);
    OptionBelow(w, d, h);
    CountInOne(d, c, l, h);
  }

  lemma StandardHasEachLegacy()
    ensures EachLegacy(Standard())
  {
    hide Standard, Legacy, Service, CountIn, CountSuffix, HitsIn, OptionName;
    StandardCounts();
    StandardSections(Service("wordpress"));
    StandardSections(Service("db"));
  }

  /** The panel's own layout has every option where it belongs, so each writer gets its guard. */
  lemma StandardIsGuarded(quoted: string)
    requires Quoted(quoted)
    ensures var u := WriterCompose(Standard(), quoted, false);
            u.Some? && EachGuarded(u.value, quoted)
  {
    hide Standard, Guard, Migrated, Migratable, FamiliarServices, Guarded, EachGuarded, EachLegacy, Writers;
    LayoutIsMigratable(Standard(), quoted);
    StandardHasEachLegacy();
    RewriteGuardsEachSection(Standard(), quoted, false);
  }

  function NamingHead(): string { "\"seccomp=/srv/" }

  function NamingTail(): string { "    security_opt:/seccomp.json\"" }

  /** A quoted path that contains the option's name. */
  function Naming(): string { NamingHead() + NamingTail() }

  lemma NamingIsQuoted()
    ensures Quoted(Naming())
  {
    var h, t := NamingHead(), NamingTail();
    assert h[0] == '"' && t[|t| - 1] == '"' && '\n' !in h && '\n' !in t;
    hide NamingHead, NamingTail;
  }

  lemma NamingTwice()
    ensures Hits(Guard(Naming()), OptionName()) > 1
  {
    var head, tail, o := NamingHead(), NamingTail(), OptionName();
    assert o <= Stem() && o <= tail && o != "";
    hide Stem, OptionName, NamingHead, NamingTail, Hits;
    assert Guard(Naming()) == (Stem() + ", " + head) + (tail + "]");
    TwoHits(Stem() + ", " + head, tail + "]", o);
  }

  lemma TwoHits(a: string, b: string, needle: string)
    requires needle != "" && needle <= a && needle <= b
    ensures Hits(a + b, needle) >= 2
  {
    assert (a + b)[1..] == a[1..] + b;
    SuffixHits(a[1..], b, needle);
  }

  /** With such a path the panel's own layout is rewritten, and the result is refused. */
  lemma OptionInPathIsRefused()
    ensures Quoted(Naming()) && Migratable(Standard())
    ensures var u := WriterCompose(Standard(), Naming(), false);
            u.Some? && WriterCompose(u.value, Naming(), false).None?
  {
    NamingIsQuoted();
    NamingTwice();
    LayoutIsMigratable(Standard(), Naming());
    WriterRewriteIsStable(Standard(), Naming(), false);
    hide Guard, Migrated, Migratable, FamiliarServices, Guarded, Standard, Hits, OptionName;
  }
}
