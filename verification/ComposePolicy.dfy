/**
 The writer policy's rewrite of a Compose file (cmd/worker/security.go). A text is given by
 its newline-terminated lines and the rest behind the last newline. Counting a text that ends
 in a newline is counting the terminated lines that end in it; the security option's name
 cannot overlap itself, so its occurrences can be counted position by position.
 */
module ComposePolicies {
  import opened Common
  import opened Compose
  import opened RestartPolicy

  function OptionName(): string { "    security_opt:" }

  /** What the old and the new option line have in common. */
  function Stem(): string { OptionName() + (" " + "[no-new-privileges:true") }

  function Legacy(): string { Stem() + "]" }

  /** writerOptionLine, for the quoted seccomp option of a site. */
  function Guard(quoted: string): string { Stem() + ", " + quoted + "]" }

  /** A result of strconv.Quote. */
  predicate Quoted(q: string) {
    |q| >= 2 && q[0] == '"' && q[|q| - 1] == '"' && '\n' !in q
  }

  function Service(name: string): string { "  " + name + ":" }

  function CountSuffix(front: seq<string>, suffix: string): nat {
    if front == [] then 0
    else CountSuffix(front[..|front| - 1], suffix) + if HasSuffix(front[|front| - 1], suffix) then 1 else 0
  }

  /** Occurrences of the line h between two newlines; one newline serves only once. */
  function CountBetween(front: seq<string>, i: nat, h: string): nat
    decreases |front| - i
  {
    if i >= |front| then 0
    else if front[i] == h then 1 + CountBetween(front, i + 2, h)
    else CountBetween(front, i + 1, h)
  }

  /** Positions in s where the needle occurs. */
  function Hits(s: string, needle: string): nat {
    if |s| < |needle| || s == "" then 0
    else (if needle <= s then 1 else 0) + Hits(s[1..], needle)
  }

  function HitsIn(front: seq<string>, needle: string): nat {
    if front == [] then 0 else HitsIn(front[..|front| - 1], needle) + Hits(front[|front| - 1], needle)
  }

  datatype Text = Text(front: seq<string>, rest: string)

  function Writers(t: Text): nat {
    if CountSuffix(t.front, Service("phpmyadmin")) == 1 then 4 else 3
  }

  predicate FamiliarServices(t: Text) {
    && CountBetween(t.front, 1, Service("wordpress")) == 1
    && CountBetween(t.front, 1, Service("db")) == 1
    && CountBetween(t.front, 1, Service("cli")) == 1
  }

  function AllHits(t: Text): nat {
    HitsIn(t.front, OptionName()) + Hits(t.rest, OptionName())
  }

  predicate Guarded(t: Text, quoted: string) {
    CountSuffix(t.front, Guard(quoted)) == Writers(t) && AllHits(t) == Writers(t)
  }

  predicate Migratable(t: Text) {
    && CountSuffix(t.front, Legacy()) == Writers(t) - 1 && AllHits(t) == Writers(t) - 1
    && CountSuffix(t.front, Service("cli")) == 1
  }

  function SwapLine(line: string, quoted: string): string {
    if HasSuffix(line, Legacy()) then line[..|line| - |Legacy()|] + Guard(quoted) else line
  }

  /** strings.ReplaceAll of the legacy line. */
  function SwapAll(front: seq<string>, quoted: string): (r: seq<string>)
    ensures |r| == |front|
  {
    if front == [] then []
    else SwapAll(front[..|front| - 1], quoted) + [SwapLine(front[|front| - 1], quoted)]
  }

  /** strings.Replace, once: a line put behind the first one with the suffix. */
  function InsertAfterFirst(front: seq<string>, suffix: string, line: string): seq<string> {
    if front == [] then []
    else if HasSuffix(front[0], suffix) then [front[0], line] + front[1..]
    else [front[0]] + InsertAfterFirst(front[1..], suffix, line)
  }

  function Migrated(t: Text, quoted: string): Text {
    t.(front := InsertAfterFirst(SwapAll(t.front, quoted), Service("cli"), Guard(quoted)))
  }

  function Lines(t: Text): seq<string> {
    t.front + [t.rest]
  }

  function TextOf(lines: seq<string>): Text
    requires |lines| > 0
  {
    Text(lines[..|lines| - 1], lines[|lines| - 1])
  }

  /** The restart rewrite for sites with a quota marker. */
  ghost function WithRestart(t: Text, marked: bool): Option<Text> {
    if !marked then Some(t)
    else if Restartable(Lines(t)) then Some(TextOf(Restarted(Lines(t))))
    else None
  }

  /** writerCompose, when the marker itself is readable. */
  ghost function WriterCompose(t: Text, quoted: string, marked: bool): Option<Text> {
    if !FamiliarServices(t) then None
    else if Guarded(t, quoted) then WithRestart(t, marked)
    else if Migratable(t) then WithRestart(Migrated(t, quoted), marked)
    else None
  }

  // ---- Counting ----

  lemma {:induction false} CountSuffixAppend(a: seq<string>, b: seq<string>, x: string)
    ensures CountSuffix(a + b, x) == CountSuffix(a, x) + CountSuffix(b, x)
  {
    if b == [] {
      assert a + b == a;
    } else {
      CountSuffixAppend(a, b[..|b| - 1], x);
      assert (a + b)[..|a + b| - 1] == a + b[..|b| - 1];
      hide HasSuffix;
    }
  }

  lemma {:induction false} HitsInAppend(a: seq<string>, b: seq<string>, needle: string)
    ensures HitsIn(a + b, needle) == HitsIn(a, needle) + HitsIn(b, needle)
  {
    if b == [] {
      assert a + b == a;
    } else {
      HitsInAppend(a, b[..|b| - 1], needle);
      assert (a + b)[..|a + b| - 1] == a + b[..|b| - 1];
      hide Hits;
    }
  }

  lemma CountSuffixOne(line: string, x: string)
    ensures CountSuffix([line], x) == if HasSuffix(line, x) then 1 else 0
  {
    assert [line][..0] == [];
    assert CountSuffix([], x) == 0;
    hide HasSuffix;
  }

  lemma HitsInOne(line: string, needle: string)
    ensures HitsIn([line], needle) == Hits(line, needle)
  {
    assert [line][..0] == [];
    assert HitsIn([], needle) == 0;
    hide Hits;
  }

  /** Replacing an end by one with the same long beginning shifts the number of hits by a
      constant: no hit crosses the border differently. */
  lemma {:induction false} HitsOfEnds(p: string, c: string, x: string, y: string, needle: string)
    requires |needle| <= |c| && needle != ""
    ensures Hits(p + (c + x), needle) + Hits(c + y, needle) == Hits(p + (c + y), needle) + Hits(c + x, needle)
    ensures Hits(p + (c + x), needle) >= Hits(c + x, needle)
  {
    if p == "" {
      assert p + (c + x) == c + x && p + (c + y) == c + y;
    } else {
      var s, t := p + (c + x), p + (c + y);
      assert s[1..] == p[1..] + (c + x) && t[1..] == p[1..] + (c + y);
      HitsOfEnds(p[1..], c, x, y, needle);
      assert s[..|needle|] == (p + c)[..|needle|] == t[..|needle|];
      assert needle <= s <==> needle <= t;
    }
  }

  lemma PrefixElements(p: string, s: string, c: char)
    ensures p <= s && c in p ==> c in s
  {
    if p <= s && c in p {
      var k :| 0 <= k < |p| && p[k] == c;
      assert s[k] == c;
    }
  }

  /** A text without one of the needle's characters has no hit. */
  lemma {:induction false} NoHits(s: string, needle: string, c: char)
    requires c in needle && c !in s
    ensures Hits(s, needle) == 0
  {
    if |s| >= |needle| && s != "" {
      NoHits(s[1..], needle, c);
      PrefixElements(needle, s, c);
    }
  }

  // ---- The rewrite ----

  /** The suffixes that are counted exclude each other by their last characters. */
  lemma SuffixesExclude(line: string, quoted: string)
    requires Quoted(quoted)
    ensures !(HasSuffix(line, Legacy()) && HasSuffix(line, Guard(quoted)))
    ensures HasSuffix(line, Legacy()) || HasSuffix(line, Guard(quoted)) ==>
              !HasSuffix(line, Service("phpmyadmin")) && !HasSuffix(line, Service("cli"))
  {
    var g, l := Guard(quoted), Legacy();
    EndOf(line, l);
    EndOf(line, g);
    EndOf(line, Service("phpmyadmin"));
    EndOf(line, Service("cli"));
    assert g[|g| - 1] == ']' && g[|g| - 2] == '"' && l[|l| - 1] == ']' && l[|l| - 2] == 'e';
    assert Service("phpmyadmin")[|Service("phpmyadmin")| - 1] == ':' && Service("cli")[|Service("cli")| - 1] == ':';
    hide HasSuffix, Guard, Legacy, Stem, Service;
  }

  lemma EndOf(line: string, suffix: string)
    requires |suffix| >= 2
    ensures HasSuffix(line, suffix) ==>
              |line| >= 2 && line[|line| - 1] == suffix[|suffix| - 1] && line[|line| - 2] == suffix[|suffix| - 2]
  {
    if HasSuffix(line, suffix) {
      var d := |line| - |suffix|;
      assert line[d..][|suffix| - 1] == line[|line| - 1] && line[d..][|suffix| - 2] == line[|line| - 2];
    }
  }

  lemma JoinHasSuffix(p: string, s: string)
    ensures HasSuffix(p + s, s)
  {
  }

  /** What swapping does to one line. */
  lemma SwapLineMeaning(line: string, quoted: string)
    requires Quoted(quoted)
    ensures var swapped := SwapLine(line, quoted);
            && !HasSuffix(swapped, Legacy())
            && (HasSuffix(swapped, Guard(quoted)) <==> HasSuffix(line, Legacy()) || HasSuffix(line, Guard(quoted)))
            && (HasSuffix(swapped, Service("phpmyadmin")) <==> HasSuffix(line, Service("phpmyadmin")))
            && (HasSuffix(swapped, Service("cli")) <==> HasSuffix(line, Service("cli")))
  {
    var swapped := SwapLine(line, quoted);
    SuffixesExclude(line, quoted);
    SuffixesExclude(swapped, quoted);
    JoinHasSuffix(line[..if |line| >= |Legacy()| then |line| - |Legacy()| else 0], Guard(quoted));
    hide HasSuffix, Guard, Legacy, Service;
  }

  lemma SwapLineHits(line: string, quoted: string)
    requires HasSuffix(line, Legacy())
    ensures Hits(SwapLine(line, quoted), OptionName()) + Hits(Legacy(), OptionName()) ==
            Hits(line, OptionName()) + Hits(Guard(quoted), OptionName())
    ensures Hits(line, OptionName()) >= Hits(Legacy(), OptionName())
  {
    var p := line[..|line| - |Legacy()|];
    assert |OptionName()| <= |Stem()|;
    assert line == p + Legacy();
    hide Hits, Stem, OptionName;
    var tail := ", " + quoted + "]";
    assert Guard(quoted) == Stem() + tail && Legacy() == Stem() + "]";
    HitsOfEnds(p, Stem(), "]", tail, OptionName());
  }

  lemma OwnHits(quoted: string)
    ensures Hits(Legacy(), OptionName()) >= 1 && Hits(Guard(quoted), OptionName()) >= 1
  {
    assert OptionName() <= Stem() <= Legacy();
    assert Stem() <= Guard(quoted);
  }

  lemma {:induction false} SuffixHits(p: string, s: string, needle: string)
    ensures Hits(p + s, needle) >= Hits(s, needle)
  {
    if p == "" {
      assert p + s == s;
    } else {
      assert (p + s)[1..] == p[1..] + s;
      SuffixHits(p[1..], s, needle);
    }
  }

  /** Swapping keeps every other count, moves the legacy lines to guarded ones, and changes the
      hits by a fixed amount for each. */
  lemma {:induction false} SwapAllCounts(front: seq<string>, quoted: string)
    requires Quoted(quoted)
    ensures var r := SwapAll(front, quoted);
            && CountSuffix(r, Legacy()) == 0
            && CountSuffix(r, Guard(quoted)) == CountSuffix(front, Guard(quoted)) + CountSuffix(front, Legacy())
            && CountSuffix(r, Service("phpmyadmin")) == CountSuffix(front, Service("phpmyadmin"))
            && CountSuffix(r, Service("cli")) == CountSuffix(front, Service("cli"))
  {
    hide HasSuffix, SwapLine, Guard, Legacy, Service;
    if front != [] {
      var n := |front| - 1;
      SwapAllCounts(front[..n], quoted);
      SwapLineMeaning(front[n], quoted);
      SuffixesExclude(front[n], quoted);
      assert SwapAll(front, quoted)[..n] == SwapAll(front[..n], quoted);
    }
  }

  function Times(a: nat, b: nat): nat { a * b }

  lemma TimesStep(a: nat, b: nat)
    ensures Times(0, b) == 0 && Times(a + 1, b) == Times(a, b) + b
  {
  }

  lemma TimesIsSelf(w: nat, h: nat)
    requires w > 0
    ensures Times(w, h) == w <==> h == 1
  {
    assert w * h == w + w * (h - 1);
    if h > 1 {
      assert w * (h - 1) >= w;
    }
  }

  lemma {:induction false} SwapAllHits(front: seq<string>, quoted: string)
    ensures HitsIn(SwapAll(front, quoted), OptionName())
            + Times(CountSuffix(front, Legacy()), Hits(Legacy(), OptionName())) ==
            HitsIn(front, OptionName()) + Times(CountSuffix(front, Legacy()), Hits(Guard(quoted), OptionName()))
  {
    hide HasSuffix, Guard, Legacy, Hits, OptionName, Times;
    TimesStep(0, Hits(Legacy(), OptionName()));
    TimesStep(0, Hits(Guard(quoted), OptionName()));
    if front != [] {
      var n, last := |front| - 1, front[|front| - 1];
      SwapAllHits(front[..n], quoted);
      assert SwapAll(front, quoted)[..n] == SwapAll(front[..n], quoted);
      if HasSuffix(last, Legacy()) {
        SwapLineHits(last, quoted);
        TimesStep(CountSuffix(front[..n], Legacy()), Hits(Legacy(), OptionName()));
        TimesStep(CountSuffix(front[..n], Legacy()), Hits(Guard(quoted), OptionName()));
      }
    }
  }

  /** Every legacy and every guarded line has its own hits. */
  lemma {:induction false} HitsAtLeast(front: seq<string>, quoted: string)
    requires Quoted(quoted)
    ensures HitsIn(front, OptionName()) >=
            Times(CountSuffix(front, Legacy()), Hits(Legacy(), OptionName()))
            + Times(CountSuffix(front, Guard(quoted)), Hits(Guard(quoted), OptionName()))
  {
    hide Guard, Legacy, Hits, OptionName, HasSuffix, Service, Times;
    TimesStep(0, Hits(Legacy(), OptionName()));
    TimesStep(0, Hits(Guard(quoted), OptionName()));
    if front != [] {
      var n, last := |front| - 1, front[|front| - 1];
      HitsAtLeast(front[..n], quoted);
      SuffixesExclude(last, quoted);
      LineHits(last, Legacy());
      LineHits(last, Guard(quoted));
      TimesStep(CountSuffix(front[..n], Legacy()), Hits(Legacy(), OptionName()));
      TimesStep(CountSuffix(front[..n], Guard(quoted)), Hits(Guard(quoted), OptionName()));
    }
  }

  lemma LineHits(line: string, suffix: string)
    ensures HasSuffix(line, suffix) ==> Hits(line, OptionName()) >= Hits(suffix, OptionName())
  {
    if HasSuffix(line, suffix) {
      var p := line[..|line| - |suffix|];
      assert line == p + suffix;
      SuffixHits(p, suffix, OptionName());
    }
  }

  function Inserted(front: seq<string>, k: nat, line: string): seq<string>
    requires k < |front|
  {
    front[..k + 1] + [line] + front[k + 1..]
  }

  lemma FirstDoesNotCount(front: seq<string>, suffix: string)
    requires front != [] && !HasSuffix(front[0], suffix)
    ensures CountSuffix(front[1..], suffix) == CountSuffix(front, suffix)
  {
    hide HasSuffix, CountSuffix;
    assert front == [front[0]] + front[1..];
    CountSuffixAppend([front[0]], front[1..], suffix);
    CountSuffixOne(front[0], suffix);
  }

  lemma InsertedLater(front: seq<string>, k: nat, line: string)
    requires k + 1 < |front|
    ensures Inserted(front, k + 1, line) == [front[0]] + Inserted(front[1..], k, line)
  {
    assert front[..k + 2] == [front[0]] + front[1..][..k + 1];
    assert front[k + 2..] == front[1..][k + 1..];
  }

  lemma {:induction false} InsertPoint(front: seq<string>, suffix: string, line: string) returns (k: nat)
    requires CountSuffix(front, suffix) > 0
    ensures k < |front| && HasSuffix(front[k], suffix)
            && InsertAfterFirst(front, suffix, line) == Inserted(front, k, line)
  {
    hide HasSuffix;
    if HasSuffix(front[0], suffix) {
      k := 0;
      assert front[..1] == [front[0]];
    } else {
      FirstDoesNotCount(front, suffix);
      k := InsertPoint(front[1..], suffix, line);
      InsertedLater(front, k, line);
      k := k + 1;
      hide Inserted;
    }
  }

  lemma InsertedCounts(front: seq<string>, k: nat, line: string, x: string, needle: string)
    requires k < |front|
    ensures CountSuffix(Inserted(front, k, line), x) == CountSuffix(front, x) + if HasSuffix(line, x) then 1 else 0
    ensures HitsIn(Inserted(front, k, line), needle) == HitsIn(front, needle) + Hits(line, needle)
  {
    hide CountSuffix, HitsIn, Hits, HasSuffix;
    var a, b := front[..k + 1], front[k + 1..];
    assert front == a + b;
    CountSuffixAppend(a, b, x);
    CountSuffixAppend(a + [line], b, x);
    CountSuffixAppend(a, [line], x);
    CountSuffixOne(line, x);
    HitsInAppend(a, b, needle);
    HitsInAppend(a + [line], b, needle);
    HitsInAppend(a, [line], needle);
    HitsInOne(line, needle);
  }

  lemma OnlyOnce(front: seq<string>, x: string, k: nat, j: nat)
    requires CountSuffix(front, x) == 1 && j < |front| && k < j && HasSuffix(front[k], x)
    ensures !HasSuffix(front[j], x)
  {
    hide HasSuffix;
    var a, b, c := front[..k], front[k + 1..j], front[j + 1..];
    assert front == a + ([front[k]] + (b + ([front[j]] + c)));
    CountSuffixAppend(a, [front[k]] + (b + ([front[j]] + c)), x);
    CountSuffixAppend([front[k]], b + ([front[j]] + c), x);
    CountSuffixAppend(b, [front[j]] + c, x);
    CountSuffixAppend([front[j]], c, x);
    CountSuffixOne(front[k], x);
    CountSuffixOne(front[j], x);
  }

  /** A line put between two lines disturbs no count of another whole line. */
  lemma {:induction false} InsertedBetween(front: seq<string>, k: nat, line: string, i: nat, h: string)
    requires k < |front| && line != h && (front[k] == h && k + 1 < |front| ==> front[k + 1] != h)
    ensures i <= k ==> CountBetween(Inserted(front, k, line), i, h) == CountBetween(front, i, h)
    ensures i > k ==> CountBetween(Inserted(front, k, line), i + 1, h) == CountBetween(front, i, h)
    decreases |front| - i
  {
    var ins := Inserted(front, k, line);
    assert |ins| == |front| + 1 && ins[k + 1] == line;
    if i < |front| {
      assert i <= k ==> ins[i] == front[i];
      assert i > k ==> ins[i + 1] == front[i];
      hide Inserted;
      InsertedBetween(front, k, line, i + 1, h);
      InsertedBetween(front, k, line, i + 2, h);
      if i == k {
        assert CountBetween(ins, k + 1, h) == CountBetween(ins, k + 2, h);
        assert CountBetween(ins, k + 2, h) == CountBetween(front, k + 1, h);
        assert front[k] == h ==> CountBetween(front, k + 1, h) == CountBetween(front, k + 2, h);
      } else if i + 1 == k {
        assert CountBetween(ins, k + 1, h) == CountBetween(ins, k + 2, h);
        InsertedBetween(front, k, line, k + 1, h);
      }
    }
  }

  /** Counting whole lines looks at nothing but whether they are equal. */
  lemma {:induction false} CountBetweenSame(a: seq<string>, b: seq<string>, i: nat, h: string)
    requires |a| == |b| && forall k | 0 <= k < |a| :: a[k] == h <==> b[k] == h
    ensures CountBetween(a, i, h) == CountBetween(b, i, h)
    decreases |a| - i
  {
    if i < |a| {
      CountBetweenSame(a, b, i + 1, h);
      CountBetweenSame(a, b, i + 2, h);
    }
  }

  lemma GuardIsNoService(quoted: string)
    ensures Guard(quoted) != Service("wordpress") && Guard(quoted) != Service("db") && Guard(quoted) != Service("cli")
    ensures !HasSuffix(Guard(quoted), Service("phpmyadmin"))
  {
    var g := Guard(quoted);
    EndOf(g, Service("phpmyadmin"));
    assert g[|g| - 1] == ']';
    assert Service("wordpress")[|Service("wordpress")| - 1] == ':' && Service("db")[|Service("db")| - 1] == ':';
    assert Service("cli")[|Service("cli")| - 1] == ':' && Service("phpmyadmin")[|Service("phpmyadmin")| - 1] == ':';
    hide Guard, Service, HasSuffix;
  }

  lemma SelfSuffix(s: string)
    ensures HasSuffix(s, s)
  {
  }

  lemma SwapLineService(line: string, quoted: string, h: string)
    requires h != "" && h[|h| - 1] == ':'
    ensures SwapLine(line, quoted) == h <==> line == h
  {
    OptionEndings(quoted);
    EndOf(line, Legacy());
    hide Legacy, Guard;
  }

  /** A service line is never a legacy option line, so swapping leaves it alone. */
  lemma {:induction false} SwapAllServices(front: seq<string>, quoted: string, h: string)
    requires h in [Service("wordpress"), Service("db"), Service("cli")]
    ensures forall k | 0 <= k < |front| :: SwapAll(front, quoted)[k] == h <==> front[k] == h
  {
    if front != [] {
      var n := |front| - 1;
      assert h != "" && h[|h| - 1] == ':';
      hide SwapLine, HasSuffix, Legacy, Service;
      SwapAllServices(front[..n], quoted, h);
      SwapLineService(front[n], quoted, h);
      forall k | 0 <= k < |front|
        ensures SwapAll(front, quoted)[k] == h <==> front[k] == h
      {
        assert k < n ==> SwapAll(front, quoted)[k] == SwapAll(front[..n], quoted)[k] && front[k] == front[..n][k];
      }
    }
  }

  /** One service line survives the whole rewrite, counted as before. */
  lemma MigratedService(t: Text, quoted: string, h: string)
    requires CountSuffix(t.front, Service("cli")) == 1 && Quoted(quoted)
    requires h in [Service("wordpress"), Service("db"), Service("cli")]
    ensures CountBetween(Migrated(t, quoted).front, 1, h) == CountBetween(t.front, 1, h)
  {
    var cli := Service("cli");
    SelfSuffix(cli);
    GuardIsNoService(quoted);
    assert h != Guard(quoted);
    SwapAllCounts(t.front, quoted);
    SwapAllServices(t.front, quoted, h);
    var r := SwapAll(t.front, quoted);
    var k := InsertPoint(r, cli, Guard(quoted));
    CliIsApart(r, k, h);
    hide Guard, Legacy, Service, HasSuffix, SwapAll, InsertAfterFirst, CountSuffix;
    CountBetweenSame(t.front, r, 1, h);
    InsertedBetween(r, k, Guard(quoted), 1, h);
    InsertedBetween(r, k, Guard(quoted), 0, h);
    if k == 0 {
      assert Inserted(r, k, Guard(quoted))[1] == Guard(quoted);
    }
  }

  lemma CliIsApart(r: seq<string>, k: nat, h: string)
    requires k < |r| && CountSuffix(r, Service("cli")) == 1 && HasSuffix(r[k], Service("cli"))
    requires h in [Service("wordpress"), Service("db"), Service("cli")]
    ensures r[k] == h && k + 1 < |r| ==> r[k + 1] != h
  {
    if k + 1 < |r| {
      OnlyOnce(r, Service("cli"), k, k + 1);
      ServicesDiffer();
      SelfSuffix(Service("cli"));
    }
  }

  lemma ServicesDiffer()
    ensures !HasSuffix(Service("wordpress"), Service("cli")) && !HasSuffix(Service("db"), Service("cli"))
  {
    var w, d, c := Service("wordpress"), Service("db"), Service("cli");
    EndOf(w, c);
    EndOf(d, c);
    assert w[|w| - 2] == 's' && d[|d| - 2] == 'b' && c[|c| - 2] == 'i';
    hide HasSuffix, Service;
  }

  /** The counts of a migrated text. */
  lemma MigratedCounts(t: Text, quoted: string)
    requires Migratable(t) && Quoted(quoted)
    ensures var u := Migrated(t, quoted);
            && CountSuffix(u.front, Service("phpmyadmin")) == CountSuffix(t.front, Service("phpmyadmin"))
            && CountSuffix(u.front, Legacy()) == 0
            && CountSuffix(u.front, Guard(quoted)) == CountSuffix(t.front, Guard(quoted)) + Writers(t)
            && HitsIn(u.front, OptionName()) ==
               HitsIn(SwapAll(t.front, quoted), OptionName()) + Hits(Guard(quoted), OptionName())
  {
    var g, l, p, cli, o := Guard(quoted), Legacy(), Service("phpmyadmin"), Service("cli"), OptionName();
    GuardIsNoService(quoted);
    SuffixesExclude(g, quoted);
    SelfSuffix(g);
    SwapAllCounts(t.front, quoted);
    assert CountSuffix(t.front, l) == Writers(t) - 1 && CountSuffix(t.front, cli) == 1;
    hide Guard, Legacy, Service, OptionName, HasSuffix, SwapAll, InsertAfterFirst, CountSuffix, HitsIn, Hits,
         Inserted, Writers, Migratable;
    var r := SwapAll(t.front, quoted);
    var k := InsertPoint(r, cli, g);
    InsertedCounts(r, k, g, g, o);
    InsertedCounts(r, k, g, l, o);
    InsertedCounts(r, k, g, p, o);
  }

  /** What the rewrite establishes: every writer guarded, no legacy line left, and exactly as
      many options as the guard line itself contains for each. */
  lemma MigratedMeaning(t: Text, quoted: string)
    requires Migratable(t) && FamiliarServices(t) && Quoted(quoted)
    ensures var u := Migrated(t, quoted);
            && FamiliarServices(u) && Writers(u) == Writers(t) && CountSuffix(u.front, Legacy()) == 0
            && CountSuffix(u.front, Guard(quoted)) == Writers(u)
            && AllHits(u) == Times(Writers(u), Hits(Guard(quoted), OptionName()))
  {
    var g, l, o := Guard(quoted), Legacy(), OptionName();
    var w, hg := Writers(t), Hits(g, o);
    assert CountSuffix(t.front, l) == w - 1 && HitsIn(t.front, o) + Hits(t.rest, o) == w - 1 && w >= 3;
    MigratedService(t, quoted, Service("wordpress"));
    MigratedService(t, quoted, Service("db"));
    MigratedService(t, quoted, Service("cli"));
    hide Guard, Legacy, Service, OptionName, HasSuffix, SwapAll, InsertAfterFirst, CountSuffix, HitsIn, Hits,
         CountBetween, Times, Migratable, Migrated;
    MigratedCounts(t, quoted);
    OwnHits(quoted);
    SwapAllHits(t.front, quoted);
    HitsAtLeast(t.front, quoted);
    OnlyLegacyHits(w - 1, HitsIn(t.front, o), Hits(t.rest, o), CountSuffix(t.front, g), Hits(l, o), hg);
    TimesStep(w - 1, hg);
    TimesOne(w - 1);
  }

  lemma AtLeastSelf(w: nat, h: nat)
    requires h > 0
    ensures Times(w, h) >= w
  {
  }

  lemma TimesOne(n: nat)
    ensures Times(n, 1) == n
  {
  }

  /** As many options as legacy lines leave no room for others. */
  lemma OnlyLegacyHits(n: nat, inFront: nat, inRest: nat, guards: nat, legacyHits: nat, guardHits: nat)
    requires n >= 2 && inFront + inRest == n && legacyHits >= 1 && guardHits >= 1
    requires inFront >= Times(n, legacyHits) + Times(guards, guardHits)
    ensures legacyHits == 1 && guards == 0 && inRest == 0 && inFront == n
  {
    assert n * legacyHits == n + n * (legacyHits - 1);
    assert n * (legacyHits - 1) >= legacyHits - 1;
    assert guards * guardHits >= guards;
  }

  // ---- Stability ----

  lemma {:induction false} CountSuffixSame(a: seq<string>, b: seq<string>, x: string)
    requires |a| == |b| && forall k | 0 <= k < |a| :: HasSuffix(a[k], x) <==> HasSuffix(b[k], x)
    ensures CountSuffix(a, x) == CountSuffix(b, x)
  {
    hide HasSuffix;
    if a != [] {
      CountSuffixSame(a[..|a| - 1], b[..|b| - 1], x);
    }
  }

  lemma {:induction false} HitsInSame(a: seq<string>, b: seq<string>, needle: string)
    requires |a| == |b| && forall k | 0 <= k < |a| :: Hits(a[k], needle) == Hits(b[k], needle)
    ensures HitsIn(a, needle) == HitsIn(b, needle)
  {
    hide Hits;
    if a != [] {
      HitsInSame(a[..|a| - 1], b[..|b| - 1], needle);
    }
  }

  lemma OptionEndings(quoted: string)
    ensures |Legacy()| >= 2 && Legacy()[|Legacy()| - 1] == ']'
    ensures |Guard(quoted)| >= 2 && Guard(quoted)[|Guard(quoted)| - 1] == ']'
  {
  }

  lemma ServiceEnding(name: string)
    ensures |Service(name)| >= 2 && Service(name)[|Service(name)| - 1] == ':'
  {
  }

  lemma RestartEnding(line: string)
    requires Familiar(line)
    ensures |line| >= 2 && line[|line| - 1] != ']' && line[|line| - 1] != ':' && '_' !in line
  {
  }

  /** A restart line has nothing that the policy counts. */
  lemma RestartLineIsNeutral(line: string, quoted: string)
    requires Familiar(line)
    ensures !HasSuffix(line, Legacy()) && !HasSuffix(line, Guard(quoted)) && !HasSuffix(line, Service("phpmyadmin"))
            && !HasSuffix(line, Service("cli"))
    ensures Hits(line, OptionName()) == 0
    ensures line != Service("wordpress") && line != Service("db") && line != Service("cli")
  {
    assert '_' in OptionName() by {
      assert OptionName()[12] == '_';
    }
    hide HasSuffix, Legacy, Guard, Service, OptionName, Hits, Familiar;
    OptionEndings(quoted);
    ServiceEnding("wordpress");
    ServiceEnding("db");
    ServiceEnding("cli");
    ServiceEnding("phpmyadmin");
    RestartEnding(line);
    EndOf(line, Legacy());
    EndOf(line, Guard(quoted));
    EndOf(line, Service("phpmyadmin"));
    EndOf(line, Service("cli"));
    NoHits(line, OptionName(), '_');
  }

  /** The lines and the rest of a text, pointwise the same for everything the policy counts. */
  ghost predicate Alike(a: string, b: string, quoted: string) {
    && (HasSuffix(a, Legacy()) <==> HasSuffix(b, Legacy()))
    && (HasSuffix(a, Guard(quoted)) <==> HasSuffix(b, Guard(quoted)))
    && (HasSuffix(a, Service("phpmyadmin")) <==> HasSuffix(b, Service("phpmyadmin")))
    && (HasSuffix(a, Service("cli")) <==> HasSuffix(b, Service("cli")))
    && Hits(a, OptionName()) == Hits(b, OptionName())
    && (a == Service("wordpress") <==> b == Service("wordpress")) && (a == Service("db") <==> b == Service("db"))
    && (a == Service("cli") <==> b == Service("cli"))
  }

  lemma AlikeTexts(t: Text, u: Text, quoted: string)
    requires |u.front| == |t.front| && Alike(t.rest, u.rest, quoted)
    requires forall k | 0 <= k < |t.front| :: Alike(t.front[k], u.front[k], quoted)
    ensures FamiliarServices(u) == FamiliarServices(t) && Writers(u) == Writers(t) && AllHits(u) == AllHits(t)
    ensures CountSuffix(u.front, Legacy()) == CountSuffix(t.front, Legacy())
    ensures CountSuffix(u.front, Guard(quoted)) == CountSuffix(t.front, Guard(quoted))
  {
    hide HasSuffix, Legacy, Guard, Service, OptionName, Hits, CountSuffix, HitsIn, CountBetween;
    CountSuffixSame(t.front, u.front, Legacy());
    CountSuffixSame(t.front, u.front, Guard(quoted));
    CountSuffixSame(t.front, u.front, Service("phpmyadmin"));
    HitsInSame(t.front, u.front, OptionName());
    CountBetweenSame(t.front, u.front, 1, Service("wordpress"));
    CountBetweenSame(t.front, u.front, 1, Service("db"));
    CountBetweenSame(t.front, u.front, 1, Service("cli"));
  }

  lemma RestartedIsAlike(t: Text, quoted: string)
    requires Restartable(Lines(t))
    ensures var u := TextOf(Restarted(Lines(t)));
            && |u.front| == |t.front| && Alike(t.rest, u.rest, quoted)
            && (forall k | 0 <= k < |t.front| :: Alike(t.front[k], u.front[k], quoted))
            && Lines(u) == Restarted(Lines(t))
  {
    var lines := Lines(t);
    var out := Restarted(lines);
    hide Alike, Restarted, Restartable, RestartLine;
    forall k | 0 <= k < |lines|
      ensures Alike(lines[k], out[k], quoted)
    {
      RestartedLineIsAlike(lines, k, quoted);
    }
    assert Lines(TextOf(out)) == out;
    forall k | 0 <= k < |t.front|
      ensures t.front[k] == lines[k] && TextOf(out).front[k] == out[k]
    {
    }
  }

  lemma RestartedLineIsAlike(lines: seq<string>, k: nat, quoted: string)
    requires Restartable(lines) && k < |lines|
    ensures Alike(lines[k], Restarted(lines)[k], quoted)
  {
    assert Familiar(RestartNo());
    assert IsRestart(lines, k) ==> Familiar(lines[k]);
    RestartedLine(lines, k);
    hide Alike, Restarted, IsRestart, RestartNo, Familiar, Restartable;
    if IsRestart(lines, k) {
      BothNeutral(lines[k], RestartNo(), quoted);
    } else {
      AlikeSelf(lines[k], quoted);
    }
  }

  lemma AlikeSelf(a: string, quoted: string)
    ensures Alike(a, a, quoted)
  {
  }

  lemma BothNeutral(a: string, b: string, quoted: string)
    requires Familiar(a) && Familiar(b)
    ensures Alike(a, b, quoted)
  {
    hide HasSuffix, Legacy, Guard, Service, OptionName, Hits, Familiar;
    RestartLineIsNeutral(a, quoted);
    RestartLineIsNeutral(b, quoted);
  }

  /** The restart rewrite on top changes nothing the policy counts, and is itself stable. */
  lemma WithRestartIsAlike(t: Text, quoted: string, marked: bool)
    requires WithRestart(t, marked).Some?
    ensures var u := WithRestart(t, marked).value;
            && FamiliarServices(u) == FamiliarServices(t) && Writers(u) == Writers(t) && AllHits(u) == AllHits(t)
            && CountSuffix(u.front, Legacy()) == CountSuffix(t.front, Legacy())
            && CountSuffix(u.front, Guard(quoted)) == CountSuffix(t.front, Guard(quoted))
            && WithRestart(u, marked) == Some(u)
  {
    hide FamiliarServices, Writers, AllHits, CountSuffix, Legacy, Guard, Alike, Restartable, Restarted;
    if marked {
      var u := WithRestart(t, marked).value;
      RestartedIsAlike(t, quoted);
      AlikeTexts(t, u, quoted);
      RestartIsIdempotent(Lines(t));
    }
  }

  /** The rewrite is a fixed point on its own output, exactly if the guard line of the site names
      the option once; otherwise it refuses its own output. */
  lemma WriterRewriteIsStable(t: Text, quoted: string, marked: bool)
    requires Quoted(quoted) && WriterCompose(t, quoted, marked).Some?
    ensures var out := WriterCompose(t, quoted, marked).value;
            WriterCompose(out, quoted, marked) == if Hits(Guard(quoted), OptionName()) == 1 then Some(out) else None
  {
    var hits := Hits(Guard(quoted), OptionName());
    OwnHits(quoted);
    var base := if Guarded(t, quoted) then t else Migrated(t, quoted);
    if Guarded(t, quoted) {
      GuardedHits(t, quoted);
    } else {
      MigratedMeaning(t, quoted);
    }
    TimesOne(Writers(base));
    assert Writers(base) >= 3;
    hide Guard, Legacy, OptionName, Hits, CountSuffix, Migrated, FamiliarServices, AllHits, WithRestart, Times, Writers;
    assert FamiliarServices(base) && CountSuffix(base.front, Guard(quoted)) == Writers(base);
    assert AllHits(base) == Times(Writers(base), hits) && (hits != 1 ==> CountSuffix(base.front, Legacy()) == 0);
    WithRestartIsAlike(base, quoted, marked);
    TimesIsSelf(Writers(base), hits);
  }

  /** In a guarded text every guard line names the option once. */
  lemma GuardedHits(t: Text, quoted: string)
    requires Guarded(t, quoted) && Quoted(quoted)
    ensures Hits(Guard(quoted), OptionName()) == 1
  {
    var w, h := Writers(t), Hits(Guard(quoted), OptionName());
    OwnHits(quoted);
    HitsAtLeast(t.front, quoted);
    assert AllHits(t) == w && CountSuffix(t.front, Guard(quoted)) == w && w >= 3;
    hide Guard, Legacy, OptionName, Hits, CountSuffix, HitsIn, Writers, Times;
    AtLeastSelf(w, h);
    TimesIsSelf(w, h);
  }

  /** Every result, also with the restart rewrite on top, has as many guard lines as writers,
      and a rewritten one no legacy line. */
  lemma RewriteGuardsAsManyAsWriters(t: Text, quoted: string, marked: bool)
    requires Quoted(quoted) && WriterCompose(t, quoted, marked).Some?
    ensures var u := WriterCompose(t, quoted, marked).value;
            && CountSuffix(u.front, Guard(quoted)) == Writers(u) == Writers(t) && FamiliarServices(u)
            && (!Guarded(t, quoted) ==> CountSuffix(u.front, Legacy()) == 0)
  {
    var base := if Guarded(t, quoted) then t else Migrated(t, quoted);
    if !Guarded(t, quoted) {
      MigratedMeaning(t, quoted);
    }
    hide Guard, Legacy, CountSuffix, Migrated, FamiliarServices, AllHits, OptionName, WithRestart, Writers;
    WithRestartIsAlike(base, quoted, marked);
  }
}
