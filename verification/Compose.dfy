/**
 Text of a site's Compose file, as the worker reads it (cmd/worker/resources.go): lines, words
 and decimal numbers, and the rewrite of the four resource limits.
 */
module Compose {
  import opened Common

  // ---- Words and numbers ----

  /** unicode.IsSpace. */
  predicate IsSpace(c: char) {
    || c == ' ' || '\t' <= c <= '\r' || c as int == 0x85 || c as int == 0xA0 || c as int == 0x1680
    || 0x2000 <= c as int <= 0x200A || c as int == 0x2028 || c as int == 0x2029 || c as int == 0x202F
    || c as int == 0x205F || c as int == 0x3000
  }

  predicate IsDigit(c: char) { '0' <= c <= '9' }

  predicate AllDigits(s: string) {
    s != "" && forall c | c in s :: IsDigit(c)
  }

  predicate HasSuffix(s: string, p: string) {
    |p| <= |s| && s[|s| - |p|..] == p
  }

  function SkipSpace(s: string): (r: string)
    ensures |r| <= |s| && (r != "" ==> !IsSpace(r[0]))
  {
    if s != "" && IsSpace(s[0]) then SkipSpace(s[1..]) else s
  }

  /** The word at the start of s. */
  function Word(s: string): (w: string)
    ensures w <= s && (s != "" && !IsSpace(s[0]) ==> w != "")
  {
    if s == "" || IsSpace(s[0]) then "" else [s[0]] + Word(s[1..])
  }

  /** strings.Fields. */
  function Fields(s: string): seq<string>
    decreases |s|
  {
    var t := SkipSpace(s);
    if t == "" then [] else [Word(t)] + Fields(t[|Word(t)|..])
  }

  function TrimRight(s: string): string {
    if s != "" && IsSpace(s[|s| - 1]) then TrimRight(s[..|s| - 1]) else s
  }

  function TrimSpace(s: string): string {
    TrimRight(SkipSpace(s))
  }

  predicate Solid(w: string) {
    w != "" && forall c | c in w :: !IsSpace(c)
  }

  lemma {:induction false} WordOf(w: string, rest: string)
    requires forall c | c in w :: !IsSpace(c)
    requires rest == "" || IsSpace(rest[0])
    ensures Word(w + rest) == w
  {
    if w != "" {
      assert (w + rest)[1..] == w[1..] + rest;
      WordOf(w[1..], rest);
    } else {
      assert w + rest == rest;
    }
  }

  lemma FieldsOfWord(w: string, rest: string)
    requires Solid(w) && (rest == "" || IsSpace(rest[0]))
    ensures Fields(w + rest) == [w] + Fields(rest)
  {
    WordOf(w, rest);
    assert (w + rest)[0] == w[0] && SkipSpace(w + rest) == w + rest;
    assert (w + rest)[|w|..] == rest;
  }

  lemma FieldsAfterSpace(s: string)
    ensures Fields(" " + s) == Fields(s)
  {
    assert (" " + s)[1..] == s;
  }

  /** An indented word and what follows it. */
  lemma IndentedFields(name: string, tail: string)
    requires Solid(name) && tail != "" && IsSpace(tail[0])
    ensures Fields("    " + name + tail) == [name] + Fields(tail)
  {
    hide IsSpace, Fields, Solid;
    FieldsOfWord(name, tail);
    var s := name + tail;
    FieldsAfterSpace(s);
    FieldsAfterSpace(" " + s);
    FieldsAfterSpace(" " + (" " + s));
    FieldsAfterSpace(" " + (" " + (" " + s)));
    assert "    " + name + tail == " " + (" " + (" " + (" " + s)));
  }

  /** An indented line of two words. */
  lemma FieldsOfPair(a: string, b: string)
    requires Solid(a) && Solid(b)
    ensures Fields("    " + a + " " + b) == [a, b]
  {
    assert IsSpace(' ') && b + "" == b;
    hide IsSpace, Fields, Solid;
    assert "    " + a + " " + b == "    " + a + (" " + b);
    IndentedFields(a, " " + b);
    FieldsAfterSpace(b);
    FieldsOfWord(b, "");
    FieldsOfNothing();
  }

  lemma FieldsOfNothing()
    ensures Fields("") == []
  {
  }

  function DigitOf(d: nat): (c: char)
    requires d < 10
    ensures IsDigit(c)
  {
    (48 + d) as char
  }

  function Decimal(n: nat): (s: string)
    ensures AllDigits(s)
  {
    if n < 10 then [DigitOf(n)] else Decimal(n / 10) + [DigitOf(n % 10)]
  }

  function DigitValue(c: char): nat
    requires IsDigit(c)
  {
    (c as int) - 48
  }

  function Number(s: string): nat
    requires forall c | c in s :: IsDigit(c)
  {
    if s == "" then 0
    else
      assert s[|s| - 1] in s;
      10 * Number(s[..|s| - 1]) + DigitValue(s[|s| - 1])
  }

  lemma {:induction false} NumberOfDecimal(n: nat)
    ensures Number(Decimal(n)) == n
  {
    if n < 10 {
      assert Decimal(n)[..0] == "";
    } else {
      NumberOfDecimal(n / 10);
      assert Decimal(n)[..|Decimal(n)| - 1] == Decimal(n / 10);
    }
  }

  /** The sign and the digits of a number. */
  function Unsigned(s: string): string {
    if s != "" && (s[0] == '+' || s[0] == '-') then s[1..] else s
  }

  /** strconv.Atoi, without its range error: a number out of range is refused anyway. */
  function ParseInt(s: string): Option<int> {
    if !AllDigits(Unsigned(s)) then None
    else Some((if s[0] == '-' then -1 else 1) * Number(Unsigned(s)))
  }

  /** "512m" and the like. */
  function ParseMemory(s: string): Option<int> {
    if HasSuffix(s, "m") then ParseInt(s[..|s| - 1]) else None
  }

  function Pow10(n: nat): (p: nat)
    ensures p > 0
  {
    if n == 0 then 1 else 10 * Pow10(n - 1)
  }

  /** The position of the first point, or the length. */
  function Point(s: string): (n: nat)
    ensures n <= |s|
  {
    if s == "" || s[0] == '.' then 0 else 1 + Point(s[1..])
  }

  function ParseParts(whole: string, fraction: string): Option<real> {
    if !((forall c | c in whole :: IsDigit(c)) && (forall c | c in fraction :: IsDigit(c)))
       || (whole == "" && fraction == "") then None
    else Some((Number(whole) as real) + (Number(fraction) as real) / (Pow10(|fraction|) as real))
  }

  /** A plain decimal with digits on at least one side of an optional point. */
  function ParseDecimal(s: string): Option<real> {
    var u := Unsigned(s);
    var n := Point(u);
    var v := ParseParts(u[..n], if n < |u| then u[n + 1..] else "");
    if v.None? then None else Some(if s != "" && s[0] == '-' then -v.value else v.value)
  }

  function Hundredths(c: real): int {
    (c * 100.0 + 0.5).Floor
  }

  /** "%.2f" of a value that is not negative. */
  function FormatDecimal(h: nat): string {
    Decimal(h / 100) + "." + [DigitOf(h % 100 / 10), DigitOf(h % 10)]
  }

  lemma SolidJoin(a: string, b: string)
    requires Solid(a) && Solid(b)
    ensures Solid(a + b)
  {
    hide IsSpace;
  }

  lemma DigitsAreSolid(a: string)
    requires AllDigits(a)
    ensures Solid(a)
  {
  }

  lemma FormatIsSolid(h: nat)
    ensures Solid(FormatDecimal(h))
  {
    var whole, point, hundredths := Decimal(h / 100), ".", [DigitOf(h % 100 / 10), DigitOf(h % 10)];
    DigitsAreSolid(whole);
    DigitsAreSolid(hundredths);
    assert Solid(point);
    SolidJoin(whole, point);
    SolidJoin(whole + point, hundredths);
  }

  lemma {:induction false} PointAfterDigits(a: string, b: string)
    requires forall c | c in a :: IsDigit(c)
    ensures Point(a + "." + b) == |a|
  {
    if a == "" {
      assert a + "." + b == "." + b;
    } else {
      assert a[0] in a && (a + "." + b)[0] == a[0];
      assert (a + "." + b)[1..] == a[1..] + "." + b;
      PointAfterDigits(a[1..], b);
    }
  }

  lemma PartsValue(a: string, b: string)
    requires AllDigits(a) && |b| == 2 && IsDigit(b[0]) && IsDigit(b[1])
    ensures forall c | c in a + b :: IsDigit(c)
    ensures ParseParts(a, b) == Some((Number(a) as real) + (Number(b) as real) / 100.0)
  {
    assert b == [b[0], b[1]];
    hide Number, IsDigit;
    assert Pow10(2) == 100;
  }

  /** A number that starts with a digit has no sign. */
  lemma DigitsAreUnsigned(a: string, rest: string)
    requires AllDigits(a)
    ensures Unsigned(a + rest) == a + rest && (a + rest)[0] != '-'
  {
    assert (a + rest)[0] == a[0] && a[0] in a;
  }

  /** An unsigned number with its point at n. */
  lemma ParseAtPoint(s: string, n: nat)
    requires Unsigned(s) == s && s != "" && s[0] != '-' && Point(s) == n && n < |s|
    ensures ParseDecimal(s) == ParseParts(s[..n], s[n + 1..])
  {
    hide ParseParts, Point, Unsigned;
  }

  /** Parsing digits, a point and two digits. */
  lemma ParseOfParts(a: string, b: string)
    requires AllDigits(a) && |b| == 2 && IsDigit(b[0]) && IsDigit(b[1])
    ensures forall c | c in a + b :: IsDigit(c)
    ensures ParseDecimal(a + "." + b) == Some((Number(a) as real) + (Number(b) as real) / 100.0)
  {
    hide ParseParts, Number, Pow10, Point, Unsigned, AllDigits, IsDigit, ParseDecimal;
    PartsValue(a, b);
    PointAfterDigits(a, b);
    DigitsAreUnsigned(a, "." + b);
    var s := a + "." + b;
    assert s == a + ("." + b) && s[..|a|] == a && s[|a| + 1..] == b;
    ParseAtPoint(s, |a|);
  }

  lemma ParseOfFormat(h: nat)
    ensures ParseDecimal(FormatDecimal(h)) == Some((h as real) / 100.0)
  {
    hide *;
    var a, b := FormatParts(h);
    ParseOfParts(a, b);
    HundredthsAdd(h);
  }

  /** The format writes the whole part and two digits. */
  lemma FormatParts(h: nat) returns (a: string, b: string)
    ensures FormatDecimal(h) == a + "." + b && AllDigits(a) && |b| == 2 && IsDigit(b[0]) && IsDigit(b[1])
    ensures (forall c | c in a + b :: IsDigit(c)) && Number(a) == h / 100 && Number(b) == h % 100
  {
    hide Number, Decimal, AllDigits;
    a, b := Decimal(h / 100), [DigitOf(h % 100 / 10), DigitOf(h % 10)];
    LastDigit(h);
    TwoDigits(h % 100);
    NumberOfDecimal(h / 100);
    DigitsOnly(a);
  }

  lemma LastDigit(h: nat)
    ensures h % 100 % 10 == h % 10
  {
  }

  lemma DigitsOnly(a: string)
    requires AllDigits(a)
    ensures forall c | c in a :: IsDigit(c)
  {
  }

  lemma HundredthsAdd(h: nat)
    ensures ((h / 100) as real) + ((h % 100) as real) / 100.0 == (h as real) / 100.0
  {
    assert h == h / 100 * 100 + h % 100;
  }

  lemma TwoDigits(n: nat)
    requires n < 100
    ensures Number([DigitOf(n / 10), DigitOf(n % 10)]) == n
  {
    var s := [DigitOf(n / 10), DigitOf(n % 10)];
    assert s[..1] == [DigitOf(n / 10)];
    assert s[..1][..0] == "";
    assert Number(s[..1]) == n / 10;
  }

  lemma ParseOfMemory(m: nat)
    ensures ParseMemory(Decimal(m) + "m") == Some(m)
  {
    var s := Decimal(m) + "m";
    assert s[|s| - 1..] == "m" && s[..|s| - 1] == Decimal(m);
    assert Decimal(m)[0] in Decimal(m);
    NumberOfDecimal(m);
  }

  // ---- Resource limits ----

  datatype Limits = Limits(memory: int, cpus: real)

  /** Resources.Validate. */
  ghost predicate ValidLimits(r: Limits) {
    256 <= r.memory <= 8192 && 0.25 <= r.cpus <= 8.0 && exists q: int :: NearQuarter(r.cpus, q)
  }

  predicate NearQuarter(c: real, q: int) {
    -0.000001 <= c * 4.0 - (q as real) <= 0.000001
  }

  /** Whole quarters of a CPU. */
  predicate Quarters(c: real) {
    (c * 4.0) == ((c * 4.0).Floor as real)
  }

  datatype Section = WordPress | Db | Elsewhere
  datatype Slot = WordPressMemory | WordPressCpus | DbMemory | DbCpus

  /** What a line means in its section; Odd lines are refused. */
  datatype Line = Plain | Odd | Memory(value: int) | Cpus(amount: real)

  predicate Header(line: string) {
    "  " <= line && !("   " <= line) && HasSuffix(line, ":")
  }

  function SectionNamed(name: string): Section {
    if name == "wordpress" then WordPress else if name == "db" then Db else Elsewhere
  }

  predicate Outer(line: string) {
    line != "" && line[0] != ' '
  }

  function Entering(before: Section, line: string): Section {
    if Outer(line) then Elsewhere
    else if Header(line) then SectionNamed(TrimSpace(line[..|line| - 1]))
    else before
  }

  function SectionAt(lines: seq<string>, n: nat): Section
    requires n <= |lines|
  {
    if n == 0 then Elsewhere else Entering(SectionAt(lines, n - 1), lines[n - 1])
  }

  function Meaning(line: string): Line {
    var f := Fields(line);
    if |f| != 2 then Plain
    else if f[0] == "mem_limit:" then
      (match ParseMemory(f[1]) case None => Odd case Some(m) => Memory(m))
    else if f[0] == "cpus:" then
      (match ParseDecimal(f[1]) case None => Odd case Some(c) => Cpus(c))
    else Plain
  }

  /** What line n means where it stands. */
  function At(lines: seq<string>, n: nat): Line
    requires n < |lines|
  {
    if SectionAt(lines, n + 1).Elsewhere? then Plain else Meaning(lines[n])
  }

  function SlotOf(s: Section, line: Line): Option<Slot> {
    match line
    case Memory(_) => Some(if s.WordPress? then WordPressMemory else DbMemory)
    case Cpus(_) => Some(if s.WordPress? then WordPressCpus else DbCpus)
    case _ => None
  }

  function SlotAt(lines: seq<string>, n: nat): Option<Slot>
    requires n < |lines|
  {
    SlotOf(SectionAt(lines, n + 1), At(lines, n))
  }

  function Count(lines: seq<string>, n: nat, slot: Slot): nat
    requires n <= |lines|
  {
    if n == 0 then 0 else Count(lines, n - 1, slot) + if SlotAt(lines, n - 1) == Some(slot) then 1 else 0
  }

  /** The limits read up to line n; the last one of a slot counts. */
  function ReadSoFar(lines: seq<string>, n: nat, db: bool): Limits
    requires n <= |lines|
  {
    if n == 0 then Limits(0, 0.0)
    else
      var r := ReadSoFar(lines, n - 1, db);
      match SlotAt(lines, n - 1)
      case Some(WordPressMemory) => if db then r else r.(memory := At(lines, n - 1).value)
      case Some(WordPressCpus) => if db then r else r.(cpus := At(lines, n - 1).amount)
      case Some(DbMemory) => if db then r.(memory := At(lines, n - 1).value) else r
      case Some(DbCpus) => if db then r.(cpus := At(lines, n - 1).amount) else r
      case None => r
  }

  predicate Complete(lines: seq<string>) {
    && Count(lines, |lines|, WordPressMemory) == 1 && Count(lines, |lines|, WordPressCpus) == 1
    && Count(lines, |lines|, DbMemory) == 1 && Count(lines, |lines|, DbCpus) == 1
  }

  /** The files whose limits are understood. */
  ghost predicate Readable(lines: seq<string>) {
    && (forall n | 0 <= n < |lines| :: !At(lines, n).Odd?)
    && Complete(lines)
    && ReadSoFar(lines, |lines|, false) == ReadSoFar(lines, |lines|, true)
    && ValidLimits(ReadSoFar(lines, |lines|, false))
  }

  function MemoryLine(m: nat): string {
    "    mem_limit: " + Decimal(m) + "m"
  }

  function CpusText(h: nat): string {
    "    cpus: " + FormatDecimal(h)
  }

  function CpusLine(c: real): string
    requires c >= 0.0
  {
    CpusText(Hundredths(c))
  }

  /** The replaced text of a line. */
  function Replaced(slot: Option<Slot>, line: string, r: Limits): string
    requires r.memory >= 0 && r.cpus >= 0.0
  {
    match slot
    case None => line
    case Some(s) => if s.WordPressMemory? || s.DbMemory? then MemoryLine(r.memory) else CpusLine(r.cpus)
  }

  function Rewritten(lines: seq<string>, r: Limits): (out: seq<string>)
    requires r.memory >= 0 && r.cpus >= 0.0
    ensures |out| == |lines|
  {
    seq(|lines|, n requires 0 <= n < |lines| => Replaced(SlotAt(lines, n), lines[n], r))
  }

  /** A line indented by four spaces starts no section and ends none. */
  lemma IndentedLine(rest: string)
    ensures !Header("    " + rest) && !Outer("    " + rest)
  {
    assert "   " <= "    " + rest;
  }

  lemma MemoryFields(m: nat)
    ensures Fields(MemoryLine(m)) == ["mem_limit:", Decimal(m) + "m"]
  {
    assert Solid("m") && Solid("mem_limit:") && "    mem_limit: " == "    " + "mem_limit:" + " ";
    hide Decimal, Fields, Solid;
    DigitsAreSolid(Decimal(m));
    SolidJoin(Decimal(m), "m");
    FieldsOfPair("mem_limit:", Decimal(m) + "m");
    assert MemoryLine(m) == "    " + "mem_limit:" + " " + (Decimal(m) + "m");
  }

  lemma MeaningOfMemoryLine(m: nat)
    ensures Meaning(MemoryLine(m)) == Memory(m) && !Header(MemoryLine(m)) && !Outer(MemoryLine(m))
  {
    hide Fields, ParseMemory, Decimal, Header, Outer;
    MemoryFields(m);
    ParseOfMemory(m);
    IndentedLine("mem_limit: " + Decimal(m) + "m");
    assert MemoryLine(m) == "    " + ("mem_limit: " + Decimal(m) + "m");
  }

  lemma CpusFields(h: nat)
    ensures Fields(CpusText(h)) == ["cpus:", FormatDecimal(h)]
  {
    assert Solid("cpus:");
    FormatIsSolid(h);
    hide FormatDecimal, Fields, Solid;
    FieldsOfPair("cpus:", FormatDecimal(h));
    assert CpusText(h) == "    " + "cpus:" + " " + FormatDecimal(h);
  }

  lemma MeaningOfCpusText(h: nat)
    ensures Meaning(CpusText(h)) == Cpus((h as real) / 100.0) && !Header(CpusText(h)) && !Outer(CpusText(h))
  {
    assert |"cpus:"| == 5 && |"mem_limit:"| == 10;
    hide Fields, ParseDecimal, ParseMemory, FormatDecimal, Header, Outer;
    assert CpusText(h) == "    " + ("cpus: " + FormatDecimal(h));
    IndentedLine("cpus: " + FormatDecimal(h));
    hide CpusText;
    CpusFields(h);
    ParseOfFormat(h);
  }

  /** What the worker reads back after writing r. */
  function Canonical(r: Limits): Limits
    requires r.cpus >= 0.0
  {
    r.(cpus := (Hundredths(r.cpus) as real) / 100.0)
  }

  /** A quarter is written exactly, and nothing else that is valid is. */
  lemma QuartersAreExact(r: Limits)
    requires ValidLimits(r)
    ensures Canonical(r) == r <==> Quarters(r.cpus)
    ensures ValidLimits(Canonical(r)) && Quarters(Canonical(r).cpus)
  {
    var q: int :| NearQuarter(r.cpus, q);
    var h := Hundredths(r.cpus);
    assert 25.0 * (q as real) - 0.001 <= r.cpus * 100.0 <= 25.0 * (q as real) + 0.001;
    assert h == 25 * q;
    assert Canonical(r).cpus == (q as real) / 4.0;
    assert Canonical(r).cpus * 4.0 == q as real;
    assert NearQuarter(Canonical(r).cpus, q);
    if Quarters(r.cpus) {
      var k := (r.cpus * 4.0).Floor;
      assert -0.000001 <= (k as real) - (q as real) <= 0.000001;
      assert k == q;
    }
  }

  // ---- The rewrite as a lens ----

  lemma RewrittenLine(lines: seq<string>, r: Limits, n: nat)
    requires Writable(r) && n < |lines|
    ensures Rewritten(lines, r)[n] == Replaced(SlotAt(lines, n), lines[n], r)
  {
    hide Replaced, SlotAt;
  }

  lemma {:induction false} SkipKeepsEnd(s: string)
    requires s != "" && !IsSpace(s[|s| - 1])
    ensures SkipSpace(s) != "" && SkipSpace(s)[|SkipSpace(s)| - 1] == s[|s| - 1]
  {
    if IsSpace(s[0]) {
      SkipKeepsEnd(s[1..]);
    }
  }

  lemma FieldsStep(s: string) returns (w: string, rest: string)
    requires SkipSpace(s) != ""
    ensures SkipSpace(s) == w + rest && w != "" && |rest| < |s| && Fields(s) == [w] + Fields(rest)
  {
    var t := SkipSpace(s);
    w := Word(t);
    rest := t[|w|..];
  }

  /** The last word ends where the text ends. */
  lemma {:induction false} LastWordEnds(s: string)
    requires s != "" && !IsSpace(s[|s| - 1])
    ensures var f := Fields(s); |f| > 0 && |f[|f| - 1]| > 0 && f[|f| - 1][|f[|f| - 1]| - 1] == s[|s| - 1]
    decreases |s|
  {
    hide SkipSpace, Word, Fields, IsSpace;
    SkipKeepsEnd(s);
    var w, rest := FieldsStep(s);
    if rest == "" {
      FieldsOfNothing();
    } else {
      assert rest[|rest| - 1] == s[|s| - 1];
      LastWordEnds(rest);
    }
  }

  lemma ColonIsNoNumber(s: string)
    requires s != "" && s[|s| - 1] == ':'
    ensures ParseMemory(s).None? && ParseDecimal(s).None?
  {
    var u := Unsigned(s);
    assert u != "" && u[|u| - 1] == ':';
    var n := Point(u);
    PointIsPoint(u);
    if n < |u| {
      assert u[n + 1..] != "" && u[n + 1..][|u[n + 1..]| - 1] == ':';
      assert ':' in u[n + 1..];
    } else {
      assert u[..n] == u && ':' in u;
    }
    hide Number, Pow10;
  }

  lemma {:induction false} PointIsPoint(s: string)
    ensures Point(s) < |s| ==> s[Point(s)] == '.'
  {
    if s != "" && s[0] != '.' {
      PointIsPoint(s[1..]);
    }
  }

  /** A section header never carries a limit. */
  lemma HeaderIsNoLimit(line: string)
    requires Header(line)
    ensures Meaning(line).Plain? || Meaning(line).Odd?
  {
    assert line[|line| - 1] == ':' by {
      assert line[|line| - 1..] == ":";
    }
    LastWordEnds(line);
    var f := Fields(line);
    ColonIsNoNumber(f[|f| - 1]);
    hide Fields, ParseMemory, ParseDecimal;
  }

  ghost predicate NoOdd(lines: seq<string>) {
    forall n | 0 <= n < |lines| :: !At(lines, n).Odd?
  }

  ghost predicate Writable(r: Limits) {
    r.memory >= 0 && r.cpus >= 0.0
  }

  /** A limit line leaves the section as it is. */
  lemma LimitLineKeepsSection(lines: seq<string>, n: nat)
    requires n < |lines| && NoOdd(lines) && SlotAt(lines, n).Some?
    ensures Entering(SectionAt(lines, n), lines[n]) == SectionAt(lines, n)
  {
    hide Meaning, Header, Outer;
    assert !At(lines, n).Odd?;
    if Header(lines[n]) {
      HeaderIsNoLimit(lines[n]);
    }
  }

  /** So does its replacement, which means what was asked for. */
  lemma ReplacementMeans(slot: Slot, line: string, r: Limits)
    requires Writable(r)
    ensures var text := Replaced(Some(slot), line, r);
            && !Outer(text) && !Header(text)
            && Meaning(text) ==
               if slot.WordPressMemory? || slot.DbMemory? then Memory(r.memory) else Cpus(Canonical(r).cpus)
  {
    assert Hundredths(r.cpus) >= 0;
    hide Meaning, Header, Outer, MemoryLine, CpusText, Hundredths;
    if slot.WordPressMemory? || slot.DbMemory? {
      MeaningOfMemoryLine(r.memory);
    } else {
      MeaningOfCpusText(Hundredths(r.cpus));
    }
  }

  /** Rewriting moves no section and no slot, and every slot then reads as r. */
  lemma {:induction false} SectionsKept(lines: seq<string>, r: Limits, n: nat)
    requires NoOdd(lines) && Writable(r) && n <= |lines|
    ensures SectionAt(Rewritten(lines, r), n) == SectionAt(lines, n)
  {
    hide Rewritten, SectionAt, Entering, Header, Outer, Meaning, MemoryLine, CpusLine, NoOdd, SlotAt, Canonical;
    var out := Rewritten(lines, r);
    SectionStep(lines, n);
    SectionStep(out, n);
    if n > 0 {
      RewrittenLine(lines, r, n - 1);
      SectionsKept(lines, r, n - 1);
      if SlotAt(lines, n - 1).Some? {
        LimitLineKeepsSection(lines, n - 1);
        ReplacementMeans(SlotAt(lines, n - 1).value, lines[n - 1], r);
        PlainKeeps(SectionAt(lines, n - 1), out[n - 1]);
      }
    }
  }

  lemma SectionStep(lines: seq<string>, n: nat)
    requires n <= |lines|
    ensures SectionAt(lines, n) == if n == 0 then Elsewhere else Entering(SectionAt(lines, n - 1), lines[n - 1])
  {
    hide Entering;
  }

  lemma PlainKeeps(section: Section, line: string)
    requires !Outer(line) && !Header(line)
    ensures Entering(section, line) == section
  {
    hide Outer, Header;
  }

  lemma SlotKept(lines: seq<string>, r: Limits, n: nat)
    requires NoOdd(lines) && Writable(r) && n < |lines|
    ensures SlotAt(Rewritten(lines, r), n) == SlotAt(lines, n) && !At(Rewritten(lines, r), n).Odd?
    ensures At(Rewritten(lines, r), n) ==
            match At(lines, n)
            case Memory(_) => Memory(r.memory)
            case Cpus(_) => Cpus(Canonical(r).cpus)
            case _ => Plain
  {
    RewrittenLine(lines, r, n);
    hide Rewritten;
    SectionsKept(lines, r, n + 1);
    if SlotAt(lines, n).Some? {
      ReplacementMeans(SlotAt(lines, n).value, lines[n], r);
    }
    SlotMeaning(lines, n);
    assert !At(lines, n).Odd?;
    hide Meaning, SectionAt, MemoryLine, CpusLine, Canonical, NoOdd;
  }

  lemma CountStep(lines: seq<string>, n: nat, slot: Slot)
    requires n <= |lines|
    ensures Count(lines, n, slot) ==
            if n == 0 then 0 else Count(lines, n - 1, slot) + if SlotAt(lines, n - 1) == Some(slot) then 1 else 0
  {
    hide SlotAt;
  }

  lemma {:induction false} CountsKept(lines: seq<string>, r: Limits, n: nat, slot: Slot)
    requires NoOdd(lines) && Writable(r) && n <= |lines|
    ensures Count(Rewritten(lines, r), n, slot) == Count(lines, n, slot)
  {
    hide SlotAt, At, NoOdd, Rewritten, Canonical, Count, SectionAt, Meaning;
    CountStep(lines, n, slot);
    CountStep(Rewritten(lines, r), n, slot);
    if n > 0 {
      CountsKept(lines, r, n - 1, slot);
      SlotKept(lines, r, n - 1);
    }
  }

  lemma SlotMeaning(lines: seq<string>, n: nat)
    requires n < |lines|
    ensures match SlotAt(lines, n)
            case Some(WordPressMemory) => At(lines, n).Memory?
            case Some(DbMemory) => At(lines, n).Memory?
            case Some(WordPressCpus) => At(lines, n).Cpus?
            case Some(DbCpus) => At(lines, n).Cpus?
            case None => !At(lines, n).Memory? && !At(lines, n).Cpus?
  {
    hide Meaning, SectionAt;
  }

  lemma ReadStep(lines: seq<string>, n: nat, db: bool)
    requires n < |lines|
    ensures ReadSoFar(lines, n + 1, db) == Reading(ReadSoFar(lines, n, db), SlotAt(lines, n), At(lines, n), db)
  {
    SlotMeaning(lines, n);
    hide SlotAt, At;
  }

  /** One more line of a known slot. */
  function Reading(r: Limits, slot: Option<Slot>, line: Line, db: bool): Limits {
    if slot.None? || db != (slot.value.DbMemory? || slot.value.DbCpus?) then r
    else if line.Memory? then r.(memory := line.value)
    else if line.Cpus? then r.(cpus := line.amount)
    else r
  }

  lemma {:induction false} ReadsRewritten(lines: seq<string>, r: Limits, n: nat, db: bool)
    requires NoOdd(lines) && Writable(r) && n <= |lines|
    ensures var read := ReadSoFar(Rewritten(lines, r), n, db);
            && (Count(lines, n, if db then DbMemory else WordPressMemory) > 0 ==> read.memory == r.memory)
            && (Count(lines, n, if db then DbCpus else WordPressCpus) > 0 ==> read.cpus == Canonical(r).cpus)
  {
    hide SlotAt, At, Rewritten, Canonical, NoOdd, ReadSoFar, Count;
    CountStep(lines, n, if db then DbMemory else WordPressMemory);
    CountStep(lines, n, if db then DbCpus else WordPressCpus);
    if n > 0 {
      ReadsRewritten(lines, r, n - 1, db);
      SlotKept(lines, r, n - 1);
      SlotMeaning(lines, n - 1);
      ReadStep(Rewritten(lines, r), n - 1, db);
    }
  }

  /** Put, then get: the rewritten file is understood, and reads as what was written, rounded to
      two decimals; that is r itself exactly for whole quarters of a CPU. */
  lemma PutGet(lines: seq<string>, r: Limits)
    requires Readable(lines) && ValidLimits(r)
    ensures Readable(Rewritten(lines, r))
    ensures ReadSoFar(Rewritten(lines, r), |lines|, false) == Canonical(r)
    ensures ReadSoFar(Rewritten(lines, r), |lines|, false) == r <==> Quarters(r.cpus)
  {
    var out := Rewritten(lines, r);
    assert NoOdd(lines);
    forall n | 0 <= n < |lines|
      ensures !At(out, n).Odd?
    {
      SlotKept(lines, r, n);
    }
    QuartersAreExact(r);
    hide ValidLimits, Canonical, At, Rewritten, ReadSoFar, Count, NoOdd;
    CountsKept(lines, r, |lines|, WordPressMemory);
    CountsKept(lines, r, |lines|, WordPressCpus);
    CountsKept(lines, r, |lines|, DbMemory);
    CountsKept(lines, r, |lines|, DbCpus);
    ReadsRewritten(lines, r, |lines|, false);
    ReadsRewritten(lines, r, |lines|, true);
    CanonicalMemory(r);
    assert ReadSoFar(out, |lines|, false) == Canonical(r) == ReadSoFar(out, |lines|, true);
  }

  /** A valid limit that no rewritten file reads back: a little more than a quarter. */
  lemma BesideAQuarterIsForgotten(lines: seq<string>)
    requires Readable(lines)
    ensures var r := Limits(512, 0.2500001);
            ValidLimits(r) && ReadSoFar(Rewritten(lines, r), |lines|, false) == Limits(512, 0.25)
  {
    var r := Limits(512, 0.2500001);
    assert NearQuarter(r.cpus, 1);
    assert Hundredths(r.cpus) == 25;
    hide Readable, Rewritten, ReadSoFar;
    PutGet(lines, r);
  }

  lemma CanonicalMemory(r: Limits)
    requires r.cpus >= 0.0
    ensures Canonical(r).memory == r.memory
  {
  }

  /** Put twice: the last one counts, whatever stood there before. */
  lemma PutPut(lines: seq<string>, r: Limits, s: Limits)
    requires NoOdd(lines) && Writable(r) && Writable(s)
    ensures Rewritten(Rewritten(lines, r), s) == Rewritten(lines, s)
  {
    var out := Rewritten(lines, r);
    forall n | 0 <= n < |lines|
      ensures Rewritten(out, s)[n] == Rewritten(lines, s)[n]
    {
      SlotKept(lines, r, n);
      hide SlotAt, At, MemoryLine, CpusLine;
    }
  }

  /** Lines that differ. */
  function Differences(a: seq<string>, b: seq<string>, n: nat): nat
    requires n <= |a| && n <= |b|
  {
    if n == 0 then 0 else Differences(a, b, n - 1) + if a[n - 1] == b[n - 1] then 0 else 1
  }

  lemma DifferencesStep(a: seq<string>, b: seq<string>, n: nat)
    requires n <= |a| && n <= |b|
    ensures n == 0 ==> Differences(a, b, n) == 0
    ensures n > 0 ==> Differences(a, b, n) == Differences(a, b, n - 1) + if a[n - 1] == b[n - 1] then 0 else 1
  {
  }

  lemma {:induction false} DifferencesAreSlots(lines: seq<string>, r: Limits, n: nat)
    requires Writable(r) && n <= |lines|
    ensures Differences(lines, Rewritten(lines, r), n) <=
            Count(lines, n, WordPressMemory) + Count(lines, n, WordPressCpus)
            + Count(lines, n, DbMemory) + Count(lines, n, DbCpus)
  {
    hide SlotAt, Rewritten, Count, Differences, MemoryLine, CpusLine;
    CountStep(lines, n, WordPressMemory);
    CountStep(lines, n, WordPressCpus);
    CountStep(lines, n, DbMemory);
    CountStep(lines, n, DbCpus);
    DifferencesStep(lines, Rewritten(lines, r), n);
    if n > 0 {
      DifferencesAreSlots(lines, r, n - 1);
      RewrittenLine(lines, r, n - 1);
    }
  }

  /** At most the four limit lines change, and no line is added or lost. */
  lemma OnlyFourLinesChange(lines: seq<string>, r: Limits)
    requires Readable(lines) && Writable(r)
    ensures |Rewritten(lines, r)| == |lines| && Differences(lines, Rewritten(lines, r), |lines|) <= 4
    ensures forall n | 0 <= n < |lines| && SlotAt(lines, n).None? :: Rewritten(lines, r)[n] == lines[n]
  {
    DifferencesAreSlots(lines, r, |lines|);
  }

  // ---- The program ----

  method Validate(r: Limits) returns (ok: bool)
    ensures ok <==> ValidLimits(r)
  {
    if r.memory < 256 || r.memory > 8192 {
      return false;
    }
    if r.cpus < 0.25 || r.cpus > 8.0 {
      return false;
    }
    var rounded := (r.cpus * 4.0 + 0.5).Floor;
    ok := NearQuarter(r.cpus, rounded);
    forall q: int | NearQuarter(r.cpus, q)
      ensures q == rounded
    {
    }
  }

  /** The counters of the four places after n lines. */
  ghost predicate Counted(counts: map<Slot, nat>, lines: seq<string>, n: nat)
    requires n <= |lines|
  {
    && WordPressMemory in counts && counts[WordPressMemory] == Count(lines, n, WordPressMemory)
    && WordPressCpus in counts && counts[WordPressCpus] == Count(lines, n, WordPressCpus)
    && DbMemory in counts && counts[DbMemory] == Count(lines, n, DbMemory)
    && DbCpus in counts && counts[DbCpus] == Count(lines, n, DbCpus)
  }

  lemma NothingRead(lines: seq<string>)
    ensures SectionAt(lines, 0) == Elsewhere && forall db :: ReadSoFar(lines, 0, db) == Limits(0, 0.0)
    ensures Counted(map[WordPressMemory := 0, WordPressCpus := 0, DbMemory := 0, DbCpus := 0], lines, 0)
  {
  }

  /** What one more line adds. */
  lemma LineStep(lines: seq<string>, n: nat)
    requires n < |lines|
    ensures var section := Entering(SectionAt(lines, n), lines[n]);
            var line := if section.Elsewhere? then Plain else Meaning(lines[n]);
            && SectionAt(lines, n + 1) == section && At(lines, n) == line && SlotAt(lines, n) == SlotOf(section, line)
            && (forall db :: ReadSoFar(lines, n + 1, db) ==
                  Reading(ReadSoFar(lines, n, db), SlotOf(section, line), line, db))
  {
    SectionStep(lines, n + 1);
    assert At(lines, n) == if SectionAt(lines, n + 1).Elsewhere? then Plain else Meaning(lines[n]);
    assert SlotAt(lines, n) == SlotOf(SectionAt(lines, n + 1), At(lines, n));
    hide Entering, Meaning, SectionAt, At, SlotAt, ReadSoFar;
    var m := n + 1;
    forall db: bool
      ensures ReadSoFar(lines, m, db) == Reading(ReadSoFar(lines, n, db), SlotAt(lines, n), At(lines, n), db)
    {
      ReadStep(lines, n, db);
    }
  }

  lemma CountedStep(counts: map<Slot, nat>, lines: seq<string>, n: nat)
    requires n < |lines| && Counted(counts, lines, n)
    ensures var slot := SlotAt(lines, n);
            Counted(if slot.Some? then counts[slot.value := counts[slot.value] + 1] else counts, lines, n + 1)
  {
    hide SlotAt, Count;
    CountStep(lines, n + 1, WordPressMemory);
    CountStep(lines, n + 1, WordPressCpus);
    CountStep(lines, n + 1, DbMemory);
    CountStep(lines, n + 1, DbCpus);
  }

  /** composeResources: reads the limits of both services and, on request, replaces them. It
      succeeds exactly for readable files. */
  method ComposeResources(data: seq<string>, replacement: Option<Limits>) returns (r: Option<(Limits, seq<string>)>)
    requires replacement.Some? ==> Writable(replacement.value)
    ensures r.Some? <==> Readable(data)
    ensures r.Some? ==> r.value.0 == ReadSoFar(data, |data|, false)
    ensures r.Some? ==> r.value.1 == if replacement.Some? then Rewritten(data, replacement.value) else data
  {
    hide Entering, Meaning, ValidLimits, MemoryLine, CpusLine, SectionAt, At, SlotAt, Count, ReadSoFar, Rewritten,
         Quarters;
    var lines, section := data, Elsewhere;
    var wordpress, db := Limits(0, 0.0), Limits(0, 0.0);
    var counts: map<Slot, nat> := map[WordPressMemory := 0, WordPressCpus := 0, DbMemory := 0, DbCpus := 0];
    NothingRead(data);
    for n := 0 to |data|
      invariant |lines| == |data| && section == SectionAt(data, n)
      invariant wordpress == ReadSoFar(data, n, false) && db == ReadSoFar(data, n, true)
      invariant Counted(counts, data, n)
      invariant forall k | 0 <= k < n :: !At(data, k).Odd?
      invariant forall k | n <= k < |data| :: lines[k] == data[k]
      invariant forall k | 0 <= k < n ::
                  lines[k] ==
                  if replacement.Some? then Replaced(SlotAt(data, k), data[k], replacement.value) else data[k]
    {
      LineStep(data, n);
      CountedStep(counts, data, n);
      section := Entering(section, data[n]);
      if section.Elsewhere? {
        continue;
      }
      var meaning := Meaning(data[n]);
      if meaning.Odd? {
        return None;
      }
      if meaning.Plain? {
        continue;
      }
      var slot := if meaning.Memory? then (if section.WordPress? then WordPressMemory else DbMemory)
                  else (if section.WordPress? then WordPressCpus else DbCpus);
      if meaning.Memory? {
        if section.WordPress? {
          wordpress := wordpress.(memory := meaning.value);
        } else {
          db := db.(memory := meaning.value);
        }
        if replacement.Some? {
          lines := lines[n := MemoryLine(replacement.value.memory)];
        }
      } else {
        if section.WordPress? {
          wordpress := wordpress.(cpus := meaning.amount);
        } else {
          db := db.(cpus := meaning.amount);
        }
        if replacement.Some? {
          lines := lines[n := CpusLine(replacement.value.cpus)];
        }
      }
      counts := counts[slot := counts[slot] + 1];
    }
    if counts[WordPressMemory] != 1 || counts[WordPressCpus] != 1 || counts[DbMemory] != 1 || counts[DbCpus] != 1 {
      return None;
    }
    if wordpress != db {
      return None;
    }
    var valid := Validate(wordpress);
    if !valid {
      return None;
    }
    if replacement.Some? {
      forall k | 0 <= k < |data|
        ensures lines[k] == Rewritten(data, replacement.value)[k]
      {
        RewrittenLine(data, replacement.value, k);
      }
    }
    assert lines == if replacement.Some? then Rewritten(data, replacement.value) else data;
    return Some((wordpress, lines));
  }
}
