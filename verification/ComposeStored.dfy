/**
 The rewrites of a Compose file one after another, as the worker stores them
 (cmd/worker/resources.go, cmd/worker/security.go): limits first, then the writer policy, then
 the restart policy of a marked site. What is stored reads back as the limits that were asked
 for, whatever the later rewrites did.
 */
module StoredLimits {
  import opened Common
  import opened Compose
  import opened RestartPolicy
  import opened ComposePolicies
  import opened ComposeGuards

  // ---- Lines that mean the same, and lines without a part ----

  /** Two lines play the same part for the limits. */
  predicate SamePart(a: string, b: string) {
    SameLevel(a, b) && Meaning(a) == Meaning(b)
  }

  /** A line that plays none: it starts and ends no section and is no limit. */
  predicate Mute(line: string) {
    !Header(line) && !Outer(line) && Meaning(line).Plain?
  }

  ghost predicate NoneOdd(lines: seq<string>, n: nat)
    requires n <= |lines|
  {
    forall k | 0 <= k < n :: !At(lines, k).Odd?
  }

  /** All that reading the limits has found out after n lines of one file and m of another. */
  ghost predicate SameSoFar(a: seq<string>, n: nat, b: seq<string>, m: nat)
    requires n <= |a| && m <= |b|
  {
    && SectionAt(a, n) == SectionAt(b, m) && (NoneOdd(a, n) <==> NoneOdd(b, m))
    && (forall slot :: Count(a, n, slot) == Count(b, m, slot))
    && forall db :: ReadSoFar(a, n, db) == ReadSoFar(b, m, db)
  }

  lemma SameEntering(section: Section, a: string, b: string)
    requires SameLevel(a, b)
    ensures Entering(section, a) == Entering(section, b)
  {
    hide Outer, Header;
  }

  lemma NoneOddStep(lines: seq<string>, n: nat)
    requires n < |lines|
    ensures NoneOdd(lines, n + 1) <==> NoneOdd(lines, n) && !At(lines, n).Odd?
  {
    hide At;
  }

  lemma SameLine(a: seq<string>, n: nat, b: seq<string>, m: nat)
    requires n < |a| && m < |b| && SectionAt(a, n) == SectionAt(b, m) && SamePart(a[n], b[m])
    ensures At(a, n) == At(b, m) && SlotAt(a, n) == SlotAt(b, m) && SectionAt(a, n + 1) == SectionAt(b, m + 1)
  {
    assert SameLevel(a[n], b[m]) && Meaning(a[n]) == Meaning(b[m]);
    hide SamePart, Meaning, SameLevel, Entering, SectionAt;
    SameEntering(SectionAt(a, n), a[n], b[m]);
    SectionStep(a, n + 1);
    SectionStep(b, m + 1);
  }

  lemma SameStep(a: seq<string>, n: nat, b: seq<string>, m: nat)
    requires n < |a| && m < |b| && SameSoFar(a, n, b, m) && SamePart(a[n], b[m])
    ensures SameSoFar(a, n + 1, b, m + 1)
  {
    hide At, SlotAt, SectionAt, SamePart, NoneOdd, ReadSoFar, Count, Reading;
    SameLine(a, n, b, m);
    NoneOddStep(a, n);
    NoneOddStep(b, m);
    var i, j := n + 1, m + 1;
    forall slot: Slot
      ensures Count(a, i, slot) == Count(b, j, slot)
    {
      CountStep(a, i, slot);
      CountStep(b, j, slot);
    }
    forall db: bool
      ensures ReadSoFar(a, i, db) == ReadSoFar(b, j, db)
    {
      ReadStep(a, n, db);
      ReadStep(b, m, db);
    }
  }

  lemma MuteStep(a: seq<string>, n: nat, b: seq<string>, m: nat)
    requires n <= |a| && m < |b| && SameSoFar(a, n, b, m) && Mute(b[m])
    ensures SameSoFar(a, n, b, m + 1)
  {
    assert At(b, m).Plain? && SlotAt(b, m).None? && SectionAt(b, m + 1) == SectionAt(b, m) by {
      hide Meaning, Header, Outer;
    }
    hide At, SlotAt, SectionAt, Mute, NoneOdd, ReadSoFar, Count;
    NoneOddStep(b, m);
    forall slot: Slot
      ensures Count(b, m + 1, slot) == Count(b, m, slot)
    {
      CountStep(b, m + 1, slot);
    }
    forall db: bool
      ensures ReadSoFar(b, m + 1, db) == ReadSoFar(b, m, db)
    {
      ReadStep(b, m, db);
    }
  }

  /** From line n of one file and line m of the other on, so many lines play the same parts. */
  ghost predicate Alongside(a: seq<string>, n: nat, b: seq<string>, m: nat, count: nat)
    requires n + count <= |a| && m + count <= |b|
  {
    forall k | n <= k < n + count :: SamePart(a[k], b[k - n + m])
  }

  /** Stretches of lines that play the same parts keep two readings together. */
  lemma {:induction false} SameStretch(a: seq<string>, n: nat, b: seq<string>, m: nat, count: nat)
    requires n + count <= |a| && m + count <= |b| && SameSoFar(a, n, b, m)
    requires Alongside(a, n, b, m, count)
    ensures SameSoFar(a, n + count, b, m + count)
  {
    hide SameSoFar, SamePart;
    if count > 0 {
      SameStretch(a, n, b, m, count - 1);
      assert SamePart(a[n + count - 1], b[m + count - 1]);
      SameStep(a, n + count - 1, b, m + count - 1);
    }
  }

  /** The same limits are understood in both files. */
  ghost predicate SameLimits(a: seq<string>, b: seq<string>) {
    && (Readable(a) <==> Readable(b))
    && forall db :: ReadSoFar(a, |a|, db) == ReadSoFar(b, |b|, db)
  }

  lemma SameToTheEnd(a: seq<string>, b: seq<string>)
    requires SameSoFar(a, |a|, b, |b|)
    ensures SameLimits(a, b)
  {
    assert Readable(a) <==>
      NoneOdd(a, |a|) && Complete(a) && ReadSoFar(a, |a|, false) == ReadSoFar(a, |a|, true)
      && ValidLimits(ReadSoFar(a, |a|, false));
    assert Readable(b) <==>
      NoneOdd(b, |b|) && Complete(b) && ReadSoFar(b, |b|, false) == ReadSoFar(b, |b|, true)
      && ValidLimits(ReadSoFar(b, |b|, false));
    hide At, Count, ReadSoFar, ValidLimits, NoneOdd, SectionAt, Readable;
  }

  lemma NothingYet(a: seq<string>, b: seq<string>)
    ensures SameSoFar(a, 0, b, 0)
  {
  }

  lemma SameParts(a: seq<string>, b: seq<string>)
    requires |a| == |b| && forall k | 0 <= k < |a| :: SamePart(a[k], b[k])
    ensures SameLimits(a, b)
  {
    hide SameSoFar, SamePart, SameLimits;
    NothingYet(a, b);
    assert Alongside(a, 0, b, 0, |a|);
    SameStretch(a, 0, b, 0, |a|);
    SameToTheEnd(a, b);
  }

  lemma SamePartSelf(line: string)
    ensures SamePart(line, line)
  {
    hide Outer, Header, Meaning;
  }

  lemma InsertedAlongside(lines: seq<string>, k: nat, line: string)
    requires k < |lines|
    ensures var longer := Inserted(lines, k, line);
            && Alongside(lines, 0, longer, 0, k + 1)
            && Alongside(lines, k + 1, longer, k + 2, |lines| - k - 1)
  {
    var longer := Inserted(lines, k, line);
    assert forall i | 0 <= i < k + 1 :: longer[i] == lines[i];
    assert forall i | k + 1 <= i < |lines| :: longer[i - (k + 1) + (k + 2)] == lines[i];
    hide SamePart, Inserted;
    forall l: string
      ensures SamePart(l, l)
    {
      SamePartSelf(l);
    }
  }

  /** A mute line between two stretches changes nothing. */
  lemma MuteBetween(a: seq<string>, n: nat, count: nat, b: seq<string>)
    requires |a| == n + count && |b| == |a| + 1 && Mute(b[n])
    requires Alongside(a, 0, b, 0, n) && Alongside(a, n, b, n + 1, count)
    ensures SameLimits(a, b)
  {
    hide SameSoFar, SameLimits, Mute, Alongside;
    NothingYet(a, b);
    SameStretch(a, 0, b, 0, n);
    MuteStep(a, n, b, n);
    SameStretch(a, n, b, n + 1, count);
    SameToTheEnd(a, b);
  }

  lemma InsertedMute(lines: seq<string>, k: nat, line: string)
    requires k < |lines| && Mute(line)
    ensures SameLimits(lines, Inserted(lines, k, line))
  {
    var longer := Inserted(lines, k, line);
    assert |longer| == |lines| + 1 && longer[k + 1] == line;
    InsertedAlongside(lines, k, line);
    hide Inserted, SameLimits, Mute, Alongside;
    MuteBetween(lines, k + 1, |lines| - k - 1, longer);
  }

  // ---- Option lines and restart lines play no part ----

  /** A space between two texts splits the words. */
  lemma {:induction false} FieldsSplit(p: string, rest: string)
    requires rest != "" && IsSpace(rest[0])
    ensures Fields(p + rest) == Fields(p) + Fields(rest)
    decreases |p|
  {
    hide IsSpace;
    hide Fields, Word;
    if p == "" {
      FieldsOfNothing();
      assert p + rest == rest;
    } else if IsSpace(p[0]) {
      assert (p + rest)[0] == p[0] && (p + rest)[1..] == p[1..] + rest;
      SkipOne(p);
      SkipOne(p + rest);
      FieldsSplit(p[1..], rest);
    } else {
      var after := FirstWord(p, rest);
      FieldsSplit(after, rest);
    }
  }

  lemma FirstWord(p: string, rest: string) returns (after: string)
    requires p != "" && !IsSpace(p[0]) && rest != "" && IsSpace(rest[0])
    ensures |after| < |p|
    ensures Fields(p) == [Word(p)] + Fields(after) && Fields(p + rest) == [Word(p)] + Fields(after + rest)
  {
    hide IsSpace, Fields;
    var w := Word(p);
    after := p[|w|..];
    assert w != "" && p == w + after && p + rest == w + (after + rest);
    WordIsSolid(p);
    hide Word, Solid;
    FieldsOfWord(w, after);
    FieldsOfWord(w, after + rest);
  }

  lemma SkipOne(s: string)
    requires s != "" && IsSpace(s[0])
    ensures Fields(s) == Fields(s[1..])
  {
  }

  lemma {:induction false} WordIsSolid(s: string)
    requires s != "" && !IsSpace(s[0])
    ensures Solid(Word(s)) && (|Word(s)| < |s| ==> IsSpace(s[|Word(s)|]))
  {
    hide IsSpace;
    if |s| > 1 && !IsSpace(s[1]) {
      WordIsSolid(s[1..]);
    }
  }

  /** Words that are no limit, by their number or by the first one. */
  lemma OtherWords(line: string)
    requires |Fields(line)| == 2 ==> Fields(line)[0] == "security_opt:" || Fields(line)[0] == "restart:"
    ensures Meaning(line).Plain?
  {
    hide Fields, ParseMemory, ParseDecimal;
    assert |"security_opt:"| == 13 && |"restart:"| == 8 && |"cpus:"| == 5 && |"mem_limit:"| == 10;
  }

  /** A line that ends in the option's name and at least one more word is no limit. */
  lemma OptionLineIsPlain(p: string, rest: string)
    requires Solid(Word(rest)) && rest != ""
    ensures Meaning(p + ("    " + "security_opt:" + (" " + rest))).Plain?
  {
    var name, tail := "security_opt:", " " + rest;
    assert Solid(name) && IsSpace(' ');
    hide IsSpace, Fields, Word, Solid, Meaning;
    FieldsSplit(p, "    " + name + tail);
    IndentedFields(name, tail);
    FieldsAfterSpace(rest);
    SomeField(rest);
    var line := p + ("    " + name + tail);
    assert Fields(line) == Fields(p) + ([name] + Fields(rest));
    OtherWords(line);
  }

  lemma SomeField(s: string)
    requires Solid(Word(s)) && s != ""
    ensures Fields(s) != []
  {
    assert Word(s)[0] == s[0];
  }

  /** The part of an option line behind the option's name. */
  lemma StemIsOption(tail: string)
    ensures var rest := "[no-new-privileges:true" + tail;
            Stem() + tail == "    " + "security_opt:" + (" " + rest) && rest != "" && rest[0] == '['
  {
    assert OptionName() == "    " + "security_opt:";
    hide OptionName;
  }

  lemma WordStarts(s: string)
    requires s != "" && s[0] == '['
    ensures Solid(Word(s))
  {
    assert !IsSpace('[');
    WordIsSolid(s);
  }

  lemma OptionIsPlain(p: string, tail: string)
    ensures Meaning(p + (Stem() + tail)).Plain?
  {
    var rest := "[no-new-privileges:true" + tail;
    StemIsOption(tail);
    WordStarts(rest);
    hide Stem, Meaning, Word, Solid;
    OptionLineIsPlain(p, rest);
  }

  lemma SwapLineKeepsPart(line: string, quoted: string)
    ensures SamePart(line, SwapLine(line, quoted))
  {
    SwapLineLevel(line, quoted);
    hide Meaning, SameLevel, Stem;
    if HasSuffix(line, Legacy()) {
      var p := line[..|line| - |Legacy()|];
      var tail := ", " + quoted + "]";
      assert line == p + (Stem() + "]") && Guard(quoted) == Stem() + tail;
      assert SwapLine(line, quoted) == p + (Stem() + tail);
      OptionIsPlain(p, "]");
      OptionIsPlain(p, tail);
    }
  }

  lemma GuardIsMute(quoted: string)
    ensures Mute(Guard(quoted))
  {
    GuardLevel(quoted);
    var tail := ", " + quoted + "]";
    assert Guard(quoted) == Stem() + tail == "" + (Stem() + tail);
    hide Meaning, Header, Outer, Guard, Stem;
    OptionIsPlain("", tail);
  }

  lemma RestartLineIsPlain(line: string)
    requires Familiar(line)
    ensures Meaning(line).Plain?
  {
    assert RestartNo() == "    " + "restart:" + " \"no\"";
    assert RestartDefault() == "    " + "restart:" + " unless-stopped";
    hide Meaning, RestartNo, RestartDefault;
    RestartValueIsPlain(" \"no\"");
    RestartValueIsPlain(" unless-stopped");
  }

  lemma RestartValueIsPlain(value: string)
    requires value != "" && value[0] == ' '
    ensures Meaning("    " + "restart:" + value).Plain?
  {
    assert Solid("restart:") && IsSpace(' ');
    hide Fields, Solid, Meaning, IsSpace;
    IndentedFields("restart:", value);
    OtherWords("    " + "restart:" + value);
  }

  lemma RestartedKeepsPart(lines: seq<string>, k: nat)
    requires Restartable(lines) && k < |lines|
    ensures SamePart(lines[k], Restarted(lines)[k])
  {
    RestartedLevel(lines, k);
    RestartedLine(lines, k);
    assert Familiar(RestartNo());
    hide Meaning, SameLevel, RestartNo, Familiar;
    if IsRestart(lines, k) {
      RestartLineIsPlain(lines[k]);
      RestartLineIsPlain(RestartNo());
    }
  }

  // ---- The rewrites one after another ----

  lemma MigratedKeepsLimits(t: Text, quoted: string)
    requires Migratable(t) && FamiliarServices(t) && Quoted(quoted)
    ensures SameLimits(Lines(t), Lines(Migrated(t, quoted)))
  {
    var k := MigratedLines(t, quoted);
    var u, r := Migrated(t, quoted), SwapAll(t.front, quoted);
    var swapped := r + [t.rest];
    hide Migratable, FamiliarServices, Migrated, SwapAll, SamePart, Guard;
    assert Lines(u) == Inserted(swapped, k, Guard(quoted));
    forall i | 0 <= i < |Lines(t)|
      ensures SamePart(Lines(t)[i], swapped[i])
    {
      if i < |t.front| {
        SwappedLine(t.front, quoted, i);
        SwapLineKeepsPart(t.front[i], quoted);
      } else {
        SamePartSelf(t.rest);
      }
    }
    GuardIsMute(quoted);
    hide Inserted, Lines, Mute, Readable;
    SameParts(Lines(t), swapped);
    InsertedMute(swapped, k, Guard(quoted));
  }

  lemma WithRestartKeepsLimits(t: Text, marked: bool)
    requires WithRestart(t, marked).Some?
    ensures SameLimits(Lines(t), Lines(WithRestart(t, marked).value))
  {
    hide SamePart, Restarted, Restartable, Readable;
    var lines := Lines(t);
    if marked {
      assert Lines(WithRestart(t, marked).value) == Restarted(lines);
      forall k | 0 <= k < |lines|
        ensures SamePart(lines[k], Restarted(lines)[k])
      {
        RestartedKeepsPart(lines, k);
      }
      SameParts(lines, Restarted(lines));
    }
  }

  /** Whatever the policy rewrites change, the limits in the file stay: it is understood
      afterwards exactly if it was before, and reads the same. */
  lemma WriterKeepsLimits(t: Text, quoted: string, marked: bool)
    requires Quoted(quoted) && WriterCompose(t, quoted, marked).Some?
    ensures SameLimits(Lines(t), Lines(WriterCompose(t, quoted, marked).value))
  {
    hide Lines, Readable, WithRestart, Guarded, Migratable, FamiliarServices, Migrated;
    if Guarded(t, quoted) {
      WithRestartKeepsLimits(t, marked);
    } else {
      MigratedKeepsLimits(t, quoted);
      WithRestartKeepsLimits(Migrated(t, quoted), marked);
    }
  }

  lemma SameRead(a: seq<string>, b: seq<string>)
    requires SameLimits(a, b) && Readable(a)
    ensures Readable(b) && ReadSoFar(b, |b|, false) == ReadSoFar(a, |a|, false)
  {
    hide Readable, ReadSoFar;
  }

  /** What a change of resources stores, limits first and then the policies, is understood and
      reads as what was asked for, rounded to two decimals; as itself exactly for whole quarters. */
  lemma StoredLimitsAreRead(t: Text, r: Limits, quoted: string, marked: bool)
    requires Readable(Lines(t)) && ValidLimits(r) && Quoted(quoted)
    requires WriterCompose(TextOf(Rewritten(Lines(t), r)), quoted, marked).Some?
    ensures var u := Lines(WriterCompose(TextOf(Rewritten(Lines(t), r)), quoted, marked).value);
            && Readable(u) && ReadSoFar(u, |u|, false) == Canonical(r)
            && (ReadSoFar(u, |u|, false) == r <==> Quarters(r.cpus))
  {
    hide Readable, Rewritten, WriterCompose, Canonical, ReadSoFar, Quarters, Quoted, SameLimits, ValidLimits;
    assert Writable(r) by {
      ValidIsWritable(r);
    }
    var written := Rewritten(Lines(t), r);
    PutGet(Lines(t), r);
    LinesOfText(written);
    hide Lines, TextOf;
    WriterKeepsLimits(TextOf(written), quoted, marked);
    SameRead(written, Lines(WriterCompose(TextOf(written), quoted, marked).value));
  }

  lemma ValidIsWritable(r: Limits)
    requires ValidLimits(r)
    ensures Writable(r)
  {
  }

  lemma LinesOfText(lines: seq<string>)
    requires |lines| > 0
    ensures Lines(TextOf(lines)) == lines
  {
  }
}
