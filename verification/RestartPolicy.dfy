/**
 The restart rewrite of a quota site's Compose file (cmd/worker/quota_restart.go).
 */
module RestartPolicy {
  import opened Common
  import opened Compose

  function RestartPrefix(): string { "    restart:" }

  function RestartDefault(): string { "    restart: unless-stopped" }

  function RestartNo(): string { "    restart: \"no\"" }

  function WithoutColon(s: string): string {
    if HasSuffix(s, ":") then s[..|s| - 1] else s
  }

  /** Unlike the limits, a line of the outermost level does not end a section here. */
  function NextSection(before: Section, line: string): Section {
    if Header(line) then SectionNamed(WithoutColon(TrimSpace(line))) else before
  }

  function SectionOf(lines: seq<string>, n: nat): Section
    requires n <= |lines|
  {
    if n == 0 then Elsewhere else NextSection(SectionOf(lines, n - 1), lines[n - 1])
  }

  predicate IsRestart(lines: seq<string>, n: nat)
    requires n < |lines|
  {
    !SectionOf(lines, n + 1).Elsewhere? && RestartPrefix() <= lines[n]
  }

  predicate Familiar(line: string) {
    line == RestartDefault() || line == RestartNo()
  }

  function Restarts(lines: seq<string>, n: nat, section: Section): nat
    requires n <= |lines|
  {
    if n == 0 then 0
    else Restarts(lines, n - 1, section) + if IsRestart(lines, n - 1) && SectionOf(lines, n) == section then 1 else 0
  }

  /** The files the rewrite accepts. */
  ghost predicate Restartable(lines: seq<string>) {
    && (forall n | 0 <= n < |lines| && IsRestart(lines, n) :: Familiar(lines[n]))
    && Restarts(lines, |lines|, WordPress) == 1 && Restarts(lines, |lines|, Db) == 1
  }

  function RestartLine(lines: seq<string>, n: nat): string
    requires n < |lines|
  {
    if IsRestart(lines, n) then RestartNo() else lines[n]
  }

  function Restarted(lines: seq<string>): (out: seq<string>)
    ensures |out| == |lines|
  {
    seq(|lines|, n requires 0 <= n < |lines| => RestartLine(lines, n))
  }

  lemma RestartedLine(lines: seq<string>, n: nat)
    requires n < |lines|
    ensures Restarted(lines)[n] == RestartLine(lines, n)
  {
    hide RestartLine;
  }

  lemma SectionOfStep(lines: seq<string>, n: nat)
    requires n <= |lines|
    ensures SectionOf(lines, n) == if n == 0 then Elsewhere else NextSection(SectionOf(lines, n - 1), lines[n - 1])
  {
    hide NextSection;
  }

  lemma RestartLinesAreInner(line: string)
    requires RestartPrefix() <= line
    ensures !Header(line)
  {
    assert "   " <= RestartPrefix();
  }

  lemma {:induction false} SectionsStay(lines: seq<string>, n: nat)
    requires n <= |lines|
    ensures SectionOf(Restarted(lines), n) == SectionOf(lines, n)
  {
    hide Restarted, SectionOf, Header, RestartPrefix, RestartNo;
    SectionOfStep(lines, n);
    SectionOfStep(Restarted(lines), n);
    if n > 0 {
      SectionsStay(lines, n - 1);
      RestartedLine(lines, n - 1);
      if IsRestart(lines, n - 1) {
        RestartLinesAreInner(lines[n - 1]);
        NoIsARestart();
        RestartLinesAreInner(RestartNo());
      }
    }
  }

  lemma NoIsARestart()
    ensures RestartPrefix() <= RestartNo()
  {
  }

  lemma RestartsStay(lines: seq<string>, n: nat)
    requires n < |lines|
    ensures IsRestart(Restarted(lines), n) == IsRestart(lines, n)
    ensures RestartLine(Restarted(lines), n) == Restarted(lines)[n]
  {
    hide Restarted, SectionOf, RestartPrefix, RestartNo;
    SectionsStay(lines, n + 1);
    RestartedLine(lines, n);
    NoIsARestart();
  }

  lemma {:induction false} RestartCountsStay(lines: seq<string>, n: nat, section: Section)
    requires n <= |lines|
    ensures Restarts(Restarted(lines), n, section) == Restarts(lines, n, section)
  {
    if n > 0 {
      RestartCountsStay(lines, n - 1, section);
      RestartsStay(lines, n - 1);
      SectionsStay(lines, n);
      hide Restarted, IsRestart, SectionOf, RestartLine;
    }
  }

  /** The rewrite accepts its own result and leaves it alone. */
  lemma RestartIsIdempotent(lines: seq<string>)
    ensures Restarted(Restarted(lines)) == Restarted(lines)
    ensures Restartable(lines) ==> Restartable(Restarted(lines))
  {
    var out := Restarted(lines);
    RestartCountsStay(lines, |lines|, WordPress);
    RestartCountsStay(lines, |lines|, Db);
    hide Restarted, IsRestart, RestartNo, RestartDefault, Restarts;
    forall n | 0 <= n < |lines|
      ensures Restarted(out)[n] == out[n] && (IsRestart(out, n) ==> Familiar(out[n]))
    {
      RestartsStay(lines, n);
      RestartedLine(lines, n);
      RestartedLine(out, n);
    }
  }

  lemma {:induction false} RestartDifferences(lines: seq<string>, n: nat)
    requires n <= |lines|
    ensures Differences(lines, Restarted(lines), n) <= Restarts(lines, n, WordPress) + Restarts(lines, n, Db)
  {
    if n > 0 {
      RestartDifferences(lines, n - 1);
      RestartedLine(lines, n - 1);
      hide Restarted, RestartNo, RestartPrefix;
    }
  }

  /** At most the two restart lines change, and afterwards both say "no". */
  lemma OnlyRestartLinesChange(lines: seq<string>)
    requires Restartable(lines)
    ensures |Restarted(lines)| == |lines| && Differences(lines, Restarted(lines), |lines|) <= 2
    ensures forall n | 0 <= n < |lines| :: Restarted(lines)[n] == if IsRestart(lines, n) then RestartNo() else lines[n]
  {
    RestartDifferences(lines, |lines|);
  }

  /** quotaRestartCompose. */
  method QuotaRestartCompose(data: seq<string>) returns (r: Option<seq<string>>)
    ensures r == if Restartable(data) then Some(Restarted(data)) else None
  {
    hide NextSection, RestartPrefix, RestartNo, RestartDefault;
    var lines, section, seenWordPress, seenDb := data, Elsewhere, 0, 0;
    for n := 0 to |data|
      invariant |lines| == |data| && section == SectionOf(data, n)
      invariant seenWordPress == Restarts(data, n, WordPress) && seenDb == Restarts(data, n, Db)
      invariant forall k | 0 <= k < n && IsRestart(data, k) :: Familiar(data[k])
      invariant forall k | 0 <= k < n :: lines[k] == RestartLine(data, k)
      invariant forall k | n <= k < |data| :: lines[k] == data[k]
    {
      section := NextSection(section, data[n]);
      assert section == SectionOf(data, n + 1);
      if !section.Elsewhere? && RestartPrefix() <= data[n] {
        if !Familiar(data[n]) {
          assert IsRestart(data, n);
          return None;
        }
        if section.WordPress? {
          seenWordPress := seenWordPress + 1;
        } else {
          seenDb := seenDb + 1;
        }
        lines := lines[n := RestartNo()];
      }
    }
    if seenWordPress != 1 || seenDb != 1 {
      return None;
    }
    assert lines == Restarted(data);
    return Some(lines);
  }
}
