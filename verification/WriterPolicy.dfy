/**
 The writer seccomp policy generator (tools/build-writer-policy.py): a prefix trie that
 allows every ioctl command except the blocked ones by disjoint masked-equality rules.
 */
module WriterPolicy {
  import opened Common

  // ---- Bitwise operators on unbounded naturals, as Python has them ----

  function Pow2(n: nat): (p: nat)
    ensures p >= 1
  {
    if n == 0 then 1 else 2 * Pow2(n - 1)
  }

  function BitAnd(x: nat, y: nat): nat {
    if x == 0 || y == 0 then 0 else 2 * BitAnd(x / 2, y / 2) + if x % 2 == 1 && y % 2 == 1 then 1 else 0
  }

  function BitOr(x: nat, y: nat): nat {
    if x == 0 then y else if y == 0 then x
    else 2 * BitOr(x / 2, y / 2) + if x % 2 == 1 || y % 2 == 1 then 1 else 0
  }

  const FULL: nat := 0xFFFF_FFFF
  const SPACE: nat := 0x1_0000_0000

  lemma Pow32()
    ensures Pow2(32) == SPACE
  {
    assert Pow2(8) == 256;
    assert Pow2(16) == 65536;
    assert Pow2(24) == 0x100_0000;
  }

  lemma {:induction false} Pow2Monotone(m: nat, n: nat)
    requires m <= n
    ensures Pow2(m) <= Pow2(n)
  {
    if m < n {
      Pow2Monotone(m, n - 1);
    }
  }

  /** The low n bits of x. */
  function Low(x: nat, n: nat): (r: nat)
    ensures r < Pow2(n)
  {
    if n == 0 then 0 else 2 * Low(x / 2, n - 1) + x % 2
  }

  /** The low n bits are the remainder by 2^n. */
  lemma {:induction false} LowIsRemainder(x: nat, n: nat) returns (q: nat)
    ensures x == q * Pow2(n) + Low(x, n)
  {
    if n == 0 {
      q := x;
    } else {
      q := LowIsRemainder(x / 2, n - 1);
      TwiceTimes(q, Pow2(n - 1));
      LowStep(x, n);
      assert Pow2(n) == 2 * Pow2(n - 1);
      hide Low, Pow2;
    }
  }

  lemma TwiceTimes(q: nat, p: nat)
    ensures q * (2 * p) == 2 * (q * p)
  {
  }

  lemma LowStep(x: nat, n: nat)
    requires n > 0
    ensures Low(x, n) == 2 * Low(x / 2, n - 1) + x % 2
    ensures Low(x, n) / 2 == Low(x / 2, n - 1) && Low(x, n) % 2 == x % 2
  {
  }

  lemma Low32(x: nat)
    ensures Low(x, 32) == x % SPACE
  {
    Pow32();
    hide Pow2, Low;
    var q := LowIsRemainder(x, 32);
    assert x == q * SPACE + Low(x, 32);
  }

  lemma {:induction false} LowOfLow(x: nat, n: nat, k: nat)
    requires k <= n
    ensures Low(Low(x, n), k) == Low(x, k)
  {
    if k > 0 {
      LowOfLow(x / 2, n - 1, k - 1);
      LowStep(x, n);
      LowStep(x, k);
      LowStep(Low(x, n), k);
      hide Low, Pow2;
    }
  }

  /** A number with k clear low bits can take any k-bit number in them. */
  lemma {:induction false} LowOfSum(prefix: nat, r: nat, k: nat)
    requires Low(prefix, k) == 0 && r < Pow2(k)
    ensures Low(prefix + r, k) == r
  {
    if k > 0 {
      assert prefix % 2 == 0 && (prefix + r) / 2 == prefix / 2 + r / 2;
      LowOfSum(prefix / 2, r / 2, k - 1);
    }
  }

  lemma {:induction false} LowHalves(prefix: nat, k: nat)
    requires Low(prefix, k + 1) == 0
    ensures Low(prefix, k) == 0 && Low(prefix + Pow2(k), k) == 0
  {
    if k > 0 {
      assert (prefix + Pow2(k)) / 2 == prefix / 2 + Pow2(k - 1);
      LowHalves(prefix / 2, k - 1);
    }
  }

  /** Ones in positions k..n. */
  function Ones(n: nat, k: nat): nat
    requires k <= n
  {
    if n == k then 0 else if k > 0 then 2 * Ones(n - 1, k - 1) else 2 * Ones(n - 1, 0) + 1
  }

  lemma {:induction false} OnesValue(n: nat, k: nat)
    requires k <= n
    ensures Ones(n, k) + Pow2(k) == Pow2(n)
    decreases n
  {
    if n > k {
      OnesValue(n - 1, if k > 0 then k - 1 else 0);
    }
  }

  /** Ones shifted left by k. */
  lemma {:induction false} OnesShifted(m: nat, k: nat)
    ensures (Pow2(m) - 1) * Pow2(k) == Ones(m + k, k)
  {
    if k > 0 {
      OnesShifted(m, k - 1);
      TwiceTimes(Pow2(m) - 1, Pow2(k - 1));
      assert Pow2(k) == 2 * Pow2(k - 1);
      assert m == 0 ==> Ones(m + k - 1, k - 1) == 0;
      assert Ones(m + k, k) == 2 * Ones(m + k - 1, k - 1);
      hide Ones, Pow2;
    } else {
      OnesValue(m, 0);
    }
  }

  lemma AndStep(x: nat, half: nat, bit: nat)
    requires bit < 2
    ensures BitAnd(x, 2 * half + bit) == 2 * BitAnd(x / 2, half) + (if bit == 1 then x % 2 else 0)
  {
    assert (2 * half + bit) / 2 == half && (2 * half + bit) % 2 == bit;
  }

  /** Masking with ones in positions k..n keeps exactly those bits. */
  lemma {:induction false} AndWithOnes(x: nat, n: nat, k: nat)
    requires k <= n
    ensures BitAnd(x, Ones(n, k)) == Low(x, n) - Low(x, k)
    decreases n
  {
    hide BitAnd, Low, Ones, Pow2;
    if n > k {
      var rest := if k > 0 then k - 1 else 0;
      AndWithOnes(x / 2, n - 1, rest);
      AndStep(x, Ones(n - 1, rest), if k > 0 then 0 else 1);
      LowStep(x, n);
      if k > 0 {
        LowStep(x, k);
      } else {
        LowOfNothing(x);
        LowOfNothing(x / 2);
      }
      OnesStep(n, k);
    } else {
      AndWithNothing(x, n);
    }
  }

  lemma AndWithNothing(x: nat, n: nat)
    ensures BitAnd(x, Ones(n, n)) == 0
  {
  }

  lemma OnesStep(n: nat, k: nat)
    requires k < n
    ensures Ones(n, k) == 2 * Ones(n - 1, if k > 0 then k - 1 else 0) + if k > 0 then 0 else 1
  {
  }

  lemma {:induction false} LowOfOnes(m: nat, k: nat, n: nat)
    requires k <= n <= m
    ensures Low(Ones(m, k), n) == Ones(n, k)
    decreases n
  {
    if n > k {
      var rest := if k > 0 then k - 1 else 0;
      LowOfOnes(m - 1, rest, n - 1);
      assert Ones(m, k) / 2 == Ones(m - 1, rest) && Ones(m, k) % 2 == if k > 0 then 0 else 1;
    } else {
      LowOfOnesBelow(m, k);
    }
  }

  lemma {:induction false} LowOfOnesBelow(m: nat, k: nat)
    requires k <= m
    ensures Low(Ones(m, k), k) == 0
  {
    if m == k {
      LowOfZero(k);
    } else if k > 0 {
      LowOfOnesBelow(m - 1, k - 1);
    }
  }

  lemma {:induction false} LowOfZero(n: nat)
    ensures Low(0, n) == 0
  {
    if n > 0 {
      LowOfZero(n - 1);
    }
  }

  lemma AndWithPower(x: nat, k: nat)
    ensures BitAnd(x, Pow2(k)) == Low(x, k + 1) - Low(x, k)
  {
    AndWithOnes(x, k + 1, k);
    OnesValue(k + 1, k);
  }

  /** Setting a bit below all bits of a prefix is an addition. */
  lemma {:induction false} OrWithPower(prefix: nat, k: nat)
    requires Low(prefix, k + 1) == 0
    ensures BitOr(prefix, Pow2(k)) == prefix + Pow2(k)
  {
    if prefix > 0 && k > 0 {
      OrWithPower(prefix / 2, k - 1);
    }
  }

  // ---- The rules ----

  /** One SCMP_CMP_MASKED_EQ rule: the argument masked by `mask` must equal `prefix`. */
  datatype Rule = Rule(mask: nat, prefix: nat)

  /** The kernel truncates ioctl commands to 32 bits. */
  function Command(argument: nat): (r: nat)
    ensures r < SPACE
  {
    argument % SPACE
  }

  predicate Matches(rule: Rule, argument: nat) {
    BitAnd(argument, rule.mask) == rule.prefix
  }

  function Mask(bits: nat): nat
    requires bits <= 32
  {
    BitAnd(FULL * Pow2(32 - bits), FULL)
  }

  function Bit(bits: nat): nat
    requires bits < 32
  {
    Pow2(31 - bits)
  }

  function Matching(commands: set<nat>, value: nat, bits: nat): set<nat>
    requires bits < 32
  {
    set c | c in commands && BitAnd(c, Bit(bits)) == BitAnd(value, Bit(bits))
  }

  /** The rules that allow_prefix appends. */
  function Rules(prefix: nat, bits: nat, commands: set<nat>): seq<Rule>
    requires bits <= 32
    decreases 32 - bits
  {
    if commands == {} then [Rule(Mask(bits), prefix)]
    else if bits < 32 then
      Rules(prefix, bits + 1, Matching(commands, prefix, bits)) +
      Rules(BitOr(prefix, Bit(bits)), bits + 1, Matching(commands, BitOr(prefix, Bit(bits)), bits))
    else []
  }

  /** The commands below a trie node start at its prefix and fill 2^(32 - bits) values. */
  ghost predicate Node(prefix: nat, bits: nat, commands: set<nat>) {
    && bits <= 32 && Low(prefix, 32 - bits) == 0 && prefix + Pow2(32 - bits) <= SPACE
    && forall c | c in commands :: prefix <= c < prefix + Pow2(32 - bits)
  }

  lemma LowOfNothing(x: nat)
    ensures Low(x, 0) == 0
  {
  }

  lemma MaskValue(bits: nat)
    requires bits <= 32
    ensures Mask(bits) == SPACE - Pow2(32 - bits)
  {
    Pow32();
    var k := 32 - bits;
    assert Pow2(0) == 1;
    hide Pow2, Low, Ones, BitAnd;
    OnesValue(32, 0);
    OnesValue(32, k);
    OnesShifted(32, k);
    AndWithOnes(FULL * Pow2(k), 32, 0);
    LowOfOnes(32 + k, k, 32);
    assert Low(FULL * Pow2(k), 0) == 0 by {
      LowOfNothing(FULL * Pow2(k));
    }
  }

  /** A rule of a node matches a 64-bit argument exactly if its low half lies in the node. */
  lemma RuleMatchesRegion(prefix: nat, bits: nat, argument: nat)
    requires Node(prefix, bits, {})
    ensures Matches(Rule(Mask(bits), prefix), argument) <==> prefix <= Command(argument) < prefix + Pow2(32 - bits)
  {
    var k, low := 32 - bits, Command(argument);
    hide Pow2, Mask, Low, Ones, BitAnd;
    MaskedValue(bits, argument);
    assert Matches(Rule(Mask(bits), prefix), argument) <==> low - Low(low, k) == prefix;
    InRegion(prefix, k, low);
  }

  /** Masking by a rule clears the low bits of the command. */
  lemma MaskedValue(bits: nat, argument: nat)
    requires bits <= 32
    ensures BitAnd(argument, Mask(bits)) == Command(argument) - Low(Command(argument), 32 - bits)
  {
    hide Pow2, Mask, Low, Ones, BitAnd;
    var k := 32 - bits;
    MaskValue(bits);
    Pow32();
    OnesValue(32, k);
    AndWithOnes(argument, 32, k);
    Low32(argument);
    LowOfLow(argument, 32, k);
  }

  /** Clearing the low bits of a number gives the prefix exactly inside its region. */
  lemma InRegion(prefix: nat, k: nat, low: nat)
    requires Low(prefix, k) == 0
    ensures low - Low(low, k) == prefix <==> prefix <= low < prefix + Pow2(k)
  {
    hide Pow2, Low;
    if prefix <= low < prefix + Pow2(k) {
      LowOfSum(prefix, low - prefix, k);
    }
  }

  lemma Doubling(k: nat)
    ensures Pow2(k + 1) == 2 * Pow2(k)
  {
  }

  /** The bit of a node tells its two halves apart. */
  lemma BitOfHalf(prefix: nat, k: nat, c: nat)
    requires Low(prefix, k + 1) == 0 && prefix <= c < prefix + Pow2(k + 1)
    ensures BitAnd(c, Pow2(k)) == if c < prefix + Pow2(k) then 0 else Pow2(k)
  {
    hide BitAnd, Low, Pow2;
    Doubling(k);
    AndWithPower(c, k);
    LowOfSum(prefix, c - prefix, k + 1);
    LowOfHalf(prefix, k, c);
  }

  lemma LowOfHalf(prefix: nat, k: nat, c: nat)
    requires Low(prefix, k + 1) == 0 && prefix <= c < prefix + 2 * Pow2(k)
    ensures Low(c, k) == if c < prefix + Pow2(k) then c - prefix else c - prefix - Pow2(k)
  {
    hide BitAnd, Low, Pow2;
    LowHalves(prefix, k);
    if c < prefix + Pow2(k) {
      LowOfSum(prefix, c - prefix, k);
    } else {
      LowOfSum(prefix + Pow2(k), c - prefix - Pow2(k), k);
    }
  }

  /** The two halves of a node split its commands at the middle. */
  lemma HalvesSplit(prefix: nat, bits: nat, commands: set<nat>)
    requires Node(prefix, bits, commands) && bits < 32
    ensures var middle := prefix + Bit(bits);
            && BitOr(prefix, Bit(bits)) == middle
            && Matching(commands, prefix, bits) == (set c | c in commands && c < middle)
            && Matching(commands, middle, bits) == (set c | c in commands && c >= middle)
            && Node(prefix, bits + 1, Matching(commands, prefix, bits))
            && Node(middle, bits + 1, Matching(commands, middle, bits))
  {
    var k := 31 - bits;
    hide BitAnd, BitOr, Low, Pow2;
    Doubling(k);
    OrWithPower(prefix, k);
    LowHalves(prefix, k);
    Halves(prefix, k, commands);
    hide Matching;
  }

  lemma Halves(prefix: nat, k: nat, commands: set<nat>)
    requires k < 32 && Low(prefix, k + 1) == 0
    requires forall c | c in commands :: prefix <= c < prefix + Pow2(k + 1)
    ensures Matching(commands, prefix, 31 - k) == (set c | c in commands && c < prefix + Pow2(k))
    ensures Matching(commands, prefix + Pow2(k), 31 - k) == (set c | c in commands && c >= prefix + Pow2(k))
  {
    hide BitAnd, Low, Pow2;
    Doubling(k);
    BitOfHalf(prefix, k, prefix);
    BitOfHalf(prefix, k, prefix + Pow2(k));
    forall c | c in commands
      ensures BitAnd(c, Pow2(k)) == if c < prefix + Pow2(k) then 0 else Pow2(k)
    {
      BitOfHalf(prefix, k, c);
    }
  }

  ghost predicate AnyMatches(rules: seq<Rule>, argument: nat) {
    exists i :: 0 <= i < |rules| && Matches(rules[i], argument)
  }

  function Below(commands: set<nat>, middle: nat): set<nat> {
    set c | c in commands && c < middle
  }

  function FromOn(commands: set<nat>, middle: nat): set<nat> {
    set c | c in commands && c >= middle
  }

  /** One level of the recursion, stated without bit operations. */
  lemma RulesUnfold(prefix: nat, bits: nat, commands: set<nat>)
    requires Node(prefix, bits, commands) && bits < 32 && commands != {}
    ensures var middle := prefix + Bit(bits);
            && Rules(prefix, bits, commands) ==
               Rules(prefix, bits + 1, Below(commands, middle)) + Rules(middle, bits + 1, FromOn(commands, middle))
            && Node(prefix, bits + 1, Below(commands, middle))
            && Node(middle, bits + 1, FromOn(commands, middle))
    ensures Pow2(32 - bits) == 2 * Bit(bits) && Pow2(32 - (bits + 1)) == Bit(bits)
  {
    HalvesSplit(prefix, bits, commands);
    hide BitOr, Matching, Node, Mask;
  }

  /** Below a node, some rule matches exactly the arguments of the node whose low half is
      not blocked. */
  lemma {:induction false} RulesAllowComplement(prefix: nat, bits: nat, commands: set<nat>, argument: nat)
    requires Node(prefix, bits, commands)
    ensures AnyMatches(Rules(prefix, bits, commands), argument) <==>
              prefix <= Command(argument) < prefix + Pow2(32 - bits) && Command(argument) !in commands
    decreases 32 - bits
  {
    assert bits <= 32;
    hide Node, Rules, Pow2, AnyMatches, Bit, Command, Matches, Mask;
    if commands == {} {
      RuleMatchesRegion(prefix, bits, argument);
      WholeNode(prefix, bits, argument);
    } else if bits < 32 {
      var middle := prefix + Bit(bits);
      RulesUnfold(prefix, bits, commands);
      RulesAllowComplement(prefix, bits + 1, Below(commands, middle), argument);
      RulesAllowComplement(middle, bits + 1, FromOn(commands, middle), argument);
      AnyInAppend(Rules(prefix, bits + 1, Below(commands, middle)), Rules(middle, bits + 1, FromOn(commands, middle)),
                  argument);
    } else {
      FullNode(prefix, bits, commands, argument);
    }
  }

  lemma WholeNode(prefix: nat, bits: nat, argument: nat)
    requires bits <= 32
    ensures AnyMatches(Rules(prefix, bits, {}), argument) <==> Matches(Rule(Mask(bits), prefix), argument)
  {
    var rules := Rules(prefix, bits, {});
    assert rules == [Rule(Mask(bits), prefix)];
    hide Rules, Mask, Matches;
    assert AnyMatches(rules, argument) <==> Matches(rules[0], argument);
  }

  /** At full depth a blocked command is the prefix itself, and nothing is allowed. */
  lemma FullNode(prefix: nat, bits: nat, commands: set<nat>, argument: nat)
    requires Node(prefix, bits, commands) && commands != {} && bits == 32
    ensures !AnyMatches(Rules(prefix, bits, commands), argument)
    ensures !(prefix <= Command(argument) < prefix + Pow2(32 - bits) && Command(argument) !in commands)
  {
    assert Pow2(32 - bits) == 1 && Rules(prefix, bits, commands) == [];
    var c :| c in commands;
    assert c == prefix;
    hide Rules, Mask, Matches, Pow2, Low, Command, BitAnd;
  }

  lemma AnyInAppend(a: seq<Rule>, b: seq<Rule>, argument: nat)
    ensures AnyMatches(a + b, argument) <==> AnyMatches(a, argument) || AnyMatches(b, argument)
  {
    hide Matches;
    forall i | 0 <= i < |b| && Matches(b[i], argument)
      ensures Matches((a + b)[|a| + i], argument)
    {}
    forall i | 0 <= i < |a| && Matches(a[i], argument)
      ensures Matches((a + b)[i], argument)
    {}
  }

  /** No argument is matched by two rules. */
  lemma {:induction false} RulesAreDisjoint(prefix: nat, bits: nat, commands: set<nat>, i: nat, j: nat, argument: nat)
    requires Node(prefix, bits, commands) && i < j < |Rules(prefix, bits, commands)|
    ensures !(Matches(Rules(prefix, bits, commands)[i], argument)
              && Matches(Rules(prefix, bits, commands)[j], argument))
    decreases 32 - bits
  {
    hide Node, Rules, Pow2, Matches, Bit, Command, AnyMatches, Below, FromOn, Mask;
    TwoRules(prefix, bits, commands);
    RulesUnfold(prefix, bits, commands);
    var middle := prefix + Bit(bits);
    var a, b := Below(commands, middle), FromOn(commands, middle);
    var low, high := Rules(prefix, bits + 1, a), Rules(middle, bits + 1, b);
    Joined(low, high, i);
    Joined(low, high, j);
    if j < |low| {
      RulesAreDisjoint(prefix, bits + 1, a, i, j, argument);
    } else if i >= |low| {
      RulesAreDisjoint(middle, bits + 1, b, i - |low|, j - |low|, argument);
    } else {
      RulesAllowComplement(prefix, bits + 1, a, argument);
      RulesAllowComplement(middle, bits + 1, b, argument);
      SomeMatches(low, i, argument);
      SomeMatches(high, j - |low|, argument);
    }
  }

  lemma TwoRules(prefix: nat, bits: nat, commands: set<nat>)
    requires Node(prefix, bits, commands) && |Rules(prefix, bits, commands)| >= 2
    ensures bits < 32 && commands != {}
  {
    hide Mask, Matching, Pow2, Low;
  }

  lemma Joined(low: seq<Rule>, high: seq<Rule>, i: nat)
    requires i < |low| + |high|
    ensures (low + high)[i] == if i < |low| then low[i] else high[i - |low|]
  {
  }

  lemma SomeMatches(rules: seq<Rule>, i: nat, argument: nat)
    requires i < |rules|
    ensures Matches(rules[i], argument) ==> AnyMatches(rules, argument)
  {
    hide Matches;
  }

  /** Size of the region of a rule. */
  function RegionSize(rule: Rule): int {
    SPACE - rule.mask
  }

  function TotalSize(rules: seq<Rule>): int {
    if rules == [] then 0 else TotalSize(rules[..|rules| - 1]) + RegionSize(rules[|rules| - 1])
  }

  lemma {:induction false} TotalSizeAppend(a: seq<Rule>, b: seq<Rule>)
    ensures TotalSize(a + b) == TotalSize(a) + TotalSize(b)
  {
    if b == [] {
      assert a + b == a;
    } else {
      TotalSizeAppend(a, b[..|b| - 1]);
      assert (a + b)[..|a + b| - 1] == a + b[..|b| - 1];
    }
  }

  lemma SplitSize(commands: set<nat>, middle: nat)
    ensures |commands| == |Below(commands, middle)| + |FromOn(commands, middle)|
  {
    assert commands == Below(commands, middle) + FromOn(commands, middle);
  }

  /** How many rules n blocked commands may cost in a node: one for each of its bits. */
  function RuleBound(bits: nat, n: nat): int {
    if n == 0 then 1 else (32 - bits) * n
  }

  lemma RuleBoundSplits(bits: nat, a: nat, b: nat)
    requires a + b > 0 && bits < 32
    ensures RuleBound(bits + 1, a) + RuleBound(bits + 1, b) <= RuleBound(bits, a + b)
  {
    var rest := 31 - bits;
    assert (rest + 1) * (a + b) == rest * a + rest * b + a + b;
    assert (a == 0 ==> rest * a == 0) && (b == 0 ==> rest * b == 0);
  }

  /** Allowed regions and blocked commands together fill the node; and each blocked command
      costs at most one rule per remaining bit. */
  ghost predicate Fills(prefix: nat, bits: nat, commands: set<nat>)
    requires bits <= 32
  {
    && TotalSize(Rules(prefix, bits, commands)) + |commands| == Pow2(32 - bits)
    && |Rules(prefix, bits, commands)| <= RuleBound(bits, |commands|)
  }

  lemma FillsLeaf(prefix: nat, bits: nat)
    requires bits <= 32
    ensures Fills(prefix, bits, {})
  {
    MaskValue(bits);
    assert Rules(prefix, bits, {}) == [Rule(Mask(bits), prefix)];
    hide Rules, Mask, Pow2;
    var rule := Rule(Mask(bits), prefix);
    assert [rule][..0] == [] && TotalSize([]) == 0;
    assert TotalSize([rule]) == RegionSize(rule);
  }

  lemma FillsSplit(prefix: nat, bits: nat, commands: set<nat>)
    requires Node(prefix, bits, commands) && bits < 32 && commands != {}
    requires var middle := prefix + Bit(bits);
             Fills(prefix, bits + 1, Below(commands, middle)) && Fills(middle, bits + 1, FromOn(commands, middle))
    ensures Fills(prefix, bits, commands)
  {
    RulesUnfold(prefix, bits, commands);
    hide Node, Rules, Pow2, Bit, TotalSize, Below, FromOn, RuleBound;
    var middle := prefix + Bit(bits);
    var a, b := Below(commands, middle), FromOn(commands, middle);
    TotalSizeAppend(Rules(prefix, bits + 1, a), Rules(middle, bits + 1, b));
    SplitSize(commands, middle);
    RuleBoundSplits(bits, |a|, |b|);
  }

  lemma {:induction false} RulesFill(prefix: nat, bits: nat, commands: set<nat>)
    requires Node(prefix, bits, commands)
    ensures Fills(prefix, bits, commands)
    decreases 32 - bits
  {
    assert bits <= 32;
    hide Node, Rules, Pow2, Bit, TotalSize, Below, FromOn, Fills;
    if commands == {} {
      FillsLeaf(prefix, bits);
    } else if bits < 32 {
      var middle := prefix + Bit(bits);
      RulesUnfold(prefix, bits, commands);
      RulesFill(prefix, bits + 1, Below(commands, middle));
      RulesFill(middle, bits + 1, FromOn(commands, middle));
      FillsSplit(prefix, bits, commands);
    } else {
      FillsFull(prefix, bits, commands);
    }
  }

  lemma FillsFull(prefix: nat, bits: nat, commands: set<nat>)
    requires Node(prefix, bits, commands) && bits == 32 && commands != {}
    ensures Fills(prefix, bits, commands)
  {
    assert Pow2(32 - bits) == 1 && Rules(prefix, bits, commands) == [];
    hide Rules, Pow2, Low;
    assert commands == {prefix} by {
      var c :| c in commands;
      assert c == prefix;
    }
  }

  ghost predicate PairwiseDisjoint(rules: seq<Rule>) {
    forall i, j, x: nat | 0 <= i < j < |rules| :: !(Matches(rules[i], x) && Matches(rules[j], x))
  }

  lemma RootNode(commands: set<nat>)
    requires forall c | c in commands :: c < SPACE
    ensures Node(0, 0, commands) && Pow2(32) == SPACE
  {
    Pow32();
    LowOfZero(32);
  }

  /** The rules of the whole command space. */
  function RootRules(commands: set<nat>): seq<Rule> {
    Rules(0, 0, commands)
  }

  lemma RootRulesDisjoint(commands: set<nat>, zero: nat)
    requires zero == 0 && Node(zero, zero, commands)
    ensures PairwiseDisjoint(Rules(zero, zero, commands))
  {
    hide Matches, Node, Rules;
    forall i, j, x: nat | 0 <= i < j < |Rules(zero, zero, commands)|
      ensures !(Matches(Rules(zero, zero, commands)[i], x) && Matches(Rules(zero, zero, commands)[j], x))
    {
      RulesAreDisjoint(zero, zero, commands, i, j, x);
    }
  }

  /** The properties at the root: exactly the complement of the blocked commands, by disjoint
      rules, at most 32 for each command, with no value of the command space lost or doubled. */
  lemma RulesPartitionCommandSpace(commands: set<nat>)
    requires forall c | c in commands :: c < SPACE
    ensures forall x: nat :: AnyMatches(RootRules(commands), x) <==> Command(x) !in commands
    ensures PairwiseDisjoint(RootRules(commands))
    ensures TotalSize(RootRules(commands)) + |commands| == SPACE
    ensures |RootRules(commands)| <= if commands == {} then 1 else 32 * |commands|
  {
    hide AnyMatches, Matches, Node, TotalSize, Rules, PairwiseDisjoint, Command;
    RootNode(commands);
    hide Pow2;
    RulesFill(0, 0, commands);
    RootRulesDisjoint(commands, 0);
    forall x: nat
      ensures AnyMatches(RootRules(commands), x) <==> Command(x) !in commands
    {
      RulesAllowComplement(0, 0, commands, x);
    }
  }

  // ---- The profile ----

  /** One entry of the profile's syscall list; `args` is empty for an unconditional entry. */
  datatype Entry = Entry(names: seq<string>, allow: bool, args: seq<Rule>)

  const BLOCKED_SYSCALLS: set<string> := {"quotactl", "quotactl_fd", "file_setattr", "ioctl"}

  predicate IsBlocked(name: string) { name in BLOCKED_SYSCALLS }

  function Kept(names: seq<string>): (r: seq<string>)
    ensures forall x :: x in r <==> x in names && !IsBlocked(x)
  {
    if names == [] then []
    else Kept(names[..|names| - 1]) + if IsBlocked(names[|names| - 1]) then [] else [names[|names| - 1]]
  }

  ghost predicate Allows(entries: seq<Entry>, name: string, argument: nat) {
    exists e :: e in entries && e.allow && name in e.names
      && (e.args == [] || exists r :: r in e.args && Matches(r, argument))
  }

  function IoctlEntries(rules: seq<Rule>): seq<Entry> {
    seq(|rules|, i requires 0 <= i < |rules| => Entry(["ioctl"], true, [rules[i]]))
  }

  lemma RulesStep(prefix: nat, bits: nat, commands: set<nat>)
    requires bits <= 32
    ensures commands == {} ==>
              IoctlEntries(Rules(prefix, bits, commands)) == [Entry(["ioctl"], true, [Rule(Mask(bits), prefix)])]
    ensures commands != {} && bits < 32 ==>
              Rules(prefix, bits, commands) ==
              Rules(prefix, bits + 1, Matching(commands, prefix, bits)) +
              Rules(BitOr(prefix, Bit(bits)), bits + 1, Matching(commands, BitOr(prefix, Bit(bits)), bits))
    ensures commands != {} && bits == 32 ==> IoctlEntries(Rules(prefix, bits, commands)) == []
  {
    hide Mask, BitOr, Matching, Bit;
  }

  lemma EntriesAppend(entries: seq<Entry>, a: seq<Rule>, b: seq<Rule>)
    ensures entries + IoctlEntries(a) + IoctlEntries(b) == entries + IoctlEntries(a + b)
  {
  }

  class Profile {
    var syscalls: seq<Entry>

    constructor (baseline: seq<Entry>)
      ensures syscalls == baseline
    {
      syscalls := baseline;
    }

    /** The two passes that strip the blocked names and then the entries left empty. */
    method StripBlocked()
      modifies this
      ensures forall e | e in syscalls :: forall name | name in e.names :: !IsBlocked(name)
      ensures forall name, x | !IsBlocked(name) :: Allows(syscalls, name, x) <==> Allows(old(syscalls), name, x)
    {
      hide IsBlocked, Matches;
      ghost var before := syscalls;
      var kept: seq<Entry> := [];
      for i := 0 to |syscalls|
        invariant syscalls == before
        invariant forall e | e in kept :: forall name | name in e.names :: !IsBlocked(name)
        invariant forall e | e in kept :: exists k :: 0 <= k < i && e == before[k].(names := Kept(before[k].names))
        invariant forall k | 0 <= k < i && Kept(before[k].names) != [] ::
                    before[k].(names := Kept(before[k].names)) in kept
      {
        var names := Kept(syscalls[i].names);
        if names != [] {
          kept := kept + [syscalls[i].(names := names)];
        }
      }
      syscalls := kept;
      forall name, x | !IsBlocked(name)
        ensures Allows(kept, name, x) <==> Allows(before, name, x)
      {
        StrippedAllows(before, kept, name, x);
      }
    }

    /** allow_prefix: appends to the shared list. */
    method AllowPrefix(prefix: nat, bits: nat, commands: set<nat>)
      requires bits <= 32
      modifies this
      ensures syscalls == old(syscalls) + IoctlEntries(Rules(prefix, bits, commands))
      decreases 32 - bits
    {
      RulesStep(prefix, bits, commands);
      hide Rules, BitOr, Matching, Bit, Mask, IoctlEntries;
      if commands == {} {
        syscalls := syscalls + [Entry(["ioctl"], true, [Rule(Mask(bits), prefix)])];
      } else if bits < 32 {
        var bit := Bit(bits);
        ghost var low := Rules(prefix, bits + 1, Matching(commands, prefix, bits));
        ghost var high := Rules(BitOr(prefix, bit), bits + 1, Matching(commands, BitOr(prefix, bit), bits));
        EntriesAppend(syscalls, low, high);
        AllowPrefix(prefix, bits + 1, Matching(commands, prefix, bits));
        AllowPrefix(BitOr(prefix, bit), bits + 1, Matching(commands, BitOr(prefix, bit), bits));
      }
    }

    /** The whole derivation. In the result ioctl is allowed exactly for the 64-bit arguments
        whose low half is not blocked, the other blocked calls never, and the rest as before. */
    method Derive(blocked: set<nat>)
      requires forall c | c in blocked :: c < SPACE
      modifies this
      ensures forall x: nat :: Allows(syscalls, "ioctl", x) <==> Command(x) !in blocked
      ensures forall name, x | IsBlocked(name) && name != "ioctl" :: !Allows(syscalls, name, x)
      ensures forall name, x | !IsBlocked(name) :: Allows(syscalls, name, x) <==> Allows(old(syscalls), name, x)
    {
      hide Rules, Command, Node, AnyMatches, Matches;
      StripBlocked();
      ghost var stripped := syscalls;
      AllowPrefix(0, 0, blocked);
      ghost var rules := Rules(0, 0, blocked);
      forall x: nat
        ensures Allows(syscalls, "ioctl", x) <==> Command(x) !in blocked
      {
        RootNode(blocked);
        RulesAllowComplement(0, 0, blocked, x);
        DerivedIoctl(stripped, rules, x);
      }
      forall name, x: nat | name != "ioctl"
        ensures Allows(syscalls, name, x) <==> Allows(stripped, name, x)
      {
        DerivedOther(stripped, rules, name, x);
      }
    }
  }

  lemma StrippedAllows(before: seq<Entry>, kept: seq<Entry>, name: string, x: nat)
    requires !IsBlocked(name)
    requires forall e | e in kept :: exists k :: 0 <= k < |before| && e == before[k].(names := Kept(before[k].names))
    requires forall k | 0 <= k < |before| && Kept(before[k].names) != [] ::
               before[k].(names := Kept(before[k].names)) in kept
    ensures Allows(kept, name, x) <==> Allows(before, name, x)
  {
    hide IsBlocked, Matches;
    if Allows(before, name, x) {
      var e :| e in before && e.allow && name in e.names && (e.args == [] || exists r :: r in e.args && Matches(r, x));
      var k :| 0 <= k < |before| && before[k] == e;
      assert name in Kept(e.names);
      assert e.(names := Kept(e.names)) in kept;
    }
    if Allows(kept, name, x) {
      var e :| e in kept && e.allow && name in e.names && (e.args == [] || exists r :: r in e.args && Matches(r, x));
      var k :| 0 <= k < |before| && e == before[k].(names := Kept(before[k].names));
      assert before[k] in before && name in before[k].names;
    }
  }

  lemma DerivedIoctl(stripped: seq<Entry>, rules: seq<Rule>, x: nat)
    requires forall e | e in stripped :: forall name | name in e.names :: !IsBlocked(name)
    ensures Allows(stripped + IoctlEntries(rules), "ioctl", x) <==> AnyMatches(rules, x)
  {
    var all, added := stripped + IoctlEntries(rules), IoctlEntries(rules);
    assert IsBlocked("ioctl");
    hide IsBlocked, Matches;
    forall i | 0 <= i < |rules| && Matches(rules[i], x)
      ensures Allows(all, "ioctl", x)
    {
      assert added[i] in all;
      assert rules[i] in added[i].args && "ioctl" in added[i].names;
    }
    if Allows(all, "ioctl", x) {
      var e :| e in all && e.allow && "ioctl" in e.names && (e.args == [] || exists r :: r in e.args && Matches(r, x));
      assert e !in stripped;
      var i :| 0 <= i < |added| && added[i] == e;
      assert Matches(rules[i], x);
    }
  }

  lemma DerivedOther(stripped: seq<Entry>, rules: seq<Rule>, name: string, x: nat)
    requires name != "ioctl"
    ensures Allows(stripped + IoctlEntries(rules), name, x) <==> Allows(stripped, name, x)
  {
    hide Matches;
    assert forall e | e in IoctlEntries(rules) :: name !in e.names;
  }
}
