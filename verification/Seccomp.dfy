/** The seccomp profile rewriter of scripts/build-user-storage-seccomp.py.
  *
  * The unconditional ioctl allowance of an exported profile is replaced by masked-equality rules
  * whose blocks partition the 32-bit requests outside an excluded set. Requests reach the filter as
  * 64-bit syscall arguments, so masks, prefixes and arguments are 64-bit vectors here as well.
  */
module Seccomp {
  import opened Common

  const ALLOW := "SCMP_ACT_ALLOW"
  const ERRNO := "SCMP_ACT_ERRNO"
  const IOCTL := "ioctl"
  const BLOCKED: set<bv64> := {0x401c5820, 0x40086602, 0x40046602}

  datatype Comparison = NotEqual | Less | LessOrEqual | Equal | GreaterOrEqual | Greater | MaskedEqual
  datatype ArgRule = ArgRule(index: nat, value: bv64, valueTwo: bv64, op: Comparison)
  datatype Rule = Rule(names: seq<string>, action: string, args: seq<ArgRule>)
  datatype Profile = Profile(defaultAction: string, syscalls: seq<Rule>)
  datatype Error = NotDefaultDeny | UnexpectedIoctlRule | NoIoctlAllowance

  type Arguments = nat -> bv64

  // ----- What a profile means -----

  predicate Holds(a: ArgRule, actual: bv64) {
    match a.op
    case NotEqual => actual != a.value
    case Less => actual < a.value
    case LessOrEqual => actual <= a.value
    case Equal => actual == a.value
    case GreaterOrEqual => actual >= a.value
    case Greater => actual > a.value
    case MaskedEqual => And(actual, a.value) == a.valueTwo
  }

  predicate Matches(rule: Rule, name: string, args: Arguments) {
    name in rule.names && forall a | a in rule.args :: Holds(a, args(a.index))
  }

  /** The actions of all rules matching one system call, in profile order. */
  function Actions(rules: seq<Rule>, name: string, args: Arguments): seq<string> {
    if rules == [] then []
    else (if Matches(rules[0], name, args) then [rules[0].action] else []) + Actions(rules[1..], name, args)
  }

  lemma {:induction false} ActionsConcat(a: seq<Rule>, b: seq<Rule>, name: string, args: Arguments)
    ensures Actions(a + b, name, args) == Actions(a, name, args) + Actions(b, name, args)
  {
    if a == [] {
      assert a + b == b;
    } else {
      assert (a + b)[1..] == a[1..] + b;
      ActionsConcat(a[1..], b, name, args);
    }
  }

  // ----- Bits -----

  // Proofs below hide these definitions and use only the laws stated about them.
  function And(a: bv64, b: bv64): bv64 { a & b }

  function Or(a: bv64, b: bv64): bv64 { a | b }

  function Mask(bits: bv8): bv64
    requires bits <= 32
  {
    (((1 as bv64) << (bits as bv64)) - 1) << ((32 - bits) as bv64)
  }

  function Bit(bits: bv8): bv64
    requires bits < 32
  {
    (1 as bv64) << ((31 - bits) as bv64)
  }

  function Low32(arg: bv64): bv64 { And(arg, 0xffffffff) }

  lemma AndLaws(a: bv64, b: bv64, c: bv64)
    ensures And(And(a, b), c) == And(a, And(b, c))
    ensures And(a, b) == And(b, a)
  {
  }

  lemma Distribute(a: bv64, b: bv64, c: bv64)
    ensures a & (b | c) == (a & b) | (a & c)
  {
  }

  lemma AndOfOr(a: bv64, b: bv64, c: bv64)
    ensures And(a, Or(b, c)) == a & (b | c)
  {
  }

  lemma OrOfAnds(a: bv64, b: bv64, c: bv64)
    ensures Or(And(a, b), And(a, c)) == (a & b) | (a & c)
  {
  }

  lemma OrLaws(a: bv64, b: bv64, c: bv64)
    ensures And(a, Or(b, c)) == Or(And(a, b), And(a, c))
  {
    hide *;
    AndOfOr(a, b, c);
    Distribute(a, b, c);
    OrOfAnds(a, b, c);
  }

  lemma UnitLaws(a: bv64)
    ensures And(a, a) == a && And(a, 0) == 0 && Or(a, 0) == a && Or(0, a) == a
  {
  }

  /** A word with one bit set meets another word in that bit or not at all. */
  lemma OneBit(arg: bv64, bits: bv8)
    requires bits < 32
    ensures And(arg, Bit(bits)) == 0 || And(arg, Bit(bits)) == Bit(bits)
    ensures Bit(bits) != 0
  {
    assert Bit(bits) & (Bit(bits) - 1) == 0;
  }

  lemma MaskStep(bits: bv8)
    requires bits < 32
    ensures Mask(bits + 1) == Or(Mask(bits), Bit(bits))
    ensures And(Mask(bits), Bit(bits)) == 0
  {
  }

  lemma MaskLow(bits: bv8)
    requires bits <= 32
    ensures And(0xffffffff, Mask(bits)) == Mask(bits)
    ensures bits < 32 ==> And(0xffffffff, Bit(bits)) == Bit(bits)
    ensures Mask(0) == 0 && Mask(32) == 0xffffffff
  {
  }

  lemma LowBits(arg: bv64, bits: bv8)
    requires bits <= 32
    ensures And(Low32(arg), Mask(bits)) == And(arg, Mask(bits))
    ensures bits < 32 ==> And(Low32(arg), Bit(bits)) == And(arg, Bit(bits))
    ensures Mask(0) == 0 && And(arg, Mask(32)) == Low32(arg) && Low32(Low32(arg)) == Low32(arg)
  {
    MaskLow(bits);
    MaskLow(32);
    hide And, Or, Mask, Bit;
    AndLaws(arg, 0xffffffff, Mask(bits));
    AndLaws(arg, 0xffffffff, 0xffffffff);
    UnitLaws(0xffffffff);
    if bits < 32 {
      AndLaws(arg, 0xffffffff, Bit(bits));
    }
  }

  lemma SplitParts(arg: bv64, mask: bv64, bit: bv64)
    requires And(mask, bit) == 0
    ensures And(arg, Or(mask, bit)) == Or(And(arg, mask), And(arg, bit))
    ensures And(And(arg, Or(mask, bit)), mask) == And(arg, mask)
    ensures And(And(arg, Or(mask, bit)), bit) == And(arg, bit)
  {
    hide *;
    OrLaws(arg, mask, bit);
    AndLaws(arg, Or(mask, bit), mask);
    AndLaws(arg, Or(mask, bit), bit);
    OrLaws(mask, mask, bit);
    OrLaws(bit, mask, bit);
    AndLaws(Or(mask, bit), mask, 0);
    AndLaws(Or(mask, bit), bit, 0);
    AndLaws(mask, bit, 0);
    UnitLaws(mask);
    UnitLaws(bit);
  }

  /** The two prefixes below one prefix, by their masked and their decided part. */
  lemma PrefixParts(prefix: bv64, mask: bv64, bit: bv64)
    requires And(prefix, mask) == prefix && And(mask, bit) == 0
    ensures And(prefix, bit) == 0
    ensures And(Or(prefix, bit), mask) == prefix && And(Or(prefix, bit), bit) == bit
  {
    hide *;
    AndLaws(prefix, mask, bit);
    AndLaws(mask, bit, 0);
    AndLaws(mask, prefix, 0);
    AndLaws(bit, prefix, 0);
    AndLaws(Or(prefix, bit), mask, 0);
    AndLaws(Or(prefix, bit), bit, 0);
    OrLaws(mask, prefix, bit);
    OrLaws(bit, prefix, bit);
    UnitLaws(prefix);
    UnitLaws(bit);
  }

  lemma SplitWord(arg: bv64, prefix: bv64, mask: bv64, bit: bv64)
    requires And(prefix, mask) == prefix && And(mask, bit) == 0
    requires And(arg, bit) == 0 || And(arg, bit) == bit
    ensures And(arg, Or(mask, bit)) == prefix <==> And(arg, mask) == prefix && And(arg, bit) == 0
    ensures And(arg, Or(mask, bit)) == Or(prefix, bit) <==> And(arg, mask) == prefix && And(arg, bit) == bit
  {
    hide *;
    PrefixParts(prefix, mask, bit);
    SplitParts(arg, mask, bit);
    UnitLaws(prefix);
  }

  /** Deciding one more bit splits a block into its two halves. */
  lemma Split(arg: bv64, prefix: bv64, bits: bv8)
    requires bits < 32 && And(prefix, Mask(bits)) == prefix
    ensures And(arg, Mask(bits + 1)) == prefix <==> And(arg, Mask(bits)) == prefix && And(arg, Bit(bits)) == 0
    ensures And(arg, Mask(bits + 1)) == Or(prefix, Bit(bits))
        <==> And(arg, Mask(bits)) == prefix && And(arg, Bit(bits)) != 0
    ensures And(prefix, Mask(bits + 1)) == prefix
    ensures And(Or(prefix, Bit(bits)), Mask(bits + 1)) == Or(prefix, Bit(bits))
    ensures Or(prefix, Bit(bits)) != prefix
  {
    hide *;
    MaskStep(bits);
    OneBit(arg, bits);
    var mask, bit := Mask(bits), Bit(bits);
    PrefixParts(prefix, mask, bit);
    SplitWord(arg, prefix, mask, bit);
    SplitWord(prefix, prefix, mask, bit);
    SplitWord(Or(prefix, bit), prefix, mask, bit);
  }

  // ----- Prefix blocks -----

  /** Every excluded word lies in the block of the prefix. */
  predicate InBlock(prefix: bv64, bits: bv8, excluded: set<bv64>)
    requires bits <= 32
  {
    And(prefix, Mask(bits)) == prefix && forall v | v in excluded :: Low32(v) == v && And(v, Mask(bits)) == prefix
  }

  function Clear(excluded: set<bv64>, bit: bv64): set<bv64> {
    set v | v in excluded && And(v, bit) == 0
  }

  function Lit(excluded: set<bv64>, bit: bv64): set<bv64> {
    set v | v in excluded && And(v, bit) != 0
  }

  function BlockRule(prefix: bv64, bits: bv8): Rule
    requires bits <= 32
  {
    Rule([IOCTL], ALLOW, [ArgRule(1, Mask(bits), prefix, MaskedEqual)])
  }

  /** The rules the recursion appends below one prefix. */
  function PrefixRules(prefix: bv64, bits: bv8, excluded: set<bv64>): seq<Rule>
    requires bits <= 32
    decreases 32 - bits
  {
    if excluded == {} then [BlockRule(prefix, bits)]
    else if bits < 32 then
      PrefixRules(prefix, bits + 1, Clear(excluded, Bit(bits)))
      + PrefixRules(Or(prefix, Bit(bits)), bits + 1, Lit(excluded, Bit(bits)))
    else []
  }

  lemma Unfold(prefix: bv64, bits: bv8, excluded: set<bv64>)
    requires bits < 32 && excluded != {}
    ensures PrefixRules(prefix, bits, excluded)
         == PrefixRules(prefix, bits + 1, Clear(excluded, Bit(bits)))
            + PrefixRules(Or(prefix, Bit(bits)), bits + 1, Lit(excluded, Bit(bits)))
  {
    hide And, Or, Mask, Bit;
  }

  lemma InHalves(prefix: bv64, bits: bv8, excluded: set<bv64>)
    requires bits < 32 && InBlock(prefix, bits, excluded)
    ensures InBlock(prefix, bits + 1, Clear(excluded, Bit(bits)))
    ensures InBlock(Or(prefix, Bit(bits)), bits + 1, Lit(excluded, Bit(bits)))
    ensures excluded == Clear(excluded, Bit(bits)) + Lit(excluded, Bit(bits))
    ensures |excluded| == |Clear(excluded, Bit(bits))| + |Lit(excluded, Bit(bits))|
  {
    hide And, Or, Mask, Bit, Low32;
    Split(0, prefix, bits);
    forall v | v in excluded
      ensures And(v, Mask(bits + 1)) == if And(v, Bit(bits)) == 0 then prefix else Or(prefix, Bit(bits))
    {
      Split(v, prefix, bits);
    }
    var c, l := Clear(excluded, Bit(bits)), Lit(excluded, Bit(bits));
    assert excluded == c + l && c !! l;
  }

  /** At full depth a non-empty exclusion is exactly the one remaining word. */
  lemma FullDepth(prefix: bv64, excluded: set<bv64>)
    requires InBlock(prefix, 32, excluded) && excluded != {}
    ensures excluded == {prefix}
  {
    LowBits(0, 32);
    forall v | v in excluded ensures v == prefix {
      LowBits(v, 32);
    }
    var w :| w in excluded;
    assert excluded == {w};
  }

  /** Inside a block a request is matched once when its low word is not excluded, otherwise never. */
  lemma {:induction false} MatchedOnce(prefix: bv64, bits: bv8, excluded: set<bv64>, args: Arguments)
    requires bits <= 32 && InBlock(prefix, bits, excluded)
    ensures Actions(PrefixRules(prefix, bits, excluded), IOCTL, args)
         == if And(args(1), Mask(bits)) == prefix && Low32(args(1)) !in excluded then [ALLOW] else []
    decreases 32 - bits
  {
    hide And, Or, Mask, Bit, Low32;
    var request := args(1);
    LowBits(request, bits);
    if excluded == {} {
      var rule := BlockRule(prefix, bits);
      assert Matches(rule, IOCTL, args) <==> Holds(rule.args[0], request);
      assert Actions([rule], IOCTL, args) == if Matches(rule, IOCTL, args) then [ALLOW] else [];
    } else if bits < 32 {
      var bit := Bit(bits);
      InHalves(prefix, bits, excluded);
      MatchedOnce(prefix, bits + 1, Clear(excluded, bit), args);
      MatchedOnce(Or(prefix, bit), bits + 1, Lit(excluded, bit), args);
      ActionsConcat(PrefixRules(prefix, bits + 1, Clear(excluded, bit)),
                    PrefixRules(Or(prefix, bit), bits + 1, Lit(excluded, bit)), IOCTL, args);
      Split(request, prefix, bits);
    } else {
      FullDepth(prefix, excluded);
    }
  }

  lemma {:induction false} OnlyIoctl(prefix: bv64, bits: bv8, excluded: set<bv64>, name: string, args: Arguments)
    requires bits <= 32 && name != IOCTL
    ensures Actions(PrefixRules(prefix, bits, excluded), name, args) == []
    decreases 32 - bits
  {
    if excluded != {} && bits < 32 {
      var bit := Bit(bits);
      OnlyIoctl(prefix, bits + 1, Clear(excluded, bit), name, args);
      OnlyIoctl(Or(prefix, bit), bits + 1, Lit(excluded, bit), name, args);
      ActionsConcat(PrefixRules(prefix, bits + 1, Clear(excluded, bit)),
                    PrefixRules(Or(prefix, bit), bits + 1, Lit(excluded, bit)), name, args);
    }
  }

  // ----- Counting words -----

  /** The 32-bit words of one block, listed without reference to any rule. */
  ghost function Words(prefix: bv64, bits: bv8): set<bv64>
    requires bits <= 32
    decreases 32 - bits
  {
    if bits == 32 then {prefix} else Words(prefix, bits + 1) + Words(Or(prefix, Bit(bits)), bits + 1)
  }

  ghost function BlockSize(bits: bv8): nat
    requires bits <= 32
    decreases 32 - bits
  {
    if bits == 32 then 1 else 2 * BlockSize(bits + 1)
  }

  lemma {:induction false} WordsOfBlock(prefix: bv64, bits: bv8)
    requires bits <= 32 && And(prefix, Mask(bits)) == prefix
    ensures forall w :: w in Words(prefix, bits) <==> Low32(w) == w && And(w, Mask(bits)) == prefix
    ensures |Words(prefix, bits)| == BlockSize(bits)
    decreases 32 - bits
  {
    hide And, Or, Mask, Bit, Low32;
    LowBits(0, bits);
    if bits < 32 {
      Split(0, prefix, bits);
      var lower, upper := Words(prefix, bits + 1), Words(Or(prefix, Bit(bits)), bits + 1);
      WordsOfBlock(prefix, bits + 1);
      WordsOfBlock(Or(prefix, Bit(bits)), bits + 1);
      forall w ensures w in lower + upper <==> Low32(w) == w && And(w, Mask(bits)) == prefix {
        Split(w, prefix, bits);
      }
      forall w | w in lower ensures w !in upper {
        Split(w, prefix, bits);
      }
      assert lower !! upper;
    } else {
      forall w ensures w == prefix <==> Low32(w) == w && And(w, Mask(32)) == prefix {
        LowBits(w, 32);
      }
    }
  }

  lemma AllWords()
    ensures BlockSize(0) == 0x1_0000_0000
  {
    assert BlockSize(24) == 0x100;
    assert BlockSize(16) == 0x1_0000;
    assert BlockSize(8) == 0x100_0000;
  }

  /** The 32-bit words a rule lets through as an ioctl request. */
  ghost function MatchedWords(rule: Rule): set<bv64> {
    set w | w in Words(0, 0) && Matches(rule, IOCTL, _ => w)
  }

  ghost function TotalWords(rules: seq<Rule>): nat {
    if rules == [] then 0 else |MatchedWords(rules[0])| + TotalWords(rules[1..])
  }

  lemma {:induction false} TotalConcat(a: seq<Rule>, b: seq<Rule>)
    ensures TotalWords(a + b) == TotalWords(a) + TotalWords(b)
  {
    if a == [] {
      assert a + b == b;
    } else {
      assert (a + b)[1..] == a[1..] + b;
      TotalConcat(a[1..], b);
    }
  }

  lemma BlockMatches(prefix: bv64, bits: bv8, w: bv64)
    requires bits <= 32
    ensures Matches(BlockRule(prefix, bits), IOCTL, _ => w) <==> And(w, Mask(bits)) == prefix
  {
    hide And, Or, Mask, Bit, Low32;
    var rule := BlockRule(prefix, bits);
    assert rule.args[0] in rule.args;
  }

  lemma WordsOfAll(w: bv64)
    ensures w in Words(0, 0) <==> Low32(w) == w
  {
    LowBits(w, 0);
    hide And, Or, Mask, Bit, Low32, Words;
    UnitLaws(0);
    UnitLaws(w);
    WordsOfBlock(0, 0);
  }

  lemma BlockWords(prefix: bv64, bits: bv8)
    requires bits <= 32 && And(prefix, Mask(bits)) == prefix
    ensures |MatchedWords(BlockRule(prefix, bits))| == BlockSize(bits)
  {
    hide And, Or, Mask, Bit, Low32, Words, Matches;
    var rule := BlockRule(prefix, bits);
    WordsOfBlock(prefix, bits);
    forall w ensures w in MatchedWords(rule) <==> w in Words(prefix, bits) {
      WordsOfAll(w);
      BlockMatches(prefix, bits, w);
    }
    assert MatchedWords(rule) == Words(prefix, bits);
  }

  /** Allowed words, counted rule by rule, and excluded words together fill the block. */
  lemma {:induction false} BlockConserved(prefix: bv64, bits: bv8, excluded: set<bv64>)
    requires bits <= 32 && InBlock(prefix, bits, excluded)
    ensures TotalWords(PrefixRules(prefix, bits, excluded)) + |excluded| == BlockSize(bits)
    decreases 32 - bits
  {
    hide And, Or, Mask, Bit, Low32;
    hide MatchedWords;
    if excluded == {} {
      var rule := BlockRule(prefix, bits);
      BlockWords(prefix, bits);
      assert [rule][1..] == [];
    } else if bits < 32 {
      hide PrefixRules, InBlock, TotalWords, Clear, Lit;
      var bit := Bit(bits);
      Unfold(prefix, bits, excluded);
      InHalves(prefix, bits, excluded);
      BlockConserved(prefix, bits + 1, Clear(excluded, bit));
      BlockConserved(Or(prefix, bit), bits + 1, Lit(excluded, bit));
      TotalConcat(PrefixRules(prefix, bits + 1, Clear(excluded, bit)),
                  PrefixRules(Or(prefix, bit), bits + 1, Lit(excluded, bit)));
    } else {
      FullDepth(prefix, excluded);
    }
  }

  predicate AllWords32(excluded: set<bv64>) {
    forall v | v in excluded :: Low32(v) == v
  }

  /** Summed over the generated rules, the allowed words are all of 2^32 but the excluded ones. */
  lemma WordsConserved(excluded: set<bv64>)
    requires AllWords32(excluded)
    ensures TotalWords(PrefixRules(0, 0, excluded)) + |excluded| == 0x1_0000_0000
  {
    hide PrefixRules, InBlock, AllWords32;
    WholeRange(excluded);
    BlockConserved(0, 0, excluded);
    AllWords();
  }

  /** Undecided bits below a prefix. */
  ghost function Undecided(bits: bv8): nat
    requires bits <= 32
    decreases 32 - bits
  {
    if bits == 32 then 0 else 1 + Undecided(bits + 1)
  }

  lemma OneMoreBit(d: nat, a: nat, b: nat, left: nat, right: nat)
    requires a + b > 0
    requires if a == 0 then left == 1 else left <= d * a
    requires if b == 0 then right == 1 else right <= d * b
    ensures left + right <= (1 + d) * (a + b)
  {
    assert (1 + d) * (a + b) == d * a + d * b + (a + b);
  }

  lemma {:induction false} CoverBound(prefix: bv64, bits: bv8, excluded: set<bv64>)
    requires bits <= 32 && InBlock(prefix, bits, excluded)
    ensures excluded == {} ==> |PrefixRules(prefix, bits, excluded)| == 1
    ensures excluded != {} ==> |PrefixRules(prefix, bits, excluded)| <= Undecided(bits) * |excluded|
    decreases 32 - bits
  {
    hide And, Or, Mask, Bit, Low32;
    if excluded != {} && bits < 32 {
      var bit := Bit(bits);
      var clear, lit := Clear(excluded, bit), Lit(excluded, bit);
      InHalves(prefix, bits, excluded);
      CoverBound(prefix, bits + 1, clear);
      CoverBound(Or(prefix, bit), bits + 1, lit);
      Unfold(prefix, bits, excluded);
      assert Undecided(bits) == 1 + Undecided(bits + 1);
      hide *;
      OneMoreBit(Undecided(bits + 1), |clear|, |lit|,
                 |PrefixRules(prefix, bits + 1, clear)|, |PrefixRules(Or(prefix, bit), bits + 1, lit)|);
    }
  }

  lemma AllBits()
    ensures Undecided(0) == 32
  {
    assert Undecided(24) == 8;
    assert Undecided(16) == 16;
    assert Undecided(8) == 24;
  }

  lemma WholeRange(excluded: set<bv64>)
    requires AllWords32(excluded)
    ensures InBlock(0, 0, excluded)
  {
    LowBits(0, 0);
    hide And, Or, Mask, Bit;
    forall v ensures And(v, 0) == 0 { UnitLaws(v); }
  }

  /** The cover is small: at most 32 rules for each excluded word. */
  lemma RuleBound(excluded: set<bv64>)
    requires AllWords32(excluded) && excluded != {}
    ensures |PrefixRules(0, 0, excluded)| <= 32 * |excluded|
  {
    hide PrefixRules, InBlock, AllWords32;
    WholeRange(excluded);
    CoverBound(0, 0, excluded);
    AllBits();
  }

  // ----- Rewriting a profile -----

  predicate Unconditional(rule: Rule) { rule.action == ALLOW && rule.args == [] }

  function RemoveFirst(names: seq<string>, name: string): (r: seq<string>)
    ensures name !in names ==> r == names
  {
    if names == [] then []
    else if names[0] == name then names[1..]
    else [names[0]] + RemoveFirst(names[1..], name)
  }

  function StripRule(rule: Rule): seq<Rule> {
    var kept := rule.(names := RemoveFirst(rule.names, IOCTL));
    if kept.names == [] then [] else [kept]
  }

  /** The source rules without their ioctl allowance. */
  function Strip(rules: seq<Rule>): seq<Rule> {
    if rules == [] then [] else Strip(rules[..|rules| - 1]) + StripRule(rules[|rules| - 1])
  }

  predicate NamesIoctl(rules: seq<Rule>) {
    exists r | r in rules :: IOCTL in r.names
  }

  predicate OnlyUnconditional(rules: seq<Rule>) {
    forall r | r in rules && IOCTL in r.names :: Unconditional(r)
  }

  /** How one more source rule changes what is known about a prefix of them. */
  lemma PrefixFacts(rules: seq<Rule>, i: nat)
    requires i < |rules|
    ensures Strip(rules[..i + 1]) == Strip(rules[..i]) + StripRule(rules[i])
    ensures NamesIoctl(rules[..i + 1]) <==> NamesIoctl(rules[..i]) || IOCTL in rules[i].names
    ensures OnlyUnconditional(rules[..i + 1])
        <==> OnlyUnconditional(rules[..i]) && (IOCTL in rules[i].names ==> Unconditional(rules[i]))
    ensures OnlyUnconditional(rules) ==> IOCTL in rules[i].names ==> Unconditional(rules[i])
  {
    assert rules[..i + 1] == rules[..i] + [rules[i]];
    assert rules[..i + 1][..i] == rules[..i];
  }

  function Restricted(p: Profile, excluded: set<bv64>): Result<Profile, Error> {
    if p.defaultAction != ERRNO then Err(NotDefaultDeny)
    else if !OnlyUnconditional(p.syscalls) then Err(UnexpectedIoctlRule)
    else if !NamesIoctl(p.syscalls) then Err(NoIoctlAllowance)
    else Ok(p.(syscalls := Strip(p.syscalls) + PrefixRules(0, 0, excluded)))
  }

  /** The rule list the recursion of the source appends to. */
  class RuleList {
    var rules: seq<Rule>

    constructor (initial: seq<Rule>)
      ensures rules == initial
    {
      rules := initial;
    }

    method Prefixes(prefix: bv64, bits: bv8, excluded: set<bv64>)
      requires bits <= 32
      modifies this
      ensures rules == old(rules) + PrefixRules(prefix, bits, excluded)
      decreases Undecided(bits)
    {
      hide And, Or, Mask, Bit;
      if excluded == {} {
        rules := rules + [BlockRule(prefix, bits)];
      } else if bits < 32 {
        var bit := Bit(bits);
        assert Undecided(bits + 1) < Undecided(bits);
        hide *;
        Prefixes(prefix, bits + 1, Clear(excluded, bit));
        Prefixes(Or(prefix, bit), bits + 1, Lit(excluded, bit));
        Unfold(prefix, bits, excluded);
      }
    }
  }

  method Restrict(baseline: Profile, excluded: set<bv64>) returns (r: Result<Profile, Error>)
    ensures r == Restricted(baseline, excluded)
  {
    if baseline.defaultAction != ERRNO {
      return Err(NotDefaultDeny);
    }
    var found, rules := false, [];
    for i := 0 to |baseline.syscalls|
      invariant OnlyUnconditional(baseline.syscalls[..i])
      invariant found <==> NamesIoctl(baseline.syscalls[..i])
      invariant rules == Strip(baseline.syscalls[..i])
    {
      hide PrefixRules, Strip, NamesIoctl, OnlyUnconditional;
      var rule := baseline.syscalls[i];
      PrefixFacts(baseline.syscalls, i);
      if IOCTL in rule.names {
        if !Unconditional(rule) {
          return Err(UnexpectedIoctlRule);
        }
        rule := rule.(names := RemoveFirst(rule.names, IOCTL));
        found := true;
      }
      if rule.names != [] {
        rules := rules + [rule];
      }
    }
    assert baseline.syscalls[..|baseline.syscalls|] == baseline.syscalls;
    if !found {
      return Err(NoIoctlAllowance);
    }
    var list := new RuleList(rules);
    list.Prefixes(0, 0, excluded);
    return Ok(baseline.(syscalls := list.rules));
  }

  // ----- What the rewriting preserves -----

  lemma {:induction false} RemoveKeeps(names: seq<string>, name: string, other: string)
    requires other != name
    ensures other in RemoveFirst(names, name) <==> other in names
  {
    if names != [] && names[0] != name {
      RemoveKeeps(names[1..], name, other);
      assert names == [names[0]] + names[1..];
    } else if names != [] {
      assert names == [names[0]] + names[1..];
    }
  }

  lemma StripRuleKeeps(rule: Rule, name: string, args: Arguments)
    requires name != IOCTL
    ensures Actions(StripRule(rule), name, args) == Actions([rule], name, args)
  {
    var kept := rule.(names := RemoveFirst(rule.names, IOCTL));
    RemoveKeeps(rule.names, IOCTL, name);
    assert Matches(kept, name, args) == Matches(rule, name, args);
    assert [kept][1..] == [] && [rule][1..] == [];
  }

  lemma {:induction false} StripKeeps(rules: seq<Rule>, name: string, args: Arguments)
    requires name != IOCTL
    ensures Actions(Strip(rules), name, args) == Actions(rules, name, args)
  {
    hide And, Matches, StripRule;
    if rules != [] {
      var init, last := rules[..|rules| - 1], rules[|rules| - 1];
      StripKeeps(init, name, args);
      StripRuleKeeps(last, name, args);
      ActionsConcat(Strip(init), StripRule(last), name, args);
      ActionsConcat(init, [last], name, args);
      assert rules == init + [last];
    }
  }

  /** Every other system call matches the same actions, in the same order, before and after. */
  lemma OtherSyscallsUnchanged(p: Profile, excluded: set<bv64>, name: string, args: Arguments)
    requires Restricted(p, excluded).Ok? && name != IOCTL
    ensures Restricted(p, excluded).value.defaultAction == p.defaultAction
    ensures Actions(Restricted(p, excluded).value.syscalls, name, args) == Actions(p.syscalls, name, args)
  {
    StripKeeps(p.syscalls, name, args);
    OnlyIoctl(0, 0, excluded, name, args);
    ActionsConcat(Strip(p.syscalls), PrefixRules(0, 0, excluded), name, args);
  }

  /** Removing a name drops its first occurrence only. */
  predicate Repeats(names: seq<string>, name: string) { name in RemoveFirst(names, name) }

  predicate RepeatsIoctl(rules: seq<Rule>) {
    exists r | r in rules :: Repeats(r.names, IOCTL)
  }

  lemma LeftoverOfRule(rule: Rule, args: Arguments)
    requires IOCTL in rule.names ==> Unconditional(rule)
    ensures Actions(StripRule(rule), IOCTL, args) == if Repeats(rule.names, IOCTL) then [ALLOW] else []
  {
    hide And;
    var kept := rule.(names := RemoveFirst(rule.names, IOCTL));
    assert Matches(kept, IOCTL, args) <==> Repeats(rule.names, IOCTL);
    assert [kept][1..] == [];
  }

  lemma {:induction false} LeftoverIoctl(rules: seq<Rule>, args: Arguments)
    requires OnlyUnconditional(rules)
    ensures Actions(Strip(rules), IOCTL, args) == [] <==> !RepeatsIoctl(rules)
    ensures forall a | a in Actions(Strip(rules), IOCTL, args) :: a == ALLOW
  {
    hide And, Actions, StripRule, Repeats, Unconditional;
    if rules != [] {
      var init, last := rules[..|rules| - 1], rules[|rules| - 1];
      assert rules == init + [last];
      LeftoverIoctl(init, args);
      LeftoverOfRule(last, args);
      ActionsConcat(Strip(init), StripRule(last), IOCTL, args);
      assert RepeatsIoctl(rules) <==> RepeatsIoctl(init) || Repeats(last.names, IOCTL);
    } else {
      NoActions(IOCTL, args);
    }
  }

  lemma NoActions(name: string, args: Arguments)
    ensures Actions([], name, args) == []
  {
  }

  /** The verdict intended for ioctl: one allowance unless the low word of the request is excluded. */
  ghost predicate IoctlRestricted(rules: seq<Rule>, excluded: set<bv64>) {
    forall args: Arguments :: Actions(rules, IOCTL, args) == if Low32(args(1)) in excluded then [] else [ALLOW]
  }

  lemma IoctlActions(p: Profile, excluded: set<bv64>, args: Arguments)
    requires AllWords32(excluded) && Restricted(p, excluded).Ok?
    ensures Actions(Restricted(p, excluded).value.syscalls, IOCTL, args)
         == Actions(Strip(p.syscalls), IOCTL, args) + if Low32(args(1)) in excluded then [] else [ALLOW]
  {
    LowBits(args(1), 0);
    hide And, Or, Mask, Bit, Low32, InBlock, AllWords32;
    UnitLaws(args(1));
    WholeRange(excluded);
    MatchedOnce(0, 0, excluded, args);
    ActionsConcat(Strip(p.syscalls), PrefixRules(0, 0, excluded), IOCTL, args);
  }

  /** The restriction takes effect exactly when no source rule names ioctl twice, because only the
    * first occurrence is removed from a rule. */
  lemma IoctlRestrictedIff(p: Profile, excluded: set<bv64>)
    requires AllWords32(excluded) && Restricted(p, excluded).Ok?
    ensures IoctlRestricted(Restricted(p, excluded).value.syscalls, excluded) <==> !RepeatsIoctl(p.syscalls)
  {
    hide And, Or, Low32, Strip, PrefixRules, RepeatsIoctl;
    var rules := Restricted(p, excluded).value.syscalls;
    forall args: Arguments ensures
      Actions(rules, IOCTL, args) == (if Low32(args(1)) in excluded then [] else [ALLOW]) <==> !RepeatsIoctl(p.syscalls)
    {
      IoctlActions(p, excluded, args);
      LeftoverIoctl(p.syscalls, args);
    }
    var some: Arguments := _ => 0;
    assert IoctlRestricted(rules, excluded) ==>
        Actions(rules, IOCTL, some) == if Low32(some(1)) in excluded then [] else [ALLOW];
  }

  /** A rule naming ioctl twice leaves an unconditional allowance for a blocked request. */
  lemma RepeatedNameLeavesBlockedRequest()
    ensures var p := Profile(ERRNO, [Rule([IOCTL, IOCTL], ALLOW, [])]);
            Restricted(p, BLOCKED).Ok?
            && ALLOW in Actions(Restricted(p, BLOCKED).value.syscalls, IOCTL, _ => 0x401c5820)
  {
    var rule := Rule([IOCTL, IOCTL], ALLOW, []);
    var p := Profile(ERRNO, [rule]);
    var args: Arguments := _ => 0x401c5820;
    assert IOCTL in rule.names;
    assert rule in p.syscalls;
    assert RemoveFirst(rule.names, IOCTL) == [IOCTL];
    assert Repeats(rule.names, IOCTL);
    assert p.syscalls[..0] == [];
    LeftoverIoctl(p.syscalls, args);
    ActionsConcat(Strip(p.syscalls), PrefixRules(0, 0, BLOCKED), IOCTL, args);
  }
}
