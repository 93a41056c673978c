/**
 * Rule-based transaction classification (core/symbolic_classifier.py).
 *
 * A transaction is a record from field names to values. A rule's condition is a
 * predicate over such a record that may hold, fail, or raise. The classifier keeps
 * its rules ranked by priority (descending) and then confidence (descending), answers
 * with the first rule that fires, and remembers the answer under the transaction's id.
 */
module SymbolicClassification {
  import opened Wrappers
  import opened Reals

  // ---------------------------------------------------------------------------
  // Symbols and records
  // ---------------------------------------------------------------------------

  datatype TransactionSymbol = Income | Expense | Transfer | Investment | Savings | Debt | Tax | Utility

  /** The enumeration's `.value` string. */
  function SymbolValue(s: TransactionSymbol): string
  {
    match s
    case Income => "INCOME"
    case Expense => "EXPENSE"
    case Transfer => "TRANSFER"
    case Investment => "INVESTMENT"
    case Savings => "SAVINGS"
    case Debt => "DEBT"
    case Tax => "TAX"
    case Utility => "UTILITY"
  }

  datatype RiskSymbol = Low | Medium | High | Critical

  /** Position of a risk level in the order LOW < MEDIUM < HIGH < CRITICAL. */
  function RiskRank(r: RiskSymbol): nat
  {
    match r
    case Low => 0
    case Medium => 1
    case High => 2
    case Critical => 3
  }

  /** A field value of a transaction record: `None`, a number, a string, a list of rule names, a risk level. */
  datatype Value = Null | Num(x: real) | Str(s: string) | Names(names: seq<string>) | Risk(level: RiskSymbol)

  type Transaction = map<string, Value>

  /** Python's `dict.get(key, default)`. */
  function Get(t: Transaction, key: string, default: Value): Value
  {
    if key in t then t[key] else default
  }

  /** The outcome of evaluating a rule condition: truthy, falsy, or an exception. */
  datatype Verdict = Holds | Fails | Raises

  /** A classification rule; confidence and priority default to 0.8 and 1. */
  datatype SymbolicRule = SymbolicRule(
    name: string,
    condition: Transaction -> Verdict,
    classification: TransactionSymbol,
    confidence: real := 0.8,
    priority: int := 1)

  // ---------------------------------------------------------------------------
  // Rule ranking: the sort key (-priority, -confidence)
  // ---------------------------------------------------------------------------

  /** `a` sorts strictly before `b` under the key (-priority, -confidence). */
  predicate Precedes(a: SymbolicRule, b: SymbolicRule)
  {
    a.priority > b.priority || (a.priority == b.priority && a.confidence > b.confidence)
  }

  /** No rule is strictly outranked by a later one. */
  predicate Ranked(rules: seq<SymbolicRule>)
  {
    forall i, j :: 0 <= i < j < |rules| ==> !Precedes(rules[j], rules[i])
  }

  /** Number of leading rules that `r` does not outrank: where a stable sort places `r`. */
  function InsertPosition(rules: seq<SymbolicRule>, r: SymbolicRule): (k: nat)
    ensures k <= |rules|
  {
    if |rules| == 0 then 0
    else if Precedes(r, rules[0]) then 0
    else 1 + InsertPosition(rules[1..], r)
  }

  /** `r` outranks none of the rules before its insertion position, and outranks the rule at it. */
  lemma {:induction false} InsertPositionBoundary(rules: seq<SymbolicRule>, r: SymbolicRule)
    ensures forall i :: 0 <= i < InsertPosition(rules, r) ==> !Precedes(r, rules[i])
    ensures InsertPosition(rules, r) < |rules| ==> Precedes(r, rules[InsertPosition(rules, r)])
    decreases |rules|
  {
    if |rules| != 0 && !Precedes(r, rules[0]) {
      InsertPositionBoundary(rules[1..], r);
      assert forall i :: 1 <= i < |rules| ==> rules[1..][i - 1] == rules[i];
    }
  }

  /**
   * `rules + [r]` after Python's stable sort, given that `rules` is already ranked: the
   * new rule goes after every rule it does not outrank, and the old rules keep their order.
   */
  function InsertRule(rules: seq<SymbolicRule>, r: SymbolicRule): seq<SymbolicRule>
  {
    var k := InsertPosition(rules, r);
    rules[..k] + [r] + rules[k..]
  }

  /** The inserted list holds exactly the old rules and the new one. */
  lemma InsertRulePermutation(rules: seq<SymbolicRule>, r: SymbolicRule)
    ensures multiset(InsertRule(rules, r)) == multiset(rules) + multiset{r}
  {
    var k := InsertPosition(rules, r);
    assert rules == rules[..k] + rules[k..];
  }

  /** Removing the new rule from its position gives back the old list: the old rules keep their relative order. */
  lemma InsertRuleKeepsOrder(rules: seq<SymbolicRule>, r: SymbolicRule)
    ensures var k := InsertPosition(rules, r);
            var out := InsertRule(rules, r);
            |out| == |rules| + 1 && out[k] == r && out[..k] + out[k + 1..] == rules
  {
    var k := InsertPosition(rules, r);
    var out := InsertRule(rules, r);
    assert out[..k] == rules[..k];
    assert out[k + 1..] == rules[k..];
  }

  /** In a ranked list, every rule from the insertion point on is outranked by the new rule. */
  lemma InsertPositionSuffix(rules: seq<SymbolicRule>, r: SymbolicRule)
    requires Ranked(rules)
    ensures forall i :: InsertPosition(rules, r) <= i < |rules| ==> Precedes(r, rules[i])
  {
    var k := InsertPosition(rules, r);
    InsertPositionBoundary(rules, r);
    forall i | k <= i < |rules|
      ensures Precedes(r, rules[i])
    {
      assert !Precedes(rules[i], rules[k]);
    }
  }

  /** Inserting into a ranked list keeps it ranked. */
  lemma InsertRuleRanked(rules: seq<SymbolicRule>, r: SymbolicRule)
    requires Ranked(rules)
    ensures Ranked(InsertRule(rules, r))
  {
    var k := InsertPosition(rules, r);
    InsertPositionBoundary(rules, r);
    InsertPositionSuffix(rules, r);
    var out := InsertRule(rules, r);
    assert |out| == |rules| + 1;
    assert forall i :: 0 <= i < k ==> out[i] == rules[i];
    assert out[k] == r;
    assert forall i :: k < i < |out| ==> out[i] == rules[i - 1];
    forall i, j | 0 <= i < j < |out|
      ensures !Precedes(out[j], out[i])
    {
      if j < k {
        assert !Precedes(rules[j], rules[i]);
      } else if j == k {
        assert !Precedes(r, rules[i]);
      } else if i == k {
        assert Precedes(r, rules[j - 1]);
      } else if i < k {
        assert !Precedes(rules[j - 1], rules[i]);
      } else {
        assert !Precedes(rules[j - 1], rules[i - 1]);
      }
    }
  }

  // ---------------------------------------------------------------------------
  // The default rules
  // ---------------------------------------------------------------------------

  /** ASCII lower-casing (the letters A-Z become a-z; every other character is kept). */
  function Lower(s: string): (r: string)
    ensures |r| == |s|
    ensures forall i :: 0 <= i < |s| ==> r[i] == (if 'A' <= s[i] <= 'Z' then (s[i] as int + 32) as char else s[i])
  {
    if |s| == 0 then ""
    else [if 'A' <= s[0] <= 'Z' then (s[0] as int + 32) as char else s[0]] + Lower(s[1..])
  }

  /** Python's substring test `sub in s`. */
  predicate Contains(s: string, sub: string)
  {
    exists i :: 0 <= i <= |s| && sub <= s[i..]
  }

  /**
   * `any(w in t.get(key, "").lower() for w in words)`: the field is looked up and
   * lower-cased once per keyword, so it raises when there is a keyword and the field
   * holds a value other than a string (it has no `.lower()`); with no keywords the
   * generator is empty and `any` is false.
   */
  function MentionsAny(t: Transaction, key: string, words: seq<string>): (v: Verdict)
    ensures v == Raises <==> |words| > 0 && !Get(t, key, Str("")).Str?
    ensures v == Holds <==> Get(t, key, Str("")).Str? && exists w :: w in words && Contains(Lower(Get(t, key, Str("")).s), w)
  {
    if |words| == 0 then Fails
    else match Get(t, key, Str(""))
      case Str(s) => if exists w :: w in words && Contains(Lower(s), w) then Holds else Fails
      case _ => Raises
  }

  /**
   * `t.get("type") == "transfer" and t.get("amount", 0) > 0`: the comparison with 0
   * raises when the amount is not a number.
   */
  function TransferCondition(t: Transaction): (v: Verdict)
    ensures v == Holds <==> Get(t, "type", Null) == Str("transfer") && Get(t, "amount", Num(0.0)).Num? && Get(t, "amount", Num(0.0)).x > 0.0
    ensures v == Raises <==> Get(t, "type", Null) == Str("transfer") && !Get(t, "amount", Num(0.0)).Num?
  {
    if Get(t, "type", Null) != Str("transfer") then Fails
    else
      match Get(t, "amount", Num(0.0))
      case Num(x) => if x > 0.0 then Holds else Fails
      case _ => Raises
  }

  function SalaryRule(): SymbolicRule
  {
    SymbolicRule("salary_income", t => MentionsAny(t, "description", ["salary"]), Income, 0.95, 1)
  }

  function GroceryRule(): SymbolicRule
  {
    SymbolicRule("grocery_expense", t => MentionsAny(t, "merchant", ["grocery", "supermarket", "market"]), Expense, 0.9, 2)
  }

  function UtilityRule(): SymbolicRule
  {
    SymbolicRule("utility_expense", t => MentionsAny(t, "description", ["electric", "water", "gas", "internet"]), Utility, 0.92, 2)
  }

  function TransferRule(): SymbolicRule
  {
    SymbolicRule("internal_transfer", TransferCondition, Transfer, 0.98, 1)
  }

  function InvestmentRule(): SymbolicRule
  {
    SymbolicRule("investment_expense", t => MentionsAny(t, "merchant", ["broker", "exchange", "investment", "etf"]), Investment, 0.85, 3)
  }

  /** Inserting the five default rules in source order ranks them investment, utility, grocery, transfer, salary. */
  lemma DefaultRulesOrder()
    ensures InsertRule(InsertRule(InsertRule(InsertRule(InsertRule([], SalaryRule()), GroceryRule()), UtilityRule()), TransferRule()), InvestmentRule())
            == [InvestmentRule(), UtilityRule(), GroceryRule(), TransferRule(), SalaryRule()]
  {
    InsertionOrderOfFive(SalaryRule(), GroceryRule(), UtilityRule(), TransferRule(), InvestmentRule());
  }

  /** The ranking of five rules with the default rules' priorities and confidences, inserted in source order. */
  lemma InsertionOrderOfFive(s: SymbolicRule, g: SymbolicRule, u: SymbolicRule, t: SymbolicRule, i: SymbolicRule)
    requires s.priority == 1 && s.confidence == 0.95
    requires g.priority == 2 && g.confidence == 0.9
    requires u.priority == 2 && u.confidence == 0.92
    requires t.priority == 1 && t.confidence == 0.98
    requires i.priority == 3 && i.confidence == 0.85
    ensures InsertRule(InsertRule(InsertRule(InsertRule(InsertRule([], s), g), u), t), i) == [i, u, g, t, s]
  {
    assert InsertRule([], s) == [s];
    assert InsertRule([s], g) == [g, s] by { InsertAtFront([s], g); }
    assert InsertRule([g, s], u) == [u, g, s] by { InsertAtFront([g, s], u); }
    assert InsertRule([u, g, s], t) == [u, g, t, s] by { InsertAfterTwo(u, g, s, t); }
    assert InsertRule([u, g, t, s], i) == [i, u, g, t, s] by { InsertAtFront([u, g, t, s], i); }
  }

  lemma InsertAtFront(rules: seq<SymbolicRule>, r: SymbolicRule)
    requires |rules| > 0 && Precedes(r, rules[0])
    ensures InsertRule(rules, r) == [r] + rules
  {
    assert rules[..0] == [];
  }

  lemma InsertAfterTwo(a: SymbolicRule, b: SymbolicRule, c: SymbolicRule, r: SymbolicRule)
    requires !Precedes(r, a) && !Precedes(r, b) && Precedes(r, c)
    ensures InsertRule([a, b, c], r) == [a, b, r, c]
  {
    var rules := [a, b, c];
    assert rules[1..] == [b, c] && rules[1..][1..] == [c];
    assert InsertPosition([c], r) == 0;
    assert InsertPosition([b, c], r) == 1;
    assert InsertPosition(rules, r) == 2;
    assert rules[..2] == [a, b] && rules[2..] == [c];
  }

  // ---------------------------------------------------------------------------
  // Classification: the first rule that fires
  // ---------------------------------------------------------------------------

  /** The key under which a classification is remembered: `t.get("id", "unknown")`. */
  function IdOf(t: Transaction): Value
  {
    Get(t, "id", Str("unknown"))
  }

  /** Whether a value can be a dictionary key (a list cannot). */
  predicate Hashable(v: Value)
  {
    !v.Names?
  }

  /**
   * A rule fires on `t` when its condition is truthy and storing the match in the
   * memory succeeds; storing under an unhashable id raises inside the same `try`, so
   * such a rule is skipped like one whose condition raised.
   */
  predicate Fires(rule: SymbolicRule, t: Transaction)
  {
    rule.condition(t) == Holds && Hashable(IdOf(t))
  }

  /** Index of the first rule at or after `i` that fires on `t`. */
  function FirstMatchFrom(rules: seq<SymbolicRule>, t: Transaction, i: nat): (k: Option<nat>)
    requires i <= |rules|
    ensures k.Some? ==> i <= k.value < |rules| && Fires(rules[k.value], t)
    ensures k.Some? ==> forall j :: i <= j < k.value ==> !Fires(rules[j], t)
    ensures k.None? ==> forall j :: i <= j < |rules| ==> !Fires(rules[j], t)
    decreases |rules| - i
  {
    if i == |rules| then None
    else if Fires(rules[i], t) then Some(i)
    else FirstMatchFrom(rules, t, i + 1)
  }

  /** The symbolic classification of `t`: the first rule that fires, otherwise (EXPENSE, 0.5). */
  function Classify(rules: seq<SymbolicRule>, t: Transaction): (TransactionSymbol, real)
  {
    match FirstMatchFrom(rules, t, 0)
    case Some(k) => (rules[k].classification, rules[k].confidence)
    case None => (Expense, 0.5)
  }

  /** The classification is that of the first rule in list order that fires, or the default when none does. */
  lemma ClassifyIsFirstFiring(rules: seq<SymbolicRule>, t: Transaction)
    ensures var r := Classify(rules, t);
            (exists k :: 0 <= k < |rules| && Fires(rules[k], t) && (forall j :: 0 <= j < k ==> !Fires(rules[j], t))
                         && r == (rules[k].classification, rules[k].confidence))
            || ((forall j :: 0 <= j < |rules| ==> !Fires(rules[j], t)) && r == (Expense, 0.5))
  {
  }

  /** The symbol memory after classifying `t`: only the id's entry can change, and only on a match. */
  function Remember(memory: map<Value, TransactionSymbol>, rules: seq<SymbolicRule>, t: Transaction): map<Value, TransactionSymbol>
  {
    match FirstMatchFrom(rules, t, 0)
    case Some(k) => memory[IdOf(t) := rules[k].classification]
    case None => memory
  }

  /** Without a match the memory is unchanged; with one, the id maps to the classification and no other key changes. */
  lemma RememberOnlyTouchesId(memory: map<Value, TransactionSymbol>, rules: seq<SymbolicRule>, t: Transaction)
    ensures var m := Remember(memory, rules, t);
            ((forall j :: 0 <= j < |rules| ==> !Fires(rules[j], t)) ==> m == memory)
            && ((exists j :: 0 <= j < |rules| && Fires(rules[j], t)) ==> IdOf(t) in m && m[IdOf(t)] == Classify(rules, t).0)
            && (forall key :: key != IdOf(t) ==> (key in m <==> key in memory))
            && (forall key :: key != IdOf(t) && key in memory ==> m[key] == memory[key])
  {
  }

  // ---------------------------------------------------------------------------
  // Symbiotic fusion
  // ---------------------------------------------------------------------------

  /**
   * Fusion of a symbolic and a neural prediction: in the agreement zone (confidences
   * closer than 0.15) the symbolic label is kept with the boosted confidence
   * min(1, (s + n) / 1.5); otherwise the strictly more confident side wins (ties go to
   * the neural side) with its confidence scaled by 0.95.
   */
  function Fuse(symbolic: (TransactionSymbol, real), neural: (TransactionSymbol, real)): (r: (TransactionSymbol, real))
    ensures Abs(symbolic.1 - neural.1) < 0.15 ==>
              r.0 == symbolic.0 && r.1 == Min(1.0, (symbolic.1 + neural.1) / 1.5) && r.1 <= 1.0
    ensures Abs(symbolic.1 - neural.1) >= 0.15 && symbolic.1 > neural.1 ==> r == (symbolic.0, symbolic.1 * 0.95)
    ensures Abs(symbolic.1 - neural.1) >= 0.15 && symbolic.1 <= neural.1 ==> r == (neural.0, neural.1 * 0.95)
  {
    var (s, n) := (symbolic.1, neural.1);
    if Abs(s - n) < 0.15 then (symbolic.0, Min(1.0, (s + n) / 1.5))
    else if s > n then (symbolic.0, s * 0.95)
    else (neural.0, n * 0.95)
  }

  /** Fusing two confidences from [0, 1] yields a confidence in [0, 1]. */
  lemma FusedConfidenceInUnitRange(symbolic: (TransactionSymbol, real), neural: (TransactionSymbol, real))
    requires 0.0 <= symbolic.1 <= 1.0 && 0.0 <= neural.1 <= 1.0
    ensures 0.0 <= Fuse(symbolic, neural).1 <= 1.0
  {
  }

  /** In the agreement zone, two confidences of at least 0.3 are never lowered by fusion. */
  lemma AgreementDoesNotLowerConfidence(symbolic: (TransactionSymbol, real), neural: (TransactionSymbol, real))
    requires 0.3 <= symbolic.1 <= 1.0 && 0.3 <= neural.1 <= 1.0
    requires Abs(symbolic.1 - neural.1) < 0.15
    ensures Fuse(symbolic, neural).1 >= symbolic.1 && Fuse(symbolic, neural).1 >= neural.1
  {
  }

  /**
   * For confidences in [0, 1] that agree, fusion lowers neither exactly when the
   * smaller is at least half the larger (each at least half the other) or the
   * boosted value is capped at 1.
   */
  lemma AgreementKeepsConfidenceIff(symbolic: (TransactionSymbol, real), neural: (TransactionSymbol, real))
    requires 0.0 <= symbolic.1 <= 1.0 && 0.0 <= neural.1 <= 1.0
    requires Abs(symbolic.1 - neural.1) < 0.15
    ensures var (s, n) := (symbolic.1, neural.1);
            (Fuse(symbolic, neural).1 >= s && Fuse(symbolic, neural).1 >= n)
            <==> ((2.0 * s >= n && 2.0 * n >= s) || s + n >= 1.5)
  {
  }

  /** Outside the agreement zone, the fused label is the label of a side with the larger confidence. */
  lemma DisagreementFollowsMoreConfident(symbolic: (TransactionSymbol, real), neural: (TransactionSymbol, real))
    requires Abs(symbolic.1 - neural.1) >= 0.15
    ensures var r := Fuse(symbolic, neural);
            (r.0 == symbolic.0 && symbolic.1 > neural.1) || (r.0 == neural.0 && neural.1 > symbolic.1)
  {
  }

  // ---------------------------------------------------------------------------
  // Risk assessment
  // ---------------------------------------------------------------------------

  /** `abs(t.get("amount", 0))`; `None` when the amount is not a number, so `abs` raises. */
  function AbsAmount(t: Transaction): (a: Option<real>)
    ensures a.Some? ==> a.value >= 0.0
    ensures a.None? <==> !Get(t, "amount", Num(0.0)).Num?
  {
    match Get(t, "amount", Num(0.0))
    case Num(x) => Some(Abs(x))
    case _ => None
  }

  /** The risk table over an absolute amount. */
  function RiskFor(amount: real, c: TransactionSymbol): (r: RiskSymbol)
    ensures c == Investment ==> (r == High <==> amount > 10000.0) && (r == Medium <==> 5000.0 < amount <= 10000.0)
                                && (r == Low <==> amount <= 5000.0)
    ensures c == Transfer ==> (r == Critical <==> amount > 50000.0) && (r == High <==> 20000.0 < amount <= 50000.0)
                              && (r == Low <==> amount <= 20000.0)
    ensures c == Debt ==> r == High
    ensures c != Investment && c != Transfer && c != Debt ==> r == Low
    ensures r == Critical ==> c == Transfer
  {
    if c == Investment then
      if amount > 10000.0 then High
      else if amount > 5000.0 then Medium
      else Low
    else if c == Transfer then
      if amount > 50000.0 then Critical
      else if amount > 20000.0 then High
      else Low
    else if c == Debt then High
    else Low
  }

  /** For a fixed classification, a larger amount never lowers the risk level. */
  lemma RiskMonotoneInAmount(a1: real, a2: real, c: TransactionSymbol)
    requires a1 <= a2
    ensures RiskRank(RiskFor(a1, c)) <= RiskRank(RiskFor(a2, c))
  {
  }

  /** `_assess_risk_symbolic`: `None` when taking the absolute amount raises. */
  function AssessRisk(t: Transaction, c: TransactionSymbol): (r: Option<RiskSymbol>)
    ensures r.None? <==> AbsAmount(t).None?
    ensures r.Some? ==> r.value == RiskFor(AbsAmount(t).value, c)
  {
    match AbsAmount(t)
    case Some(a) => Some(RiskFor(a, c))
    case None => None
  }

  // ---------------------------------------------------------------------------
  // Symbolic features and batches
  // ---------------------------------------------------------------------------

  /** `[r.name for r in rules if r.condition(t)]`; `None` when some condition raises. */
  function MatchedRules(rules: seq<SymbolicRule>, t: Transaction): (names: Option<seq<string>>)
    ensures names.None? <==> exists i :: 0 <= i < |rules| && rules[i].condition(t) == Raises
    ensures names.Some? ==> |names.value| <= |rules|
    ensures names.Some? ==> forall i :: 0 <= i < |rules| && rules[i].condition(t) == Holds ==> rules[i].name in names.value
    ensures names.Some? ==> forall n :: n in names.value ==> exists i :: 0 <= i < |rules| && rules[i].condition(t) == Holds && rules[i].name == n
  {
    if |rules| == 0 then Some([])
    else
      var rest := MatchedRules(rules[1..], t);
      assert forall i :: 1 <= i < |rules| ==> rules[i] == rules[1..][i - 1];
      match rules[0].condition(t)
      case Raises => None
      case Fails => rest
      case Holds => if rest.None? then None else Some([rules[0].name] + rest.value)
  }

  /** The indices from `i` on of the rules whose condition holds on `t`, in increasing order. */
  function HoldingFrom(rules: seq<SymbolicRule>, t: Transaction, i: nat): (idx: seq<nat>)
    requires i <= |rules|
    ensures forall k :: 0 <= k < |idx| ==> i <= idx[k] < |rules| && rules[idx[k]].condition(t) == Holds
    ensures forall k, l :: 0 <= k < l < |idx| ==> idx[k] < idx[l]
    ensures forall j :: i <= j < |rules| && rules[j].condition(t) == Holds ==> j in idx
    decreases |rules| - i
  {
    if i == |rules| then []
    else if rules[i].condition(t) == Holds then [i] + HoldingFrom(rules, t, i + 1)
    else HoldingFrom(rules, t, i + 1)
  }

  /**
   * The comprehension yields one name per rule whose condition holds, in rule order:
   * name `k` is the name of the `k`-th such rule.
   */
  lemma MatchedRulesInOrder(rules: seq<SymbolicRule>, t: Transaction)
    requires MatchedRules(rules, t).Some?
    ensures var names := MatchedRules(rules, t).value;
            var idx := HoldingFrom(rules, t, 0);
            |names| == |idx| && forall k :: 0 <= k < |idx| ==> names[k] == rules[idx[k]].name
  {
    assert rules[0..] == rules;
    MatchedRulesFollowHolding(rules, t, 0);
  }

  lemma {:induction false} MatchedRulesFollowHolding(rules: seq<SymbolicRule>, t: Transaction, i: nat)
    requires i <= |rules|
    requires MatchedRules(rules[i..], t).Some?
    ensures var names := MatchedRules(rules[i..], t).value;
            var idx := HoldingFrom(rules, t, i);
            |names| == |idx| && forall k :: 0 <= k < |idx| ==> names[k] == rules[idx[k]].name
    decreases |rules| - i
  {
    if i < |rules| {
      var here := rules[i..];
      assert here[0] == rules[i] && here[1..] == rules[i + 1..];
      var rest := MatchedRules(rules[i + 1..], t);
      var later := HoldingFrom(rules, t, i + 1);
      assert rest.Some?;
      MatchedRulesFollowHolding(rules, t, i + 1);
      if rules[i].condition(t) == Holds {
        MatchedRulesHoldingStep(rules, t, i);
      } else {
        assert MatchedRules(here, t) == rest;
        assert HoldingFrom(rules, t, i) == later;
      }
    }
  }

  /** The step of `MatchedRulesFollowHolding` at a rule whose condition holds. */
  lemma MatchedRulesHoldingStep(rules: seq<SymbolicRule>, t: Transaction, i: nat)
    requires i < |rules| && rules[i].condition(t) == Holds
    requires MatchedRules(rules[i..], t).Some? && MatchedRules(rules[i + 1..], t).Some?
    requires var names := MatchedRules(rules[i + 1..], t).value;
             var idx := HoldingFrom(rules, t, i + 1);
             |names| == |idx| && forall k :: 0 <= k < |idx| ==> names[k] == rules[idx[k]].name
    ensures var names := MatchedRules(rules[i..], t).value;
            var idx := HoldingFrom(rules, t, i);
            |names| == |idx| && forall k :: 0 <= k < |idx| ==> names[k] == rules[idx[k]].name
  {
    MatchedRulesHoldingCons(rules, t, i);
    NamesCons(rules, i, MatchedRules(rules[i + 1..], t).value, HoldingFrom(rules, t, i + 1));
  }

  /** At a rule whose condition holds, the comprehension yields its name before the rest. */
  lemma MatchedRulesHoldingCons(rules: seq<SymbolicRule>, t: Transaction, i: nat)
    requires i < |rules| && rules[i].condition(t) == Holds
    requires MatchedRules(rules[i..], t).Some? && MatchedRules(rules[i + 1..], t).Some?
    ensures MatchedRules(rules[i..], t).value == [rules[i].name] + MatchedRules(rules[i + 1..], t).value
    ensures HoldingFrom(rules, t, i) == [i] + HoldingFrom(rules, t, i + 1)
  {
    var here := rules[i..];
    assert here[0] == rules[i] && here[1..] == rules[i + 1..];
  }

  /** Prefixing a rule's name and its index keeps names and indices in step. */
  lemma NamesCons(rules: seq<SymbolicRule>, i: nat, rest: seq<string>, later: seq<nat>)
    requires i < |rules|
    requires |rest| == |later| && forall k :: 0 <= k < |later| ==> later[k] < |rules| && rest[k] == rules[later[k]].name
    ensures var names, idx := [rules[i].name] + rest, [i] + later;
            |names| == |idx| && forall k :: 0 <= k < |idx| ==> names[k] == rules[idx[k]].name
  {
  }

  /** The keys that a feature record contributes. */
  const FeatureKeys: set<string> := {"symbol", "symbol_confidence", "matched_rules", "risk_level"}

  /** `extract_symbolic_features`: `None` when listing the matched rules or assessing risk raises. */
  function Features(rules: seq<SymbolicRule>, t: Transaction): (f: Option<Transaction>)
    ensures f.None? <==> MatchedRules(rules, t).None? || AbsAmount(t).None?
    ensures f.Some? ==> f.value.Keys == FeatureKeys
  {
    var (c, conf) := Classify(rules, t);
    match MatchedRules(rules, t)
    case None => None
    case Some(names) =>
      match AssessRisk(t, c)
      case None => None
      case Some(risk) =>
        Some(map["symbol" := Str(SymbolValue(c)), "symbol_confidence" := Num(conf),
                 "matched_rules" := Names(names), "risk_level" := Risk(risk)])
  }

  /** The feature values: the classification's symbol string and confidence, the matched rule names, the risk level. */
  lemma FeatureValues(rules: seq<SymbolicRule>, t: Transaction)
    requires Features(rules, t).Some?
    ensures var f := Features(rules, t).value;
            var (c, conf) := Classify(rules, t);
            f["symbol"] == Str(SymbolValue(c)) && f["symbol_confidence"] == Num(conf)
            && f["matched_rules"] == Names(MatchedRules(rules, t).value)
            && f["risk_level"] == Risk(RiskFor(AbsAmount(t).value, c))
  {
  }

  /** `{**t, **f}`: the keys of both records, the feature record winning on shared keys. */
  function Enrich(t: Transaction, f: Transaction): Transaction
  {
    t + f
  }

  /** Prefixes `done` to a batch result, keeping a failure a failure. */
  function Prepend(done: seq<Transaction>, rest: Option<seq<Transaction>>): Option<seq<Transaction>>
  {
    match rest
    case None => None
    case Some(v) => Some(done + v)
  }

  /** `batch_classify`: one enriched record per input, in input order; `None` when some extraction raises. */
  function Batch(rules: seq<SymbolicRule>, ts: seq<Transaction>): Option<seq<Transaction>>
  {
    if |ts| == 0 then Some([])
    else
      match Features(rules, ts[0])
      case None => None
      case Some(f) => Prepend([Enrich(ts[0], f)], Batch(rules, ts[1..]))
  }

  /** A batch fails exactly when some extraction raises. */
  lemma {:induction false} BatchFailsIffSomeFails(rules: seq<SymbolicRule>, ts: seq<Transaction>)
    ensures Batch(rules, ts).None? <==> exists i :: 0 <= i < |ts| && Features(rules, ts[i]).None?
    decreases |ts|
  {
    if |ts| != 0 && Features(rules, ts[0]).Some? {
      var tail := ts[1..];
      BatchFailsIffSomeFails(rules, tail);
      assert Batch(rules, ts).None? <==> Batch(rules, tail).None?;
      assert forall i :: 1 <= i < |ts| ==> ts[i] == tail[i - 1];
      assert (exists i :: 0 <= i < |ts| && Features(rules, ts[i]).None?)
         <==> (exists i :: 0 <= i < |tail| && Features(rules, tail[i]).None?)
      by {
        if exists i :: 0 <= i < |ts| && Features(rules, ts[i]).None? {
          var i :| 0 <= i < |ts| && Features(rules, ts[i]).None?;
          assert Features(rules, tail[i - 1]).None?;
        }
      }
    }
  }

  /** A successful batch has one enriched record per input, in input order. */
  lemma {:induction false} BatchShape(rules: seq<SymbolicRule>, ts: seq<Transaction>)
    requires Batch(rules, ts).Some?
    ensures forall i :: 0 <= i < |ts| ==> Features(rules, ts[i]).Some?
    ensures |Batch(rules, ts).value| == |ts|
    ensures forall i :: 0 <= i < |ts| ==> Batch(rules, ts).value[i] == Enrich(ts[i], Features(rules, ts[i]).value)
    decreases |ts|
  {
    BatchFailsIffSomeFails(rules, ts);
    if |ts| != 0 {
      var f := Features(rules, ts[0]).value;
      BatchShape(rules, ts[1..]);
      var rest := Batch(rules, ts[1..]).value;
      assert Batch(rules, ts).value == [Enrich(ts[0], f)] + rest;
      forall i | 1 <= i < |ts|
        ensures Batch(rules, ts).value[i] == Enrich(ts[i], Features(rules, ts[i]).value)
      {
        assert ts[1..][i - 1] == ts[i];
      }
    }
  }

  /** The symbol memory after a batch: every transaction up to and including the first failing one is classified. */
  function RememberBatch(memory: map<Value, TransactionSymbol>, rules: seq<SymbolicRule>, ts: seq<Transaction>): map<Value, TransactionSymbol>
    decreases |ts|
  {
    if |ts| == 0 then memory
    else
      var m := Remember(memory, rules, ts[0]);
      if Features(rules, ts[0]).None? then m else RememberBatch(m, rules, ts[1..])
  }

  /** Every enriched record has the input's keys plus the feature keys, and keeps the input's values on the other keys. */
  lemma BatchKeepsInputFields(rules: seq<SymbolicRule>, ts: seq<Transaction>)
    requires Batch(rules, ts).Some?
    ensures |Batch(rules, ts).value| == |ts|
    ensures forall i :: 0 <= i < |ts| ==> Batch(rules, ts).value[i].Keys == ts[i].Keys + FeatureKeys
    ensures forall i, key :: 0 <= i < |ts| && key in ts[i] && key !in FeatureKeys ==> Batch(rules, ts).value[i][key] == ts[i][key]
  {
    BatchShape(rules, ts);
  }

  lemma PrependTwice(a: seq<Transaction>, b: seq<Transaction>, rest: Option<seq<Transaction>>)
    ensures Prepend(a, Prepend(b, rest)) == Prepend(a + b, rest)
  {
    if rest.Some? {
      assert a + (b + rest.value) == (a + b) + rest.value;
    }
  }

  // ---------------------------------------------------------------------------
  // The classifier
  // ---------------------------------------------------------------------------

  class SymbolicClassifier {
    var rules: seq<SymbolicRule>
    var symbolMemory: map<Value, TransactionSymbol>
    const confidenceThreshold: real

    /** The rules are ranked by priority and then confidence, both descending. */
    ghost predicate Valid()
      reads this
    {
      Ranked(rules)
    }

    /** An empty memory and the five default rules, inserted in source order. */
    constructor ()
      ensures Valid()
      ensures rules == [InvestmentRule(), UtilityRule(), GroceryRule(), TransferRule(), SalaryRule()]
      ensures symbolMemory == map[] && confidenceThreshold == 0.7
    {
      rules := [];
      symbolMemory := map[];
      confidenceThreshold := 0.7;
      new;
      AddRule(SalaryRule());
      AddRule(GroceryRule());
      AddRule(UtilityRule());
      AddRule(TransferRule());
      AddRule(InvestmentRule());
      DefaultRulesOrder();
    }

    /** Appends `rule` and re-sorts stably by (-priority, -confidence). */
    method AddRule(rule: SymbolicRule)
      requires Valid()
      modifies this`rules
      ensures Valid()
      ensures rules == InsertRule(old(rules), rule)
    {
      InsertRuleRanked(rules, rule);
      rules := InsertRule(rules, rule);
    }

    /** `classify_symbolic`: scans the rules in order, skipping those that raise. */
    method ClassifySymbolic(t: Transaction) returns (symbol: TransactionSymbol, confidence: real)
      modifies this`symbolMemory
      ensures (symbol, confidence) == Classify(rules, t)
      ensures symbolMemory == Remember(old(symbolMemory), rules, t)
    {
      for i := 0 to |rules|
        invariant FirstMatchFrom(rules, t, 0) == FirstMatchFrom(rules, t, i)
        invariant symbolMemory == old(symbolMemory)
      {
        var rule := rules[i];
        if rule.condition(t) == Holds {
          var key := IdOf(t);
          if Hashable(key) {
            symbolMemory := symbolMemory[key := rule.classification];
            return rule.classification, rule.confidence;
          }
        }
      }
      return Expense, 0.5;
    }

    /** `apply_symbiotic_learning`: classifies symbolically and fuses with the neural prediction. */
    method ApplySymbioticLearning(t: Transaction, neural: (TransactionSymbol, real)) returns (prediction: TransactionSymbol, confidence: real)
      modifies this`symbolMemory
      ensures (prediction, confidence) == Fuse(Classify(rules, t), neural)
      ensures symbolMemory == Remember(old(symbolMemory), rules, t)
    {
      var s, c := ClassifySymbolic(t);
      var fused := Fuse((s, c), neural);
      prediction, confidence := fused.0, fused.1;
    }

    /** `extract_symbolic_features`: the classification is remembered before any later step raises. */
    method ExtractSymbolicFeatures(t: Transaction) returns (features: Option<Transaction>)
      modifies this`symbolMemory
      ensures features == Features(rules, t)
      ensures symbolMemory == Remember(old(symbolMemory), rules, t)
    {
      var c, conf := ClassifySymbolic(t);
      var names := MatchedRules(rules, t);
      if names.None? {
        return None;
      }
      var risk := AssessRisk(t, c);
      if risk.None? {
        return None;
      }
      features := Some(map["symbol" := Str(SymbolValue(c)), "symbol_confidence" := Num(conf),
                           "matched_rules" := Names(names.value), "risk_level" := Risk(risk.value)]);
    }

    /** `batch_classify`: enriches each transaction in turn; the first extraction that raises aborts the batch. */
    method BatchClassify(ts: seq<Transaction>) returns (results: Option<seq<Transaction>>)
      modifies this`symbolMemory
      ensures results == Batch(rules, ts)
      ensures symbolMemory == RememberBatch(old(symbolMemory), rules, ts)
    {
      var done: seq<Transaction> := [];
      assert ts[0..] == ts;
      assert Batch(rules, ts).Some? ==> [] + Batch(rules, ts).value == Batch(rules, ts).value;
      for i := 0 to |ts|
        invariant Batch(rules, ts) == Prepend(done, Batch(rules, ts[i..]))
        invariant RememberBatch(old(symbolMemory), rules, ts) == RememberBatch(symbolMemory, rules, ts[i..])
      {
        assert ts[i..][0] == ts[i] && ts[i..][1..] == ts[i + 1..];
        var features := ExtractSymbolicFeatures(ts[i]);
        if features.None? {
          assert Batch(rules, ts[i..]) == None;
          return None;
        }
        PrependTwice(done, [Enrich(ts[i], features.value)], Batch(rules, ts[i + 1..]));
        done := done + [Enrich(ts[i], features.value)];
      }
      assert ts[|ts|..] == [] && done + [] == done;
      results := Some(done);
    }
  }
}
