/**
 * The scoring side of the prompt evaluator (class PromptEvaluator in
 * prompt_evaluator.py): heuristic quality scores computed from the text a
 * model produced, the recommendation read out of that text, the dispatch of
 * the model's tool calls, the token estimates and the A/B summary.
 *
 * Scores are exact `real`s; Python's float rounding is not modelled.
 */
module PromptEvaluator {
  import opened Wrappers
  import opened Strings
  import opened Messages

  function Min(a: real, b: real): (r: real)
    ensures r <= a && r <= b && (r == a || r == b)
  {
    if a <= b then a else b
  }

  // ---------------------------------------------------------------------------
  // Completeness: the share of required section keywords present in the output
  // ---------------------------------------------------------------------------

  const QuickSections: seq<string> := ["投资评级", "核心逻辑", "关键数据", "风险"]
  const DeepSections: seq<string> := ["市场环境", "基本面", "技术面", "资金面", "投资建议"]

  /** The keyword list for a mode; a mode other than "quick" and "deep" gets the quick list. */
  function RequiredSections(mode: string): (r: seq<string>)
    ensures |r| > 0
  {
    if mode == "deep" then DeepSections else QuickSections
  }

  /** How many of `keys` occur in `output`. */
  function CountPresent(keys: seq<string>, output: string): (n: nat)
    ensures n <= |keys|
  {
    if |keys| == 0 then 0
    else (if Contains(output, keys[0]) then 1 else 0) + CountPresent(keys[1..], output)
  }

  lemma {:induction false} CountPresentAll(keys: seq<string>, output: string)
    ensures CountPresent(keys, output) == |keys|
        <==> forall k :: 0 <= k < |keys| ==> Contains(output, keys[k])
  {
    if |keys| > 0 {
      CountPresentAll(keys[1..], output);
      assert forall k :: 1 <= k < |keys| ==> keys[k] == keys[1..][k - 1];
    }
  }

  lemma {:induction false} CountPresentNone(keys: seq<string>, output: string)
    ensures CountPresent(keys, output) == 0
        <==> forall k :: 0 <= k < |keys| ==> !Contains(output, keys[k])
  {
    if |keys| > 0 {
      CountPresentNone(keys[1..], output);
      assert forall k :: 1 <= k < |keys| ==> keys[k] == keys[1..][k - 1];
    }
  }

  /** Text appended to an output never hides a keyword the output already had. */
  lemma {:induction false} CountPresentGrows(keys: seq<string>, output: string, more: string)
    ensures CountPresent(keys, output) <= CountPresent(keys, output + more)
  {
    if |keys| > 0 {
      CountPresentGrows(keys[1..], output, more);
      if Contains(output, keys[0]) {
        ContainsConcat(output, more, keys[0]);
      }
    }
  }

  /**
   * check_completeness: the number of the mode's keywords that are substrings
   * of the output, divided by the number of keywords.
   */
  function Completeness(output: string, mode: string): (r: real)
    ensures 0.0 <= r <= 1.0
    ensures r == 1.0 <==> forall k :: 0 <= k < |RequiredSections(mode)| ==> Contains(output, RequiredSections(mode)[k])
    ensures r == 0.0 <==> forall k :: 0 <= k < |RequiredSections(mode)| ==> !Contains(output, RequiredSections(mode)[k])
    ensures r * |RequiredSections(mode)| as real == CountPresent(RequiredSections(mode), output) as real
  {
    KeywordShare(RequiredSections(mode), output)
  }

  /** The share of a non-empty keyword list that occurs in an output. */
  function KeywordShare(required: seq<string>, output: string): (r: real)
    requires |required| > 0
    ensures 0.0 <= r <= 1.0
    ensures r == 1.0 <==> forall k :: 0 <= k < |required| ==> Contains(output, required[k])
    ensures r == 0.0 <==> forall k :: 0 <= k < |required| ==> !Contains(output, required[k])
    ensures r * |required| as real == CountPresent(required, output) as real
  {
    var r := CountPresent(required, output) as real / |required| as real;
    KeywordShareFacts(required, output, r);
    r
  }

  /**
   * The share r of a keyword list found in an output: in [0, 1], 1 exactly
   * when every keyword occurs, 0 exactly when none does, and r times the
   * number of keywords is the number found.
   */
  lemma KeywordShareFacts(required: seq<string>, output: string, r: real)
    requires |required| > 0 && r == CountPresent(required, output) as real / |required| as real
    ensures 0.0 <= r <= 1.0
    ensures r == 1.0 <==> forall k :: 0 <= k < |required| ==> Contains(output, required[k])
    ensures r == 0.0 <==> forall k :: 0 <= k < |required| ==> !Contains(output, required[k])
    ensures r * |required| as real == CountPresent(required, output) as real
  {
    CountPresentAll(required, output);
    CountPresentNone(required, output);
    Ratio(CountPresent(required, output) as real, |required| as real, r);
  }

  /** A count out of a positive total, as a fraction. */
  lemma Ratio(c: real, n: real, r: real)
    requires 0.0 <= c <= n && n > 0.0 && r == c / n
    ensures 0.0 <= r <= 1.0 && r * n == c
    ensures r == 1.0 <==> c == n
    ensures r == 0.0 <==> c == 0.0
  {
    assert r * n == c;
  }

  /** Appending text to an output never lowers its completeness. */
  lemma CompletenessGrows(output: string, more: string, mode: string)
    ensures Completeness(output, mode) <= Completeness(output + more, mode)
  {
    CountShareGrows(RequiredSections(mode), output, more);
  }

  /** The share of a keyword list found in an output never drops when text is appended. */
  lemma CountShareGrows(required: seq<string>, output: string, more: string)
    requires |required| > 0
    ensures KeywordShare(required, output) <= KeywordShare(required, output + more)
  {
    CountPresentGrows(required, output, more);
    var d := |required| as real;
    DivideMonotone(CountPresent(required, output) as real, CountPresent(required, output + more) as real, d);
  }

  /** Dividing by the same positive number keeps the order. */
  lemma DivideMonotone(x: real, y: real, d: real)
    requires d > 0.0 && x <= y
    ensures x / d <= y / d
  {
    assert y / d - x / d == (y - x) / d;
  }

  // ---------------------------------------------------------------------------
  // Format compliance: a capped sum of the weights of the checks that hold
  // ---------------------------------------------------------------------------

  /** One literal check of the output and the weight it contributes when it holds. */
  datatype Check = Check(holds: bool, weight: real)

  /** The checks of check_format_compliance: four for "quick", five for every other mode. */
  function FormatChecks(output: string, mode: string): (checks: seq<Check>)
    ensures |checks| == if mode == "quick" then 4 else 5
  {
    if mode == "quick" then
      [ Check(Contains(output, "##"), 0.2),
        Check(Contains(output, "⭐") || Contains(output, "星"), 0.2),
        Check(Contains(output, "|") && Contains(output, "---"), 0.3),
        Check(|output| < 1500, 0.3) ]
    else
      [ Check(Contains(output, "##"), 0.15),
        Check(Contains(output, "评分") || Contains(output, "分"), 0.2),
        Check(Contains(output, "|"), 0.15),
        Check(Contains(output, "止盈") || Contains(output, "止损"), 0.2),
        Check(|output| > 800, 0.3) ]
  }

  /** What one check adds to the score. */
  function Credit(check: Check): real {
    if check.holds then check.weight else 0.0
  }

  /** The weights of the checks that hold, added up in order. */
  function SatisfiedWeight(checks: seq<Check>): real
  {
    if |checks| == 0 then 0.0 else SatisfiedWeight(checks[..|checks| - 1]) + Credit(checks[|checks| - 1])
  }

  /** The weights of all checks, added up in order. */
  function TotalWeight(checks: seq<Check>): real
  {
    if |checks| == 0 then 0.0 else TotalWeight(checks[..|checks| - 1]) + checks[|checks| - 1].weight
  }

  /** Both sums over the first `i` checks, one step at a time. */
  lemma WeightsStep(checks: seq<Check>, i: nat)
    requires 0 < i <= |checks|
    ensures SatisfiedWeight(checks[..i]) == SatisfiedWeight(checks[..i - 1]) + Credit(checks[i - 1])
    ensures TotalWeight(checks[..i]) == TotalWeight(checks[..i - 1]) + checks[i - 1].weight
  {
    assert checks[..i][..i - 1] == checks[..i - 1];
  }

  /** Both sums written out for a list of at most five checks. */
  lemma WeightsOfFew(c: seq<Check>)
    requires 4 <= |c| <= 5
    ensures |c| == 4 ==> SatisfiedWeight(c) == Credit(c[0]) + Credit(c[1]) + Credit(c[2]) + Credit(c[3])
    ensures |c| == 4 ==> TotalWeight(c) == c[0].weight + c[1].weight + c[2].weight + c[3].weight
    ensures |c| == 5 ==> SatisfiedWeight(c) == Credit(c[0]) + Credit(c[1]) + Credit(c[2]) + Credit(c[3]) + Credit(c[4])
    ensures |c| == 5 ==> TotalWeight(c) == c[0].weight + c[1].weight + c[2].weight + c[3].weight + c[4].weight
  {
    assert c[..0] == [];
    WeightsStep(c, 1);
    WeightsStep(c, 2);
    WeightsStep(c, 3);
    WeightsStep(c, 4);
    if |c| == 5 {
      WeightsStep(c, 5);
    }
    assert c[..|c|] == c;
  }

  predicate NonNegativeWeights(checks: seq<Check>) {
    forall i :: 0 <= i < |checks| ==> checks[i].weight >= 0.0
  }

  lemma {:induction false} SatisfiedWeightBounds(checks: seq<Check>)
    requires NonNegativeWeights(checks)
    ensures 0.0 <= SatisfiedWeight(checks) <= TotalWeight(checks)
  {
    if |checks| > 0 {
      SatisfiedWeightBounds(checks[..|checks| - 1]);
    }
  }

  /**
   * The checks are independent: making one failing check hold adds exactly
   * its weight, whatever the other checks do.
   */
  lemma {:induction false} SatisfyingOneCheckAddsItsWeight(checks: seq<Check>, k: nat)
    requires k < |checks| && !checks[k].holds
    ensures SatisfiedWeight(checks[k := Check(true, checks[k].weight)])
         == SatisfiedWeight(checks) + checks[k].weight
  {
    var n := |checks|;
    var flipped := checks[k := Check(true, checks[k].weight)];
    if k == n - 1 {
      assert flipped[..n - 1] == checks[..n - 1];
    } else {
      assert flipped[..n - 1] == checks[..n - 1][k := Check(true, checks[k].weight)];
      SatisfyingOneCheckAddsItsWeight(checks[..n - 1], k);
    }
  }

  /** check_format_compliance as a value: the satisfied weight, capped at 1.0. */
  function FormatScore(output: string, mode: string): (score: real)
    ensures 0.0 <= score <= 1.0
  {
    SatisfiedWeightBounds(FormatChecks(output, mode));
    Min(SatisfiedWeight(FormatChecks(output, mode)), 1.0)
  }

  /** check_format_compliance: adds the weight of every check that holds, then caps at 1.0. */
  method CheckFormatCompliance(output: string, mode: string) returns (score: real)
    ensures score == FormatScore(output, mode)
    ensures 0.0 <= score <= 1.0
  {
    var checks := FormatChecks(output, mode);
    score := 0.0;
    for i := 0 to |checks|
      invariant score == SatisfiedWeight(checks[..i])
    {
      assert checks[..i + 1][..i] == checks[..i];
      if checks[i].holds {
        score := score + checks[i].weight;
      }
    }
    assert checks[..|checks|] == checks;
    SatisfiedWeightBounds(checks);
    score := Min(score, 1.0);
  }

  /**
   * The weights of each mode add up to exactly 1.0, so the cap never changes
   * the score: it is the plain sum of the weights of the checks that hold.
   */
  lemma FormatCapIsInert(output: string, mode: string)
    ensures TotalWeight(FormatChecks(output, mode)) == 1.0
    ensures FormatScore(output, mode) == SatisfiedWeight(FormatChecks(output, mode))
  {
    var c := FormatChecks(output, mode);
    WeightsOfFew(c);
    SatisfiedWeightBounds(c);
  }

  /** An empty quick-mode output scores 0.3: only the "shorter than 1500" check holds. */
  lemma EmptyQuickOutputScore()
    ensures FormatScore("", "quick") == 0.3
  {
    WeightsOfFew(FormatChecks("", "quick"));
  }

  /** A mode other than "quick" is scored by the five deep checks. */
  lemma NonQuickModeUsesDeepChecks(output: string, mode: string)
    requires mode != "quick"
    ensures FormatChecks(output, mode) == FormatChecks(output, "deep")
    ensures FormatScore(output, mode) == FormatScore(output, "deep")
  {
  }

  /**
   * The two scores disagree on unknown modes: completeness falls back to the
   * quick keywords while format compliance falls back to the deep checks.
   */
  lemma UnknownModeFallbacksDiffer(output: string, mode: string)
    requires mode != "quick" && mode != "deep"
    ensures RequiredSections(mode) == RequiredSections("quick")
    ensures FormatChecks(output, mode) == FormatChecks(output, "deep")
    ensures FormatChecks(output, mode) != FormatChecks(output, "quick")
  {
  }

  // ---------------------------------------------------------------------------
  // Data accuracy: half credit per ground-truth metric mentioned in the output
  // ---------------------------------------------------------------------------

  /**
   * A ground-truth metric is credited when its value (as `str` prints it) or
   * its name occurs in the output.
   */
  predicate Mentioned(output: string, groundTruth: map<string, string>, key: string)
    requires key in groundTruth
  {
    Contains(output, groundTruth[key]) || Contains(output, key)
  }

  function MentionedKeys(output: string, groundTruth: map<string, string>, keys: set<string>): (m: set<string>)
    ensures m <= keys
  {
    set k | k in keys && k in groundTruth && Mentioned(output, groundTruth, k)
  }

  /** check_data_accuracy as a value. */
  function Accuracy(output: string, groundTruth: map<string, string>): (a: real)
    ensures |groundTruth| == 0 ==> a == 0.5
    ensures |groundTruth| > 0 ==>
      a * |groundTruth| as real == 0.5 * |MentionedKeys(output, groundTruth, groundTruth.Keys)| as real
  {

    if |groundTruth| == 0 then 0.5
    else 0.5 * |MentionedKeys(output, groundTruth, groundTruth.Keys)| as real / |groundTruth| as real
  }

  lemma SubsetCardinality(a: set<string>, b: set<string>)
    requires a <= b
    ensures |a| <= |b|
    ensures |a| == |b| ==> a == b
  {
    assert b == a + (b - a);
  }

  /**
   * The accuracy never exceeds 0.5; with ground truth it is 0.5 exactly when
   * every metric is mentioned and 0 exactly when none is.
   */
  lemma AccuracyBounds(output: string, groundTruth: map<string, string>)
    ensures 0.0 <= Accuracy(output, groundTruth) <= 0.5
    ensures |groundTruth| > 0 ==>
      (Accuracy(output, groundTruth) == 0.5 <==> forall k :: k in groundTruth ==> Mentioned(output, groundTruth, k))
    ensures |groundTruth| > 0 ==>
      (Accuracy(output, groundTruth) == 0.0 <==> forall k :: k in groundTruth ==> !Mentioned(output, groundTruth, k))
  {
    if |groundTruth| > 0 {
      var m := MentionedKeys(output, groundTruth, groundTruth.Keys);
      var n := |groundTruth| as real;
      SubsetCardinality(m, groundTruth.Keys);
      var a := Accuracy(output, groundTruth);
      assert a * n == 0.5 * |m| as real;
      if a == 0.5 {
        assert |m| == |groundTruth.Keys|;
        assert m == groundTruth.Keys;
      }
      if forall k :: k in groundTruth ==> Mentioned(output, groundTruth, k) {
        assert m == groundTruth.Keys;
      }
      if a == 0.0 {
        assert |m| == 0;
        forall k | k in groundTruth ensures !Mentioned(output, groundTruth, k) {
          assert k !in m;
        }
      }
      if forall k :: k in groundTruth ==> !Mentioned(output, groundTruth, k) {
        assert m == {};
      }
    }
  }

  /** Visiting one more key adds one to the mentioned count exactly when that key is mentioned. */
  lemma MentionedKeysStep(output: string, groundTruth: map<string, string>, visited: set<string>, key: string)
    requires key in groundTruth && key !in visited
    ensures |MentionedKeys(output, groundTruth, visited + {key})|
      == |MentionedKeys(output, groundTruth, visited)| + (if Mentioned(output, groundTruth, key) then 1 else 0)
  {
    var before := MentionedKeys(output, groundTruth, visited);
    if Mentioned(output, groundTruth, key) {
      assert MentionedKeys(output, groundTruth, visited + {key}) == before + {key};
    } else {
      assert MentionedKeys(output, groundTruth, visited + {key}) == before;
    }
  }

  /** check_data_accuracy: adds 0.5 for every mentioned metric, then divides by the number of metrics. */
  method CheckDataAccuracy(output: string, groundTruth: map<string, string>) returns (score: real)
    ensures score == Accuracy(output, groundTruth)
  {
    if |groundTruth| == 0 {
      return 0.5;
    }
    var correct := 0.0;
    var total := |groundTruth|;
    var remaining := groundTruth.Keys;
    ghost var visited: set<string> := {};
    while remaining != {}
      invariant remaining !! visited && remaining + visited == groundTruth.Keys
      invariant correct == 0.5 * |MentionedKeys(output, groundTruth, visited)| as real
      decreases |remaining|
    {
      var key :| key in remaining;
      MentionedKeysStep(output, groundTruth, visited, key);
      if Mentioned(output, groundTruth, key) {
        correct := correct + 0.5;
      }
      remaining := remaining - {key};
      visited := visited + {key};
    }
    assert visited == groundTruth.Keys;
    score := correct / total as real;
  }

  // ---------------------------------------------------------------------------
  // Recommendation: the first keyword rule that matches, else hold at 0.5
  // ---------------------------------------------------------------------------

  const Buy: string := "买入"
  const Hold: string := "持有"
  const Sell: string := "卖出"

  /** extract_recommendation: an if/elif chain over keyword tests, defaulting to (持有, 0.5). */
  function ExtractRecommendation(output: string): (r: (string, real))
    ensures r.0 == Buy || r.0 == Hold || r.0 == Sell
    ensures r.1 == 0.5 || r.1 == 0.6 || r.1 == 0.7 || r.1 == 0.8
  {
    if Contains(output, "强烈推荐") || Contains(output, "买入") || Contains(output, "⭐⭐⭐⭐⭐") then (Buy, 0.8)
    else if Contains(output, "推荐") || Contains(output, "⭐⭐⭐⭐") then (Buy, 0.6)
    else if Contains(output, "回避") || Contains(output, "卖出") || Contains(output, "⭐") then (Sell, 0.7)
    else if Contains(output, "中性") || Contains(output, "观望") then (Hold, 0.5)
    else (Hold, 0.5)
  }

  /** One row of a priority table: if any keyword occurs, the answer is (verdict, confidence). */
  datatype Rule = Rule(keywords: seq<string>, verdict: string, confidence: real)

  /** The same decision written as a table, highest priority first. */
  const RecommendationRules: seq<Rule> := [
    Rule(["强烈推荐", "买入", "⭐⭐⭐⭐⭐"], Buy, 0.8),
    Rule(["推荐", "⭐⭐⭐⭐"], Buy, 0.6),
    Rule(["回避", "卖出", "⭐"], Sell, 0.7),
    Rule(["中性", "观望"], Hold, 0.5)
  ]

  predicate AnyPresent(output: string, keywords: seq<string>) {
    exists k :: 0 <= k < |keywords| && Contains(output, keywords[k])
  }

  /** Index of the first rule with a keyword in the output, or |rules| when none has. */
  function FirstMatchingRule(rules: seq<Rule>, output: string): (i: nat)
    ensures i <= |rules|
    ensures i < |rules| ==> AnyPresent(output, rules[i].keywords)
    ensures forall j :: 0 <= j < i ==> !AnyPresent(output, rules[j].keywords)
  {
    if |rules| == 0 then 0
    else if AnyPresent(output, rules[0].keywords) then 0
    else 1 + FirstMatchingRule(rules[1..], output)
  }

  lemma AnyPresentOfTwo(output: string, a: string, b: string)
    ensures AnyPresent(output, [a, b]) <==> Contains(output, a) || Contains(output, b)
  {
    var kw := [a, b];
    if Contains(output, a) { assert Contains(output, kw[0]); }
    if Contains(output, b) { assert Contains(output, kw[1]); }
  }

  lemma AnyPresentOfThree(output: string, a: string, b: string, c: string)
    ensures AnyPresent(output, [a, b, c]) <==> Contains(output, a) || Contains(output, b) || Contains(output, c)
  {
    var kw := [a, b, c];
    if Contains(output, a) { assert Contains(output, kw[0]); }
    if Contains(output, b) { assert Contains(output, kw[1]); }
    if Contains(output, c) { assert Contains(output, kw[2]); }
  }

  /** The answer a rule table gives: the first matching rule's, else (持有, 0.5). */
  function ByRules(rules: seq<Rule>, output: string): (string, real)
  {
    var i := FirstMatchingRule(rules, output);
    if i < |rules| then (rules[i].verdict, rules[i].confidence) else (Hold, 0.5)
  }

  /** extract_recommendation agrees with the priority table on every output. */
  lemma ExtractRecommendationIsFirstMatch(output: string)
    ensures ExtractRecommendation(output) == ByRules(RecommendationRules, output)
  {
    var rs := RecommendationRules;
    var i := FirstMatchingRule(rs, output);
    AnyPresentOfThree(output, "强烈推荐", "买入", "⭐⭐⭐⭐⭐");
    AnyPresentOfTwo(output, "推荐", "⭐⭐⭐⭐");
    AnyPresentOfThree(output, "回避", "卖出", "⭐");
    AnyPresentOfTwo(output, "中性", "观望");
    assert |rs| == 4;
    if AnyPresent(output, rs[0].keywords) {
      assert i == 0;
    } else if AnyPresent(output, rs[1].keywords) {
      assert i == 1;
    } else if AnyPresent(output, rs[2].keywords) {
      assert i == 2;
    } else if AnyPresent(output, rs[3].keywords) {
      assert i == 3;
    } else {
      assert i == 4;
    }
  }

  /** Adding text around an output can only move the decision to a rule of higher priority. */
  lemma {:induction false} FirstMatchingRuleExtends(rules: seq<Rule>, a: string, b: string)
    ensures FirstMatchingRule(rules, a + b) <= FirstMatchingRule(rules, a)
    ensures FirstMatchingRule(rules, a + b) <= FirstMatchingRule(rules, b)
  {
    if |rules| > 0 {
      var kw := rules[0].keywords;
      if AnyPresent(a, kw) || AnyPresent(b, kw) {
        var k :| 0 <= k < |kw| && (Contains(a, kw[k]) || Contains(b, kw[k]));
        ContainsConcat(a, b, kw[k]);
      } else {
        FirstMatchingRuleExtends(rules[1..], a, b);
      }
    }
  }

  /** Once an output reads as a strong buy, no added text changes that. */
  lemma StrongBuyIsStable(output: string, before: string, after: string)
    requires ExtractRecommendation(output) == (Buy, 0.8)
    ensures ExtractRecommendation(before + output + after) == (Buy, 0.8)
  {
    var rs := RecommendationRules;
    ExtractRecommendationIsFirstMatch(output);
    StrongBuyIsFirstRule(output);
    FirstMatchingRuleExtends(rs, before, output);
    FirstMatchingRuleExtends(rs, before + output, after);
    StrongBuyIsFirstRule(before + output + after);
    ExtractRecommendationIsFirstMatch(before + output + after);
  }

  /** Only the first rule of the table answers (买入, 0.8). */
  lemma StrongBuyIsFirstRule(output: string)
    ensures ByRules(RecommendationRules, output) == (Buy, 0.8) <==> FirstMatchingRule(RecommendationRules, output) == 0
  {
  }

  /** Every occurrence of `p` in `s` takes at least as many copies of `c` as `p` has. */
  lemma ContainsCountsChar(s: string, p: string, c: char)
    requires Contains(s, p)
    ensures multiset(p)[c] <= multiset(s)[c]
  {
    ContainsIffOccurs(s, p);
    var i :| OccursAt(s, p, i);
    assert s == s[..i] + p + s[i + |p|..];
    assert multiset(s) == multiset(s[..i]) + multiset(p) + multiset(s[i + |p|..]);
  }

  /**
   * A three-star rating in the format the quick prompt asks for reads as a
   * sell: the lone-star test of the third rule matches any star count below four.
   */
  lemma ThreeStarRatingReadsAsSell()
    ensures ExtractRecommendation("⭐⭐⭐☆☆") == (Sell, 0.7)
  {
    var s := "⭐⭐⭐☆☆";
    NotContainsMissingChar(s, "强烈推荐", 0);
    NotContainsMissingChar(s, "买入", 0);
    NotContainsMissingChar(s, "推荐", 0);
    ThreeStarsLackFour(s);
    assert IsPrefix("⭐", s);
  }

  /** Three stars hold no run of four or five. */
  lemma ThreeStarsLackFour(s: string)
    requires s == "⭐⭐⭐☆☆"
    ensures !Contains(s, "⭐⭐⭐⭐") && !Contains(s, "⭐⭐⭐⭐⭐")
  {
    assert multiset(s)['⭐'] == 3;
    if Contains(s, "⭐⭐⭐⭐") {
      ContainsCountsChar(s, "⭐⭐⭐⭐", '⭐');
    }
    if Contains(s, "⭐⭐⭐⭐⭐") {
      ContainsCountsChar(s, "⭐⭐⭐⭐⭐", '⭐');
    }
  }

  /** "不推荐" (not recommended) reads as a buy at 0.6: the test for "推荐" matches inside it. */
  lemma NotRecommendedReadsAsBuy()
    ensures ExtractRecommendation("不推荐") == (Buy, 0.6)
  {
    var s := "不推荐";
    NotContainsMissingChar(s, "强烈推荐", 0);
    NotContainsMissingChar(s, "买入", 0);
    NotContainsMissingChar(s, "⭐⭐⭐⭐⭐", 0);
    assert OccursAt(s, "推荐", 1);
    ContainsIffOccurs(s, "推荐");
  }

  // ---------------------------------------------------------------------------
  // Tool-call dispatch
  // ---------------------------------------------------------------------------

  /** The names the evaluator's tool map knows. */
  const KnownTools: set<string> := {"get_china_stock_data", "get_china_market_overview", "get_YFin_data"}

  const MaxToolContent: nat := 5000

  /** Python's `s[:n]`. */
  function Truncate(s: string, n: nat): (r: string)
    ensures IsPrefix(r, s)
    ensures |r| == if |s| <= n then |s| else n
  {
    if |s| <= n then s else s[..n]
  }

  /**
   * The reply to one tool call. `invoke` stands for calling the toolkit
   * function of that name: it returns the result's `str` text or raises.
   */
  function ToolReply(call: ToolCall, invoke: (string, ToolArgs) -> Attempt<string>): (m: ToolMessage)
    ensures m.toolCallId == call.id.GetOr("")
    ensures call.name.GetOr("") !in KnownTools ==> m.content == "未知工具: " + call.name.GetOr("")
    ensures call.name.GetOr("") in KnownTools ==>
      match invoke(call.name.GetOr(""), call.args.GetOr(map[]))
      case Returned(text) => IsPrefix(m.content, text) && |m.content| == if |text| <= MaxToolContent then |text| else MaxToolContent
      case Raised(e) => m.content == "工具调用失败: " + e
  {
    var name := call.name.GetOr("");
    var args := call.args.GetOr(map[]);
    var id := call.id.GetOr("");
    if name in KnownTools then
      match invoke(name, args)
      case Returned(text) => ToolMessage(Truncate(text, MaxToolContent), id)
      case Raised(e) => ToolMessage("工具调用失败: " + e, id)
    else
      ToolMessage("未知工具: " + name, id)
  }

  /** _execute_tool_calls: one reply per call, in the order of the calls. */
  method ExecuteToolCalls(calls: seq<ToolCall>, invoke: (string, ToolArgs) -> Attempt<string>)
    returns (replies: seq<ToolMessage>)
    ensures |replies| == |calls|
    ensures forall i :: 0 <= i < |calls| ==> replies[i] == ToolReply(calls[i], invoke)
    ensures forall i :: 0 <= i < |calls| ==> replies[i].toolCallId == calls[i].id.GetOr("")
  {
    replies := [];
    for i := 0 to |calls|
      invariant |replies| == i
      invariant forall j :: 0 <= j < i ==> replies[j] == ToolReply(calls[j], invoke)
    {
      var call := calls[i];
      var name := call.name.GetOr("");
      var args := call.args.GetOr(map[]);
      var id := call.id.GetOr("");
      var reply;
      if name in KnownTools {
        var outcome := invoke(name, args);
        match outcome {
          case Returned(text) =>
            reply := ToolMessage(Truncate(text, MaxToolContent), id);
          case Raised(e) =>
            reply := ToolMessage("工具调用失败: " + e, id);
        }
      } else {
        reply := ToolMessage("未知工具: " + name, id);
      }
      replies := replies + [reply];
    }
  }

  // ---------------------------------------------------------------------------
  // Evaluation record, token estimates and the A/B summary
  // ---------------------------------------------------------------------------

  /** One graded run (EvaluationResult); the realised returns are filled in later by a backtest. */
  datatype EvaluationResult = EvaluationResult(
    testCaseId: string,
    promptVersion: string,
    ticker: string,
    date: string,
    completenessScore: real,
    formatCompliance: real,
    dataAccuracy: real,
    inputTokens: nat,
    outputTokens: nat,
    responseTimeMs: nat,
    recommendation: string,
    confidence: real,
    actualReturn5d: Option<real>,
    actualReturn10d: Option<real>)

  /** The token estimate `len(text) // 2` (about two characters of Chinese per token). */
  function EstimateTokens(text: string): (t: nat)
    ensures 2 * t <= |text| < 2 * t + 2
  {
    |text| / 2
  }

  /**
   * The grading half of run_single_evaluation: scores an output that has
   * already been obtained. `stateText` is `str(state)`, `testCaseId` the hash
   * prefix and `responseTimeMs` the measured time, all computed outside.
   */
  method GradeOutput(output: string, mode: string, groundTruth: map<string, string>, stateText: string,
                     ticker: string, date: string, promptVersion: string, testCaseId: string,
                     responseTimeMs: nat)
    returns (r: EvaluationResult)
    ensures r.completenessScore == Completeness(output, mode)
    ensures r.formatCompliance == FormatScore(output, mode)
    ensures r.dataAccuracy == Accuracy(output, groundTruth)
    ensures (r.recommendation, r.confidence) == ExtractRecommendation(output)
    ensures 2 * r.inputTokens <= |stateText| < 2 * r.inputTokens + 2
    ensures 2 * r.outputTokens <= |output| < 2 * r.outputTokens + 2
    ensures r.ticker == ticker && r.date == date && r.promptVersion == promptVersion
    ensures r.testCaseId == testCaseId && r.responseTimeMs == responseTimeMs
    ensures r.actualReturn5d == None && r.actualReturn10d == None
    ensures 0.0 <= r.completenessScore <= 1.0 && 0.0 <= r.formatCompliance <= 1.0
    ensures 0.0 <= r.dataAccuracy <= 0.5
  {
    var completeness := Completeness(output, mode);
    var formatScore := CheckFormatCompliance(output, mode);
    var accuracy := CheckDataAccuracy(output, groundTruth);
    AccuracyBounds(output, groundTruth);
    var (recommendation, confidence) := ExtractRecommendation(output);
    r := EvaluationResult(testCaseId, promptVersion, ticker, date, completeness, formatScore, accuracy,
                          EstimateTokens(stateText), EstimateTokens(output), responseTimeMs,
                          recommendation, confidence, None, None);
  }

  /** The metrics _compute_summary compares, in its order. */
  datatype Metric = CompletenessScore | FormatCompliance | DataAccuracy | OutputTokens | ResponseTimeMs

  const SummaryMetrics: seq<Metric> := [CompletenessScore, FormatCompliance, DataAccuracy, OutputTokens, ResponseTimeMs]

  /** The column name of a metric, which is the row label of the summary. */
  function MetricName(m: Metric): string {
    match m
    case CompletenessScore => "completeness_score"
    case FormatCompliance => "format_compliance"
    case DataAccuracy => "data_accuracy"
    case OutputTokens => "output_tokens"
    case ResponseTimeMs => "response_time_ms"
  }

  function MetricValue(r: EvaluationResult, m: Metric): real {
    match m
    case CompletenessScore => r.completenessScore
    case FormatCompliance => r.formatCompliance
    case DataAccuracy => r.dataAccuracy
    case OutputTokens => r.outputTokens as real
    case ResponseTimeMs => r.responseTimeMs as real
  }

  function SumOf(rs: seq<EvaluationResult>, m: Metric): real {
    if |rs| == 0 then 0.0 else SumOf(rs[..|rs| - 1], m) + MetricValue(rs[|rs| - 1], m)
  }

  /** The column mean pandas computes. */
  function Mean(rs: seq<EvaluationResult>, m: Metric): real
    requires |rs| > 0
  {
    SumOf(rs, m) / |rs| as real
  }

  /** `x` added `n` times. */
  function Repeat(n: nat, x: real): real {
    if n == 0 then 0.0 else Repeat(n - 1, x) + x
  }

  lemma {:induction false} RepeatIsProduct(n: nat, x: real)
    ensures Repeat(n, x) == n as real * x
  {
    if n > 0 {
      RepeatIsProduct(n - 1, x);
      assert n as real * x == (n - 1) as real * x + x;
    }
  }

  /** A column sum lies between |rs| copies of a lower and of an upper bound of its values. */
  lemma {:induction false} SumOfBounds(rs: seq<EvaluationResult>, m: Metric, lo: real, hi: real)
    requires forall i :: 0 <= i < |rs| ==> lo <= MetricValue(rs[i], m) <= hi
    ensures Repeat(|rs|, lo) <= SumOf(rs, m) <= Repeat(|rs|, hi)
  {
    if |rs| > 0 {
      var init := rs[..|rs| - 1];
      assert forall i :: 0 <= i < |init| ==> init[i] == rs[i];
      SumOfBounds(init, m, lo, hi);
    }
  }

  /** A quotient by a positive count lies between the bounds the count scales. */
  lemma DivideBounds(sum: real, n: real, lo: real, hi: real)
    requires n > 0.0 && n * lo <= sum <= n * hi
    ensures lo <= sum / n <= hi
  {
    assert sum / n - lo == (sum - n * lo) / n;
    assert hi - sum / n == (n * hi - sum) / n;
  }

  /** A mean lies between the smallest and largest value it averages. */
  lemma MeanBounds(rs: seq<EvaluationResult>, m: Metric, lo: real, hi: real)
    requires |rs| > 0
    requires forall i :: 0 <= i < |rs| ==> lo <= MetricValue(rs[i], m) <= hi
    ensures lo <= Mean(rs, m) <= hi
  {
    SumOfBounds(rs, m, lo, hi);
    RepeatIsProduct(|rs|, lo);
    RepeatIsProduct(|rs|, hi);
    DivideBounds(SumOf(rs, m), |rs| as real, lo, hi);
  }

  /** The relative improvement of B over A in percent; 0 when A's mean is 0. */
  function Improvement(meanA: real, meanB: real): (pct: real)
    ensures meanA == 0.0 ==> pct == 0.0
    ensures meanA != 0.0 ==> meanA + meanA * pct / 100.0 == meanB
  {
    if meanA != 0.0 then (meanB - meanA) / meanA * 100.0 else 0.0
  }

  /** With a positive baseline, the improvement is positive exactly when B's mean is larger. */
  lemma ImprovementSign(meanA: real, meanB: real)
    requires meanA > 0.0
    ensures Improvement(meanA, meanB) > 0.0 <==> meanB > meanA
    ensures Improvement(meanA, meanB) == 0.0 <==> meanB == meanA
  {
    var pct := Improvement(meanA, meanB);
    assert meanA * pct == (meanB - meanA) * 100.0;
  }

  /** One summary row: the metric's name, both means and the improvement in percent. */
  datatype SummaryRow = SummaryRow(metric: string, meanA: real, meanB: real, improvementPct: real)

  /**
   * _compute_summary: one row per metric, in the fixed order. The caller
   * (run_ab_test) always passes one result per test case, and it replaces an
   * empty case list by the ten default cases, so neither side is empty.
   */
  method ComputeSummary(resultsA: seq<EvaluationResult>, resultsB: seq<EvaluationResult>)
    returns (rows: seq<SummaryRow>)
    requires |resultsA| > 0 && |resultsB| > 0
    ensures |rows| == |SummaryMetrics|
    ensures forall i :: 0 <= i < |rows| ==> rows[i].metric == MetricName(SummaryMetrics[i])
    ensures forall i :: 0 <= i < |rows| ==>
      var m := SummaryMetrics[i];
      rows[i].meanA == Mean(resultsA, m) && rows[i].meanB == Mean(resultsB, m)
      && rows[i].improvementPct == Improvement(Mean(resultsA, m), Mean(resultsB, m))
  {
    rows := [];
    for i := 0 to |SummaryMetrics|
      invariant |rows| == i
      invariant forall j :: 0 <= j < i ==> rows[j] == SummaryRow(
        MetricName(SummaryMetrics[j]), Mean(resultsA, SummaryMetrics[j]), Mean(resultsB, SummaryMetrics[j]),
        Improvement(Mean(resultsA, SummaryMetrics[j]), Mean(resultsB, SummaryMetrics[j])))
    {
      var metric := SummaryMetrics[i];
      var meanA := Mean(resultsA, metric);
      var meanB := Mean(resultsB, metric);
      var improvement := if meanA != 0.0 then (meanB - meanA) / meanA * 100.0 else 0.0;
      rows := rows + [SummaryRow(MetricName(metric), meanA, meanB, improvement)];
    }
  }
}
