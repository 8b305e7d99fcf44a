/** The test-case quality score: four weighted dimensions (coverage,
    step completeness, clarity of the expected result, boundary cases), a
    clamped total and a letter grade. Scores are exact reals; the source
    rounds them to one or two decimals only when it stores them. */
module Scoring {
  import opened Text
  import opened Seqs
  import opened Rows

  const CoverageWeight: real := 0.40
  const CompletenessWeight: real := 0.30
  const ClarityWeight: real := 0.20
  const BoundaryWeight: real := 0.10

  /** WEIGHTS */
  const Weights: map<string, real> := map[
    "coverage" := CoverageWeight, "completeness" := CompletenessWeight,
    "clarity" := ClarityWeight, "boundary" := BoundaryWeight]

  /** What a dimension's free-text note reports: a fixed sentence, or the
      figures a formatted sentence is built from. */
  datatype Detail =
    | Note(text: string)
    | CoverageRatio(covered: nat, total: nat)
    | AverageQuality(measure: string, average: real, cases: nat)
    | BoundaryRatio(boundaryCases: nat, cases: nat, changedMethods: nat)

  datatype Dimension = Dimension(name: string, score: real, weight: real, weightedScore: real, details: Detail)

  datatype ScoreResult = ScoreResult(totalScore: real, dimensions: seq<Dimension>, grade: string, summary: string)

  const CoverageName := "覆盖范围"
  const CompletenessName := "步骤完整性"
  const ClarityName := "预期结果明确性"
  const BoundaryName := "边界用例"
  const NoCasesNote := "无测试用例"

  const ActionWords: seq<string> := ["输入", "点击", "选择", "验证", "检查", "打开", "提交", "确认", "修改", "删除"]
  const VerifyWords: seq<string> := ["成功", "失败", "显示", "包含", "等于", "不为空",
                                     "返回", "跳转", "提示", "错误", "正确", "存在"]
  const BoundaryWords: seq<string> := ["异常", "边界", "空", "null", "为空", "不存在", "超长",
                                       "超时", "重复", "并发", "负数", "最大", "最小", "特殊字符",
                                       "无效", "非法", "错误", "失败"]

  /** The four weights add up to one, so a weighted total of scores in
      [0, 100] stays in [0, 100]. */
  lemma WeightsSumToOne()
    ensures Weights["coverage"] + Weights["completeness"] + Weights["clarity"] + Weights["boundary"] == 1.0
  {
  }

  /** `any(w in s for w in words)` */
  predicate ContainsAny(s: string, words: seq<string>) {
    exists k :: 0 <= k < |words| && Contains(s, words[k])
  }

  function RealMin(a: real, b: real): real {
    if a <= b then a else b
  }

  function RealMax(a: real, b: real): real {
    if a >= b then a else b
  }

  // ---------------------------------------------------------------------
  // score_coverage

  /** The coverage dimension: full marks without changes, otherwise the
      covered percentage capped at 100. */
  function ScoreCoverage(totalChanged: nat, covered: nat): (d: Dimension)
    ensures d.name == CoverageName && d.weight == Weights["coverage"]
    ensures 0.0 <= d.score <= 100.0
    ensures d.weightedScore == d.score * d.weight
    ensures d.score == 100.0 <==> covered >= totalChanged
    ensures 0 < totalChanged && covered <= totalChanged ==>
      d.score * totalChanged as real == 100.0 * covered as real
  {
    if totalChanged == 0 then
      Dimension(CoverageName, 100.0, CoverageWeight, 100.0 * CoverageWeight, Note("无代码改动，满分"))
    else
      var rate := covered as real / totalChanged as real;
      var raw := RealMin(100.0, rate * 100.0);
      Dimension(CoverageName, raw, CoverageWeight, raw * CoverageWeight, CoverageRatio(covered, totalChanged))
  }

  // ---------------------------------------------------------------------
  // _count_steps

  const StepPunctuation: set<char> := {'.', '、', ')'}
  const StepSeparators: set<char> := {';', '；', '\n'}

  /** Length of the run of digits at the start of `s`. */
  function DigitRun(s: string): (n: nat)
    ensures n <= |s|
    ensures forall i :: 0 <= i < n ==> IsDigit(s[i])
    ensures n == |s| || !IsDigit(s[n])
    decreases |s|
  {
    if s != [] && IsDigit(s[0]) then 1 + DigitRun(s[1..]) else 0
  }

  /** Number of matches of the pattern `\d+[.、)]`, scanned from the left
      without overlap. A run of digits that is not followed by one of the
      marks yields no match from any of its positions, so the scan skips
      the whole run. */
  function NumberedCount(s: string): nat
    decreases |s|
  {
    if s == [] then 0
    else if !IsDigit(s[0]) then NumberedCount(s[1..])
    else
      var k := DigitRun(s);
      if k < |s| && s[k] in StepPunctuation then 1 + NumberedCount(s[k + 1..])
      else NumberedCount(s[k..])
  }

  /** Number of matches of the pattern `步骤\d+`. */
  function StepMarkCount(s: string): nat
    decreases |s|
  {
    if |s| < 3 then 0
    else if s[0] == '步' && s[1] == '骤' && IsDigit(s[2]) then 1 + StepMarkCount(s[2 + DigitRun(s[2..])..])
    else StepMarkCount(s[1..])
  }

  /** Count of the `i`-th step pattern. */
  function PatternCount(i: nat, s: string): nat
    requires i < 2
  {
    if i == 0 then NumberedCount(s) else StepMarkCount(s)
  }

  predicate NonBlankPiece(p: string) {
    Strip(p) != ""
  }

  /** The stripped non-blank pieces of the text split at newlines and
      (half- or full-width) semicolons. */
  function StepPieces(s: string): seq<string> {
    Select(SplitOn(s, StepSeparators), NonBlankPiece, Strip)
  }

  /** _count_steps: the larger of the two pattern counts, or, when neither
      pattern occurs, the number of non-blank pieces. */
  function StepCount(s: string): nat {
    var marks := Max(NumberedCount(s), StepMarkCount(s));
    if marks == 0 then |StepPieces(s)| else marks
  }

  function Max(a: nat, b: nat): nat {
    if a >= b then a else b
  }

  method CountSteps(stepsText: string) returns (count: nat)
    ensures count == StepCount(stepsText)
  {
    count := 0;
    for p := 0 to 2
      invariant count == if p == 0 then 0 else if p == 1 then NumberedCount(stepsText)
                         else Max(NumberedCount(stepsText), StepMarkCount(stepsText))
    {
      var matches := PatternCount(p, stepsText);
      count := Max(count, matches);
    }
    if count == 0 {
      count := |StepPieces(stepsText)|;
    }
  }

  /** The text has a character that is neither whitespace nor a step
      separator. */
  predicate HasContent(s: string) {
    exists i :: 0 <= i < |s| && !IsSpace(s[i]) && s[i] !in StepSeparators
  }

  /** Some step is counted exactly when the text has content: blank or
      separator-only text has no steps, and any other text has at least one. */
  lemma {:induction false} StepCountPositiveIff(s: string)
    ensures StepCount(s) > 0 <==> HasContent(s)
  {
    NumberedHasContent(s);
    StepMarkHasContent(s);
    PiecesHaveContent(s);
  }

  lemma {:induction false} NumberedHasContent(s: string)
    ensures NumberedCount(s) > 0 ==> HasContent(s)
    decreases |s|
  {
    if s != [] {
      if !IsDigit(s[0]) {
        NumberedHasContent(s[1..]);
        if HasContent(s[1..]) {
          var i :| 0 <= i < |s[1..]| && !IsSpace(s[1..][i]) && s[1..][i] !in StepSeparators;
          assert s[i + 1] == s[1..][i];
        }
      } else {
        assert !IsSpace(s[0]) && s[0] !in StepSeparators;
      }
    }
  }

  lemma {:induction false} StepMarkHasContent(s: string)
    ensures StepMarkCount(s) > 0 ==> HasContent(s)
    decreases |s|
  {
    if |s| >= 3 {
      if s[0] == '步' && s[1] == '骤' && IsDigit(s[2]) {
        assert !IsSpace(s[0]) && s[0] !in StepSeparators;
      } else {
        StepMarkHasContent(s[1..]);
        if HasContent(s[1..]) {
          var i :| 0 <= i < |s[1..]| && !IsSpace(s[1..][i]) && s[1..][i] !in StepSeparators;
          assert s[i + 1] == s[1..][i];
        }
      }
    }
  }

  lemma {:induction false} PiecesHaveContent(s: string)
    ensures |StepPieces(s)| > 0 <==> HasContent(s)
  {
    var parts := SplitOn(s, StepSeparators);
    SelectEmpty(parts, NonBlankPiece, Strip);
    if HasContent(s) {
      var i :| 0 <= i < |s| && !IsSpace(s[i]) && s[i] !in StepSeparators;
      SplitOnKeeps(s, StepSeparators, i);
      var k, j :| 0 <= k < |parts| && 0 <= j < |parts[k]| && parts[k][j] == s[i];
      StripEmptyIffBlank(parts[k]);
      assert NonBlankPiece(parts[k]);
    }
    if |StepPieces(s)| > 0 {
      var k :| 0 <= k < |parts| && NonBlankPiece(parts[k]);
      StripEmptyIffBlank(parts[k]);
      var j :| 0 <= j < |parts[k]| && !IsSpace(parts[k][j]);
      SplitOnChars(s, StepSeparators, k, j);
    }
  }

  // ---------------------------------------------------------------------
  // score_completeness

  function StepsOf(tc: Row): string {
    Field(tc, "test_steps", "测试步骤")
  }

  function StepBonus(stepCount: nat): nat {
    if stepCount >= 3 then 40 else if stepCount >= 2 then 25 else if stepCount >= 1 then 10 else 0
  }

  /** One case's step score: 30 for having steps, a bonus for their number,
      30 for an action word. */
  function CaseCompleteness(tc: Row): nat {
    var steps := StepsOf(tc);
    if steps == "" then 0
    else 30 + StepBonus(StepCount(steps)) + (if ContainsAny(steps, ActionWords) then 30 else 0)
  }

  /** A case scores 0 exactly when it has no steps, otherwise between 30 and
      100, and 100 exactly with three or more steps and an action word. */
  lemma CaseCompletenessRange(tc: Row)
    ensures CaseCompleteness(tc) <= 100
    ensures CaseCompleteness(tc) == 0 <==> StepsOf(tc) == ""
    ensures StepsOf(tc) != "" ==> CaseCompleteness(tc) >= 30
    ensures CaseCompleteness(tc) == 100 <==>
      StepsOf(tc) != "" && StepCount(StepsOf(tc)) >= 3 && ContainsAny(StepsOf(tc), ActionWords)
  {
  }

  /** What score_completeness returns. */
  function CompletenessOf(cases: seq<Row>): Dimension {
    if cases == [] then Dimension(CompletenessName, 0.0, CompletenessWeight, 0.0, Note(NoCasesNote))
    else
      var avg := SumMap(cases, CaseCompleteness) as real / |cases| as real;
      Dimension(CompletenessName, avg, CompletenessWeight, avg * CompletenessWeight,
                AverageQuality("平均步骤质量", avg, |cases|))
  }

  method ScoreCompleteness(cases: seq<Row>) returns (d: Dimension)
    ensures d == CompletenessOf(cases)
  {
    if |cases| == 0 {
      return Dimension(CompletenessName, 0.0, CompletenessWeight, 0.0, Note(NoCasesNote));
    }
    var totalScore: nat := 0;
    for i := 0 to |cases|
      invariant totalScore == SumMap(cases[..i], CaseCompleteness)
    {
      var steps := Field(cases[i], "test_steps", "测试步骤");
      var caseScore: nat := 0;
      if steps != "" {
        caseScore := caseScore + 30;
        var stepCount := CountSteps(steps);
        if stepCount >= 3 {
          caseScore := caseScore + 40;
        } else if stepCount >= 2 {
          caseScore := caseScore + 25;
        } else if stepCount >= 1 {
          caseScore := caseScore + 10;
        }
        if ContainsAny(steps, ActionWords) {
          caseScore := caseScore + 30;
        }
      }
      SumMapStep(cases, i, CaseCompleteness);
      totalScore := totalScore + caseScore;
    }
    assert cases[..|cases|] == cases;
    var avg := totalScore as real / |cases| as real;
    d := Dimension(CompletenessName, avg, CompletenessWeight, avg * CompletenessWeight,
                   AverageQuality("平均步骤质量", avg, |cases|));
  }

  /** An average of case scores in [0, 100] lies in [0, 100]. */
  lemma AverageBound(sum: nat, n: nat)
    requires 0 < n && sum <= 100 * n
    ensures 0.0 <= sum as real / n as real <= 100.0
  {
    var q := sum as real / n as real;
    assert q * n as real == sum as real;
  }

  /** The completeness score is 0 without cases and an average in [0, 100]
      otherwise, weighted by 0.30. */
  lemma {:induction false} CompletenessBounds(cases: seq<Row>)
    ensures var d := CompletenessOf(cases);
      && d.name == CompletenessName && d.weight == Weights["completeness"]
      && 0.0 <= d.score <= 100.0
      && d.weightedScore == d.score * d.weight
      && (cases == [] ==> d.score == 0.0 && d.details == Note(NoCasesNote))
  {
    if cases != [] {
      forall i | 0 <= i < |cases| ensures CaseCompleteness(cases[i]) <= 100 {
        CaseCompletenessRange(cases[i]);
      }
      SumMapBound(cases, CaseCompleteness, 100);
      AverageBound(SumMap(cases, CaseCompleteness), |cases|);
    }
  }

  // ---------------------------------------------------------------------
  // score_clarity

  function ExpectedOf(tc: Row): string {
    Field(tc, "expected_result", "预期结果")
  }

  /** How many verification words the expected result contains. */
  function VerifyHits(expected: string): nat {
    Count(VerifyWords, (w: string) => Contains(expected, w))
  }

  /** One case's clarity score: 40 for having an expected result, a bonus
      for verification words and one for its length. */
  function CaseClarity(tc: Row): nat {
    var expected := ExpectedOf(tc);
    if expected == "" then 0
    else
      var matches := VerifyHits(expected);
      40 + (if matches >= 2 then 40 else if matches >= 1 then 25 else 0)
         + (if |expected| >= 10 then 20 else if |expected| >= 5 then 10 else 0)
  }

  /** A case scores 0 exactly when it has no expected result, at least 40
      otherwise, never more than 100, and 100 exactly with two verification
      words and ten or more characters. */
  lemma CaseClarityRange(tc: Row)
    ensures CaseClarity(tc) <= 100
    ensures CaseClarity(tc) == 0 <==> ExpectedOf(tc) == ""
    ensures ExpectedOf(tc) != "" ==> CaseClarity(tc) >= 40
    ensures CaseClarity(tc) == 100 <==>
      ExpectedOf(tc) != "" && VerifyHits(ExpectedOf(tc)) >= 2 && |ExpectedOf(tc)| >= 10
  {
  }

  /** What score_clarity returns. */
  function ClarityOf(cases: seq<Row>): Dimension {
    if cases == [] then Dimension(ClarityName, 0.0, ClarityWeight, 0.0, Note(NoCasesNote))
    else
      var avg := SumMap(cases, CaseClarity) as real / |cases| as real;
      Dimension(ClarityName, avg, ClarityWeight, avg * ClarityWeight,
                AverageQuality("平均预期结果质量", avg, |cases|))
  }

  method ScoreClarity(cases: seq<Row>) returns (d: Dimension)
    ensures d == ClarityOf(cases)
  {
    if |cases| == 0 {
      return Dimension(ClarityName, 0.0, ClarityWeight, 0.0, Note(NoCasesNote));
    }
    var totalScore: nat := 0;
    for i := 0 to |cases|
      invariant totalScore == SumMap(cases[..i], CaseClarity)
    {
      var expected := Field(cases[i], "expected_result", "预期结果");
      var caseScore: nat := 0;
      if expected != "" {
        caseScore := caseScore + 40;
        var matches := VerifyHits(expected);
        if matches >= 2 {
          caseScore := caseScore + 40;
        } else if matches >= 1 {
          caseScore := caseScore + 25;
        }
        if |expected| >= 10 {
          caseScore := caseScore + 20;
        } else if |expected| >= 5 {
          caseScore := caseScore + 10;
        }
      }
      SumMapStep(cases, i, CaseClarity);
      totalScore := totalScore + caseScore;
    }
    assert cases[..|cases|] == cases;
    var avg := totalScore as real / |cases| as real;
    d := Dimension(ClarityName, avg, ClarityWeight, avg * ClarityWeight,
                   AverageQuality("平均预期结果质量", avg, |cases|));
  }

  /** The clarity score is 0 without cases and an average in [0, 100]
      otherwise, weighted by 0.20. */
  lemma {:induction false} ClarityBounds(cases: seq<Row>)
    ensures var d := ClarityOf(cases);
      && d.name == ClarityName && d.weight == Weights["clarity"]
      && 0.0 <= d.score <= 100.0
      && d.weightedScore == d.score * d.weight
      && (cases == [] ==> d.score == 0.0 && d.details == Note(NoCasesNote))
  {
    if cases != [] {
      forall i | 0 <= i < |cases| ensures CaseClarity(cases[i]) <= 100 {
        CaseClarityRange(cases[i]);
      }
      SumMapBound(cases, CaseClarity, 100);
      AverageBound(SumMap(cases, CaseClarity), |cases|);
    }
  }

  // ---------------------------------------------------------------------
  // score_boundary

  /** The feature, steps and expected result joined by spaces. */
  function CombinedText(tc: Row): string {
    Field(tc, "test_function", "测试功能") + " " + StepsOf(tc) + " " + ExpectedOf(tc)
  }

  predicate IsBoundaryCase(tc: Row) {
    ContainsAny(CombinedText(tc), BoundaryWords)
  }

  /** Bonus for the share of boundary cases. */
  function ShareBonus(boundaryCount: nat, cases: nat): nat
    requires cases > 0
  {
    var share := boundaryCount as real / cases as real;
    if share >= 0.3 then 50 else if share >= 0.15 then 30 else if boundaryCount >= 1 then 15 else 0
  }

  /** Bonus for the number of cases per changed method. */
  function PerMethodBonus(cases: nat, changedMethods: nat): nat {
    if changedMethods > 0 then
      var ratio := cases as real / changedMethods as real;
      if ratio >= 3.0 then 50 else if ratio >= 2.0 then 35 else if ratio >= 1.0 then 20 else 10
    else 25
  }

  /** What score_boundary returns. */
  function BoundaryOf(cases: seq<Row>, changedMethods: nat): Dimension {
    if cases == [] then Dimension(BoundaryName, 0.0, BoundaryWeight, 0.0, Note(NoCasesNote))
    else
      var boundaryCount := Count(cases, IsBoundaryCase);
      var raw := RealMin(100.0, (ShareBonus(boundaryCount, |cases|) + PerMethodBonus(|cases|, changedMethods)) as real);
      Dimension(BoundaryName, raw, BoundaryWeight, raw * BoundaryWeight,
                BoundaryRatio(boundaryCount, |cases|, changedMethods))
  }

  method ScoreBoundary(cases: seq<Row>, changedMethods: nat) returns (d: Dimension)
    ensures d == BoundaryOf(cases, changedMethods)
  {
    if |cases| == 0 {
      return Dimension(BoundaryName, 0.0, BoundaryWeight, 0.0, Note(NoCasesNote));
    }
    var boundaryCount: nat := 0;
    for i := 0 to |cases|
      invariant boundaryCount == Count(cases[..i], IsBoundaryCase)
    {
      var tc := cases[i];
      var combined := Field(tc, "test_function", "测试功能") + " " + Field(tc, "test_steps", "测试步骤")
                      + " " + Field(tc, "expected_result", "预期结果");
      CountStep(cases, i, IsBoundaryCase);
      if ContainsAny(combined, BoundaryWords) {
        boundaryCount := boundaryCount + 1;
      }
    }
    assert cases[..|cases|] == cases;

    var rawScore: nat := 0;
    var share := boundaryCount as real / |cases| as real;
    if share >= 0.3 {
      rawScore := rawScore + 50;
    } else if share >= 0.15 {
      rawScore := rawScore + 30;
    } else if boundaryCount >= 1 {
      rawScore := rawScore + 15;
    }
    if changedMethods > 0 {
      var ratio := |cases| as real / changedMethods as real;
      if ratio >= 3.0 {
        rawScore := rawScore + 50;
      } else if ratio >= 2.0 {
        rawScore := rawScore + 35;
      } else if ratio >= 1.0 {
        rawScore := rawScore + 20;
      } else {
        rawScore := rawScore + 10;
      }
    } else {
      rawScore := rawScore + 25;
    }
    var raw := RealMin(100.0, rawScore as real);
    d := Dimension(BoundaryName, raw, BoundaryWeight, raw * BoundaryWeight,
                   BoundaryRatio(boundaryCount, |cases|, changedMethods));
  }

  /** The share bonus is zero exactly when no case is a boundary case. */
  lemma {:induction false} ShareBonusZeroIff(cases: seq<Row>)
    requires cases != []
    ensures ShareBonus(Count(cases, IsBoundaryCase), |cases|) == 0 <==>
      forall i :: 0 <= i < |cases| ==> !IsBoundaryCase(cases[i])
  {
    CountZero(cases, IsBoundaryCase);
    var c := Count(cases, IsBoundaryCase);
    if c > 0 {
      assert c as real / |cases| as real >= 0.0;
    }
  }

  /** The boundary score is 0 without cases; with cases it lies in [10, 100]
      and the cap at 100 never changes it (the two bonuses add up to at
      most 100). */
  lemma BoundaryBounds(cases: seq<Row>, changedMethods: nat)
    ensures var d := BoundaryOf(cases, changedMethods);
      && d.name == BoundaryName && d.weight == Weights["boundary"]
      && d.weightedScore == d.score * d.weight
      && (cases == [] ==> d.score == 0.0 && d.details == Note(NoCasesNote))
      && (cases != [] ==>
            && 10.0 <= d.score <= 100.0
            && d.score == (ShareBonus(Count(cases, IsBoundaryCase), |cases|) + PerMethodBonus(|cases|, changedMethods)) as real)
  {
    if cases != [] {
      BonusBounds(Count(cases, IsBoundaryCase), |cases|, changedMethods);
    }
  }

  lemma BonusBounds(boundaryCount: nat, cases: nat, changedMethods: nat)
    requires cases > 0
    ensures ShareBonus(boundaryCount, cases) <= 50
    ensures 10 <= PerMethodBonus(cases, changedMethods) <= 50
  {
  }

  // ---------------------------------------------------------------------
  // _get_grade, _get_summary

  /** _get_grade: A, B, C, D at 90, 80, 60, 40, F below; a score on a
      threshold gets the higher grade. */
  function Grade(score: real): (g: string)
    ensures g in {"A", "B", "C", "D", "F"}
  {
    if score >= 90.0 then "A"
    else if score >= 80.0 then "B"
    else if score >= 60.0 then "C"
    else if score >= 40.0 then "D"
    else "F"
  }

  /** Position of a grade, A highest. */
  function GradeRank(g: string): nat {
    if g == "A" then 4 else if g == "B" then 3 else if g == "C" then 2 else if g == "D" then 1 else 0
  }

  /** Each grade covers exactly its score band. */
  lemma GradeBands(score: real)
    ensures Grade(score) == "A" <==> score >= 90.0
    ensures Grade(score) == "B" <==> 80.0 <= score < 90.0
    ensures Grade(score) == "C" <==> 60.0 <= score < 80.0
    ensures Grade(score) == "D" <==> 40.0 <= score < 60.0
    ensures Grade(score) == "F" <==> score < 40.0
  {
  }

  /** A higher score never gets a lower grade. */
  lemma GradeMonotone(s1: real, s2: real)
    requires s1 <= s2
    ensures GradeRank(Grade(s1)) <= GradeRank(Grade(s2))
  {
  }

  const Summaries: map<string, string> := map[
    "A" := "测试用例质量优秀，覆盖全面且步骤清晰",
    "B" := "测试用例质量良好，建议补充部分边界场景",
    "C" := "测试用例基本合格，建议加强覆盖范围和步骤细节",
    "D" := "测试用例不足，需要大幅补充改进",
    "F" := "测试用例严重不足，建议全面重新编写"]

  /** _get_summary: the fixed sentence of a grade, "" for anything else. */
  function Summary(grade: string): (s: string)
    ensures grade in {"A", "B", "C", "D", "F"} <==> s != ""
  {
    if grade in Summaries then Summaries[grade] else ""
  }

  /** Different grades get different sentences. */
  lemma SummaryInjective(g1: string, g2: string)
    requires g1 in {"A", "B", "C", "D", "F"} && g2 in {"A", "B", "C", "D", "F"}
    requires Summary(g1) == Summary(g2)
    ensures g1 == g2
  {
  }

  // ---------------------------------------------------------------------
  // calculate_score

  function Clamp(total: real): real {
    RealMin(100.0, RealMax(0.0, total))
  }

  function WeightedSum(dims: seq<Dimension>): real
    decreases |dims|
  {
    if dims == [] then 0.0 else WeightedSum(dims[..|dims| - 1]) + dims[|dims| - 1].weightedScore
  }

  /** What calculate_score returns. */
  function ScoreOf(totalChanged: nat, covered: nat, cases: seq<Row>): ScoreResult {
    var dims := [ScoreCoverage(totalChanged, covered), CompletenessOf(cases),
                 ClarityOf(cases), BoundaryOf(cases, totalChanged)];
    var total := Clamp(WeightedSum(dims));
    ScoreResult(total, dims, Grade(total), Summary(Grade(total)))
  }

  method CalculateScore(totalChanged: nat, covered: nat, cases: seq<Row>) returns (r: ScoreResult)
    ensures r == ScoreOf(totalChanged, covered, cases)
  {
    var dimCoverage := ScoreCoverage(totalChanged, covered);
    var dimCompleteness := ScoreCompleteness(cases);
    var dimClarity := ScoreClarity(cases);
    var dimBoundary := ScoreBoundary(cases, totalChanged);
    var dimensions := [dimCoverage, dimCompleteness, dimClarity, dimBoundary];
    var total := WeightedSum(dimensions);
    total := Clamp(total);
    var grade := Grade(total);
    var summary := Summary(grade);
    r := ScoreResult(total, dimensions, grade, summary);
  }

  /** The result has the four dimensions in their fixed order with their
      weights; the total is the plain weighted sum (the clamp to [0, 100]
      never bites), and grade and summary follow from it. */
  lemma {:induction false} ScoreShape(totalChanged: nat, covered: nat, cases: seq<Row>)
    ensures var r := ScoreOf(totalChanged, covered, cases);
      && |r.dimensions| == 4
      && r.dimensions[0].name == CoverageName && r.dimensions[1].name == CompletenessName
      && r.dimensions[2].name == ClarityName && r.dimensions[3].name == BoundaryName
      && r.dimensions[0].weight + r.dimensions[1].weight + r.dimensions[2].weight + r.dimensions[3].weight == 1.0
      && r.totalScore == r.dimensions[0].weightedScore + r.dimensions[1].weightedScore
                         + r.dimensions[2].weightedScore + r.dimensions[3].weightedScore
      && 0.0 <= r.totalScore <= 100.0
      && r.grade == Grade(r.totalScore)
      && r.summary == Summary(r.grade) && r.summary != ""
  {
    CompletenessBounds(cases);
    ClarityBounds(cases);
    BoundaryBounds(cases, totalChanged);
    var dims := ScoreOf(totalChanged, covered, cases).dimensions;
    WeightedSumOfFour(dims[0], dims[1], dims[2], dims[3]);
  }

  lemma WeightedSumOfFour(a: Dimension, b: Dimension, c: Dimension, d: Dimension)
    ensures WeightedSum([a, b, c, d]) == a.weightedScore + b.weightedScore + c.weightedScore + d.weightedScore
  {
    assert [a, b, c, d][..3] == [a, b, c];
    assert [a, b, c][..2] == [a, b];
    assert [a, b][..1] == [a];
    assert [a][..0] == [];
    assert WeightedSum([a]) == a.weightedScore;
    assert WeightedSum([a, b]) == WeightedSum([a]) + b.weightedScore;
    assert WeightedSum([a, b, c]) == WeightedSum([a, b]) + c.weightedScore;
  }

  /** With no cases and nothing covered out of some changes, every
      dimension scores 0, so the total is 0 and the grade F. */
  lemma NothingScoresZero(totalChanged: nat, cases: seq<Row>)
    requires totalChanged > 0 && cases == []
    ensures ScoreOf(totalChanged, 0, cases).totalScore == 0.0
    ensures ScoreOf(totalChanged, 0, cases).grade == "F"
  {
    ScoreShape(totalChanged, 0, cases);
  }
}
