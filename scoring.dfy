/**
 * The Time Leak score calculator and the analysis it feeds
 * (services/geminiService.ts).
 *
 * The raw score is one point per "yes" among eight answers plus
 * `confidence - 1`; the visual score rescales it to 0-100 with JavaScript's
 * `Math.round`; the analysis always carries the visual score, whether the
 * generative-AI call produced data or the fixed fallback was used. The AI
 * call itself is an oracle: its outcome is a parameter.
 */
module Scoring {
  import opened Types

  /** The eight yes/no answers, in the order the calculator adds them. */
  function Flags(inputs: AuditInputs): (flags: seq<bool>)
    ensures |flags| == 8
  {
    [ inputs.losingMoneyOnRepetitiveTasks,
      inputs.trackingSeniorTeamHours,
      inputs.clarityOnAiTasks,
      inputs.teamDeliveringLessOutput,
      inputs.investedInAutomationButUnderutilized,
      inputs.workedMoreThan50Hours,
      inputs.isBottleneck,
      inputs.canScaleWithoutHiring ]
  }

  /** One point for a "yes". */
  function Point(answer: bool): nat {
    if answer then 1 else 0
  }

  /** The number of `true` entries of `s`. */
  function CountTrue(s: seq<bool>): (n: nat)
    ensures n <= |s|
  {
    if s == [] then 0
    else Point(s[0]) + CountTrue(s[1..])
  }

  /** No "yes" counts nothing; all "yes" counts every answer; and only those. */
  lemma {:induction false} CountTrueNoneAll(s: seq<bool>)
    ensures CountTrue(s) == 0 <==> forall i :: 0 <= i < |s| ==> !s[i]
    ensures CountTrue(s) == |s| <==> forall i :: 0 <= i < |s| ==> s[i]
  {
    if s != [] {
      CountTrueNoneAll(s[1..]);
      assert forall i :: 1 <= i < |s| ==> s[i] == s[1..][i - 1];
    }
  }

  /** Turning one "no" into a "yes" adds exactly one point. */
  lemma {:induction false} CountTrueSetOne(s: seq<bool>, k: nat)
    requires k < |s| && !s[k]
    ensures CountTrue(s[k := true]) == CountTrue(s) + 1
  {
    if k == 0 {
      assert s[k := true][1..] == s[1..];
    } else {
      assert s[k := true][1..] == s[1..][k - 1 := true];
      CountTrueSetOne(s[1..], k - 1);
    }
  }

  /** The raw score: the number of "yes" answers plus `confidence - 1`. */
  function RawScore(inputs: AuditInputs): (raw: int)
    ensures inputs.confidenceInCapturingCosts - 1 <= raw <= inputs.confidenceInCapturingCosts + 7
  {
    CountTrue(Flags(inputs)) + inputs.confidenceInCapturingCosts - 1
  }

  /** The raw score written out as the nine terms the calculator adds. */
  lemma RawScoreTerms(inputs: AuditInputs)
    ensures RawScore(inputs) ==
              Point(inputs.losingMoneyOnRepetitiveTasks)
              + Point(inputs.trackingSeniorTeamHours)
              + Point(inputs.clarityOnAiTasks)
              + Point(inputs.teamDeliveringLessOutput)
              + Point(inputs.investedInAutomationButUnderutilized)
              + Point(inputs.workedMoreThan50Hours)
              + Point(inputs.isBottleneck)
              + Point(inputs.canScaleWithoutHiring)
              + (inputs.confidenceInCapturingCosts - 1)
  {
    var flags := Flags(inputs);
    CountEight(flags);
  }

  /** Eight answers count as the sum of their points. */
  lemma CountEight(s: seq<bool>)
    requires |s| == 8
    ensures CountTrue(s) == Point(s[0]) + Point(s[1]) + Point(s[2]) + Point(s[3])
                            + Point(s[4]) + Point(s[5]) + Point(s[6]) + Point(s[7])
  {
    assert s[8..] == [];
    CountTrueFrom(s, 7);
    CountTrueFrom(s, 6);
    CountTrueFrom(s, 5);
    CountTrueFrom(s, 4);
    CountTrueFrom(s, 3);
    CountTrueFrom(s, 2);
    CountTrueFrom(s, 1);
    CountTrueFrom(s, 0);
    assert s[0..] == s;
  }

  /** Counting a suffix peels off its first answer. */
  lemma CountTrueFrom(s: seq<bool>, k: nat)
    requires k < |s|
    ensures CountTrue(s[k..]) == Point(s[k]) + CountTrue(s[k + 1..])
  {
  }

  /**
   * The nine sequential `rawScore += ...` steps of generateAuditAnalysis
   * (services/geminiService.ts:14-29).
   */
  method ComputeRawScore(inputs: AuditInputs) returns (rawScore: int)
    ensures rawScore == RawScore(inputs)
    ensures ValidInputs(inputs) ==> 0 <= rawScore <= 12
  {
    rawScore := 0;
    ghost var counted := 0;  // the points added so far
    // core business (yes = 1)
    if inputs.losingMoneyOnRepetitiveTasks { rawScore := rawScore + 1; }
    assert rawScore == Point(inputs.losingMoneyOnRepetitiveTasks);
    counted := rawScore;
    if inputs.trackingSeniorTeamHours { rawScore := rawScore + 1; }
    assert rawScore == counted + Point(inputs.trackingSeniorTeamHours);
    counted := rawScore;
    if inputs.clarityOnAiTasks { rawScore := rawScore + 1; }
    assert rawScore == counted + Point(inputs.clarityOnAiTasks);
    counted := rawScore;
    if inputs.teamDeliveringLessOutput { rawScore := rawScore + 1; }
    assert rawScore == counted + Point(inputs.teamDeliveringLessOutput);
    counted := rawScore;
    if inputs.investedInAutomationButUnderutilized { rawScore := rawScore + 1; }
    assert rawScore == counted + Point(inputs.investedInAutomationButUnderutilized);
    counted := rawScore;
    // owner / CEO (yes = 1)
    if inputs.workedMoreThan50Hours { rawScore := rawScore + 1; }
    assert rawScore == counted + Point(inputs.workedMoreThan50Hours);
    counted := rawScore;
    if inputs.isBottleneck { rawScore := rawScore + 1; }
    assert rawScore == counted + Point(inputs.isBottleneck);
    counted := rawScore;
    if inputs.canScaleWithoutHiring { rawScore := rawScore + 1; }
    assert rawScore == counted + Point(inputs.canScaleWithoutHiring);
    counted := rawScore;
    // confidence scale (1 = 0, ..., 5 = 4)
    rawScore := rawScore + (inputs.confidenceInCapturingCosts - 1);
    RawScoreTerms(inputs);
    RawScoreRange(inputs);
  }

  /** With a confidence rating in 1..5 the raw score lies in 0..12. */
  lemma RawScoreRange(inputs: AuditInputs)
    ensures ValidInputs(inputs) ==> 0 <= RawScore(inputs) <= 12
  {
  }

  /** The two ends of the scale. */
  lemma RawScoreExtremes(inputs: AuditInputs)
    ensures ((forall i :: 0 <= i < 8 ==> Flags(inputs)[i]) && inputs.confidenceInCapturingCosts == 5)
            ==> RawScore(inputs) == 12
    ensures ((forall i :: 0 <= i < 8 ==> !Flags(inputs)[i]) && inputs.confidenceInCapturingCosts == 1)
            ==> RawScore(inputs) == 0
  {
    CountTrueNoneAll(Flags(inputs));
  }

  /**
   * `Math.min(Math.round((raw / 12) * 100), 100)`. `Math.round(x)` is
   * `floor(x + 1/2)`, and `floor((100 * raw) / 12 + 1/2)` is the floor
   * division `(100 * raw + 6) / 12`; Dafny's `/` by a positive divisor
   * rounds down. JavaScript divides in doubles, whose rounding error stays
   * far below the 1/6 margin of `NoRoundingTie` for every raw score the
   * calculator produces, so the two agree there.
   */
  function VisualScore(raw: int): (score: int)
    ensures score <= 100
    // score is the nearest integer to raw * 100 / 12, halves rounding up
    ensures raw <= 12 ==> 12 * score - 6 <= 100 * raw < 12 * score + 6
    ensures raw >= 12 ==> score == 100
  {
    var rounded := (100 * raw + 6) / 12;
    if rounded < 100 then rounded else 100
  }

  /**
   * `raw * 100 / 12` is never exactly halfway between two integers, so the
   * rounding direction of `Math.round` on a tie never matters and the
   * floating-point division cannot land on one.
   */
  lemma NoRoundingTie(raw: int)
    ensures (100 * raw) % 12 != 6
  {
  }

  lemma VisualScoreMonotone(a: int, b: int)
    requires a <= b
    ensures VisualScore(a) <= VisualScore(b)
  {
  }

  lemma VisualScoreRange(raw: int)
    requires 0 <= raw <= 12
    ensures 0 <= VisualScore(raw) <= 100
  {
  }

  /**
   * The tier named in the prompt (services/geminiService.ts:56): Advanced
   * from 8, Intermediate from 4, Foundational below.
   */
  function LevelOf(raw: int): (level: Level)
    ensures level == Advanced <==> raw >= 8
    ensures level == Intermediate <==> 4 <= raw < 8
    ensures level == Foundational <==> raw < 4
  {
    if raw >= 8 then Advanced else if raw >= 4 then Intermediate else Foundational
  }

  /**
   * Where each tier lands on the 0-100 gauge. The source's comment expects
   * 0-30, 40-70 and 80-100; the code gives 0-25, 33-58 and 67-100.
   */
  lemma LevelBands(raw: int)
    requires 0 <= raw <= 12
    ensures LevelOf(raw) == Foundational ==> 0 <= VisualScore(raw) <= 25
    ensures LevelOf(raw) == Intermediate ==> 33 <= VisualScore(raw) <= 58
    ensures LevelOf(raw) == Advanced ==> 67 <= VisualScore(raw) <= 100
  {
  }

  /** The tier only rises with the raw score. */
  lemma LevelMonotone(a: int, b: int)
    requires a <= b
    ensures LevelOf(a) == Advanced ==> LevelOf(b) == Advanced
    ensures LevelOf(b) == Foundational ==> LevelOf(a) == Foundational
  {
  }

  /**
   * What came back from the generative-AI request, after
   * `JSON.parse(response.text)`. `score` stands for a `score` key the
   * payload may carry; the request's schema does not ask for one.
   */
  datatype AiData = AiData(
    score: Option<int>,
    summary: string,
    totalHoursWastedPerWeek: real,
    potentialCostSavings: string,
    recommendations: seq<Recommendation>)

  /**
   * The outcomes of the request: it throws (network error, missing key),
   * it returns no text, the text is not JSON, or it parses.
   */
  datatype AiResponse = Thrown | NoText | Unparsable | Parsed(data: AiData)

  const FallbackSummary: string :=
    "Based on your inputs, your business shows clear signs of operational drag. You are likely losing significant time to manual workflows."

  /** The canned result of the catch block (services/geminiService.ts:128-137). */
  function Fallback(score: int): (result: AuditResult)
    ensures result.score == score
    ensures result.totalHoursWastedPerWeek == 40.0 && result.potentialCostSavings == "$100,000+"
    ensures |result.recommendations| == 2
    ensures forall i :: 0 <= i < |result.recommendations| ==> result.recommendations[i].impact == High
  {
    AuditResult(
      score,
      FallbackSummary,
      40.0,
      "$100,000+",
      [ Recommendation("Systemize Core Ops", "Document and automate your primary workflows.", High, "Notion/Zapier"),
        Recommendation("Delegate Admin", "Use AI to handle scheduling and data entry.", High, "Motion/Reclaim") ])
  }

  /**
   * The analysis generateAuditAnalysis resolves to for `inputs` when the
   * request ends in `response`: on parsed data `{...data, score: visualScore}`,
   * so the local score wins over any score in the payload; on every failure
   * the fallback with the local score.
   */
  function Analysis(inputs: AuditInputs, response: AiResponse): (result: AuditResult)
    ensures result.score == VisualScore(RawScore(inputs))
    ensures ValidInputs(inputs) ==> ScoreInRange(result)
    ensures response.Parsed? ==>
              && result.summary == response.data.summary
              && result.totalHoursWastedPerWeek == response.data.totalHoursWastedPerWeek
              && result.potentialCostSavings == response.data.potentialCostSavings
              && result.recommendations == response.data.recommendations
    ensures !response.Parsed? ==> result == Fallback(result.score)
  {
    Resolve(VisualScore(RawScore(inputs)), response)
  }

  /** The value the try/catch resolves to once the score is known. */
  function Resolve(visualScore: int, response: AiResponse): AuditResult {
    match response
    case Parsed(data) =>
      // the spread comes first and the override last
      AuditResult(visualScore, data.summary, data.totalHoursWastedPerWeek,
                  data.potentialCostSavings, data.recommendations)
    case _ => Fallback(visualScore)
  }

  /**
   * generateAuditAnalysis (services/geminiService.ts:12-139): the score is
   * accumulated step by step, then the request's outcome decides the rest.
   */
  method GenerateAuditAnalysis(inputs: AuditInputs, response: AiResponse) returns (result: AuditResult)
    ensures result == Analysis(inputs, response)
    ensures result.score == VisualScore(RawScore(inputs))
    ensures ValidInputs(inputs) ==> ScoreInRange(result)
  {
    var rawScore := ComputeRawScore(inputs);
    var visualScore := VisualScore(rawScore);
    match response
    case Parsed(data) =>
      // the spread comes first and the override last
      result := AuditResult(visualScore, data.summary, data.totalHoursWastedPerWeek,
                            data.potentialCostSavings, data.recommendations);
    case _ =>
      result := Fallback(visualScore);
  }

  /**
   * The score depends only on the eight answers and the confidence rating:
   * contact details and the categorical answers never change it.
   */
  lemma ScoreIgnoresOtherAnswers(inputs: AuditInputs, name: string, email: string, phone: Option<string>,
                                 role: Role, teamSize: TeamSize, mainFocus: MainFocus,
                                 obstacle: Obstacle, timeline: Timeline)
    ensures var other := inputs.(name := name, email := email, phone := phone, role := role,
                                 teamSize := teamSize, mainFocus := mainFocus,
                                 biggestObstacle := obstacle, investmentTimeline := timeline);
            RawScore(other) == RawScore(inputs) && VisualScore(RawScore(other)) == VisualScore(RawScore(inputs))
  {
  }

  /** Answering one more question "yes" adds exactly one raw point. */
  lemma YesAddsOnePoint(inputs: AuditInputs, k: nat)
    requires k < 8 && !Flags(inputs)[k]
    ensures forall other: AuditInputs ::
              Flags(other) == Flags(inputs)[k := true]
              && other.confidenceInCapturingCosts == inputs.confidenceInCapturingCosts
              ==> RawScore(other) == RawScore(inputs) + 1
  {
    CountTrueSetOne(Flags(inputs), k);
  }
}
