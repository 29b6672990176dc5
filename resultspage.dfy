/**
 * The arithmetic and the choices of the results dashboard
 * (components/ResultsPage.tsx): headcount per team-size bucket, the split of
 * weekly capacity into productive and wasted hours, the label and colour of
 * the score, and the badge of each recommendation card.
 */
module ResultsPage {
  import opened Types
  import Scoring

  /**
   * getAvgTeamSize (components/ResultsPage.tsx:24-29): a representative
   * headcount inside the bucket the label names; any other label is read as
   * the open-ended "51+" bucket.
   */
  function AvgTeamSize(size: string): (headcount: nat)
    ensures size == "5-10" ==> 5 <= headcount <= 10
    ensures size == "11-25" ==> 11 <= headcount <= 25
    ensures size == "26-50" ==> 26 <= headcount <= 50
    ensures size != "5-10" && size != "11-25" && size != "26-50" ==> headcount == 60
  {
    if size == "5-10" then 7
    else if size == "11-25" then 18
    else if size == "26-50" then 38
    else 60
  }

  /** Position of a bucket on the team-size scale. */
  function Rank(size: TeamSize): nat {
    match size
    case FiveToTen => 0
    case ElevenToTwentyFive => 1
    case TwentySixToFifty => 2
    case FiftyOnePlus => 3
  }

  /** A larger bucket never gets a smaller headcount: the buckets are read in order. */
  lemma HeadcountFollowsBuckets(a: TeamSize, b: TeamSize)
    requires Rank(a) < Rank(b)
    ensures AvgTeamSize(a.Literal()) < AvgTeamSize(b.Literal())
  {
  }

  /** totalWeeklyHours: forty hours per head (components/ResultsPage.tsx:32). */
  function TotalWeeklyHours(size: string): (hours: nat)
    ensures hours % 40 == 0
    ensures size == "5-10" ==> 200 <= hours <= 400
    ensures size == "11-25" ==> 440 <= hours <= 1000
    ensures size == "26-50" ==> 1040 <= hours <= 2000
  {
    AvgTeamSize(size) * 40
  }

  /** `Math.max(0, total - wasted)` (components/ResultsPage.tsx:34). */
  function ProductiveHours(total: real, wasted: real): (productive: real)
    ensures productive >= 0.0 && productive >= total - wasted
    ensures productive == 0.0 || productive == total - wasted
  {
    if 0.0 < total - wasted then total - wasted else 0.0
  }

  /**
   * When the estimate of wasted hours fits in the team's week, the chart's
   * two slices add up to the whole week; when it does not, nothing is left
   * for productive time.
   */
  lemma CapacitySplit(size: string, wasted: real)
    ensures var total := TotalWeeklyHours(size) as real;
            && (0.0 <= wasted <= total ==> ProductiveHours(total, wasted) + wasted == total)
            && (wasted >= total ==> ProductiveHours(total, wasted) == 0.0)
  {
  }

  /** The text colours of the score and the badge colours of a card. */
  datatype Tone = Emerald | Yellow | Red | Slate

  /** getScoreColor (components/ResultsPage.tsx:41-45). */
  function ScoreColor(score: int): (tone: Tone)
    ensures tone == Emerald <==> score < 30
    ensures tone == Yellow <==> 30 <= score < 60
    ensures tone == Red <==> score >= 60
  {
    if score < 30 then Emerald
    else if score < 60 then Yellow
    else Red
  }

  /** getScoreLabel (components/ResultsPage.tsx:47-51). */
  function ScoreLabel(score: int): (text: string)
    ensures text == "Optimized" <==> score < 30
    ensures text == "Moderate Leaks" <==> 30 <= score < 60
    ensures text == "Critical Leak Alert" <==> score >= 60
  {
    if score < 30 then "Optimized"
    else if score < 60 then "Moderate Leaks"
    else "Critical Leak Alert"
  }

  /** The colour that goes with each label. */
  function ToneOfLabel(text: string): Tone {
    if text == "Optimized" then Emerald
    else if text == "Moderate Leaks" then Yellow
    else Red
  }

  /** Label and colour use the same thresholds, so they always agree. */
  lemma LabelAndColorAgree(score: int)
    ensures ScoreColor(score) == ToneOfLabel(ScoreLabel(score))
  {
  }

  /** How severe a score colour is. */
  function Severity(tone: Tone): nat {
    match tone
    case Emerald => 0
    case Yellow => 1
    case Red => 2
    case Slate => 0
  }

  /** A higher score never reads as less severe. */
  lemma ScoreColorMonotone(a: int, b: int)
    requires a <= b
    ensures Severity(ScoreColor(a)) <= Severity(ScoreColor(b))
  {
  }

  /**
   * The label agrees with the tier the prompt announces: Foundational
   * answers read as "Optimized", Intermediate as "Moderate Leaks" and
   * Advanced as "Critical Leak Alert".
   */
  lemma LabelMatchesLevel(raw: int)
    requires 0 <= raw <= 12
    ensures Scoring.LevelOf(raw) == Foundational <==> ScoreLabel(Scoring.VisualScore(raw)) == "Optimized"
    ensures Scoring.LevelOf(raw) == Intermediate <==> ScoreLabel(Scoring.VisualScore(raw)) == "Moderate Leaks"
    ensures Scoring.LevelOf(raw) == Advanced <==> ScoreLabel(Scoring.VisualScore(raw)) == "Critical Leak Alert"
  {
  }

  /** The impact badge of a card (components/ResultsPage.tsx:152-153). */
  function ImpactBadge(impact: Impact): (tone: Tone)
    ensures tone == Emerald <==> impact == High
    ensures tone == Yellow <==> impact == Medium
    ensures tone == Slate <==> impact != High && impact != Medium
  {
    if impact == High then Emerald
    else if impact == Medium then Yellow
    else Slate
  }

  /** What a recommendation card shows; the tool suggestion is not rendered. */
  datatype Card = Card(title: string, description: string, impact: Impact, badge: Tone)

  /** One card per recommendation, in the order given (components/ResultsPage.tsx:146-161). */
  function RecommendationCards(recommendations: seq<Recommendation>): (cards: seq<Card>)
    ensures |cards| == |recommendations|
    ensures forall i :: 0 <= i < |cards| ==>
              var r := recommendations[i];
              cards[i] == Card(r.title, r.description, r.impact, ImpactBadge(r.impact))
  {
    if recommendations == [] then []
    else
      var r := recommendations[0];
      [Card(r.title, r.description, r.impact, ImpactBadge(r.impact))] + RecommendationCards(recommendations[1..])
  }

  /** The fallback analysis shows two cards, both with the emerald "High" badge. */
  lemma FallbackCards(score: int)
    ensures var cards := RecommendationCards(Scoring.Fallback(score).recommendations);
            |cards| == 2 && forall i :: 0 <= i < 2 ==> cards[i].badge == Emerald
  {
  }
}
