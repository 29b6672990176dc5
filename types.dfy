/**
 * The value types shared by the questionnaire, the score calculator, the
 * application shell and the results page (types.ts).
 *
 * Each TypeScript union of string literals becomes an enumeration; its
 * `Literal()` gives back the exact string the source uses, so that code which
 * compares against those strings can be modelled on strings.
 */
module Types {

  datatype Option<+T> = None | Some(value: T)

  /** `role` (types.ts:6). */
  datatype Role = Owner | CEO | ManagingDirector | OtherRole
  {
    function Literal(): string {
      match this
      case Owner => "Owner"
      case CEO => "CEO"
      case ManagingDirector => "Managing Director"
      case OtherRole => "Other"
    }
  }

  /** `teamSize` (types.ts:7). */
  datatype TeamSize = FiveToTen | ElevenToTwentyFive | TwentySixToFifty | FiftyOnePlus
  {
    function Literal(): string {
      match this
      case FiveToTen => "5-10"
      case ElevenToTwentyFive => "11-25"
      case TwentySixToFifty => "26-50"
      case FiftyOnePlus => "51+"
    }
  }

  /** `mainFocus` (types.ts:8). */
  datatype MainFocus = IncreasingProfits | ReducingOwnerTime | ImprovingTeamOutput
                     | ScalingWithoutMoreStaff | OtherFocus
  {
    function Literal(): string {
      match this
      case IncreasingProfits => "Increasing profits"
      case ReducingOwnerTime => "Reducing owner time"
      case ImprovingTeamOutput => "Improving team output"
      case ScalingWithoutMoreStaff => "Scaling without more staff"
      case OtherFocus => "Other"
    }
  }

  /** `biggestObstacle` (types.ts:22). */
  datatype Obstacle = LackOfSystems | TeamNotTrained | LowAutomation | UnclearRolesAndTasks | OtherObstacle
  {
    function Literal(): string {
      match this
      case LackOfSystems => "lack of systems"
      case TeamNotTrained => "team not trained"
      case LowAutomation => "low automation"
      case UnclearRolesAndTasks => "unclear roles & tasks"
      case OtherObstacle => "other"
    }
  }

  /** `investmentTimeline` (types.ts:25). */
  datatype Timeline = Immediately | WithinNextThreeMonths | WithinSixToTwelveMonths | NotSure
  {
    function Literal(): string {
      match this
      case Immediately => "Immediately"
      case WithinNextThreeMonths => "Within next 3 months"
      case WithinSixToTwelveMonths => "Within 6-12 months"
      case NotSure => "Not sure"
    }
  }

  /**
   * A completed questionnaire (types.ts:1-26). `phone` is declared as a
   * mandatory string, but the questionnaire never asks for it, so a record
   * the form emits has no phone: it is an `Option` here.
   */
  datatype AuditInputs = AuditInputs(
    name: string,
    email: string,
    phone: Option<string>,
    role: Role,
    teamSize: TeamSize,
    mainFocus: MainFocus,
    // core business / systems questions
    losingMoneyOnRepetitiveTasks: bool,
    trackingSeniorTeamHours: bool,
    clarityOnAiTasks: bool,
    teamDeliveringLessOutput: bool,
    investedInAutomationButUnderutilized: bool,
    // owner / CEO questions
    workedMoreThan50Hours: bool,
    isBottleneck: bool,
    canScaleWithoutHiring: bool,
    confidenceInCapturingCosts: int,
    biggestObstacle: Obstacle,
    // qualification
    investmentTimeline: Timeline)

  /** The documented range of the confidence rating (types.ts:21). */
  predicate ConfidenceInRange(confidence: int) {
    1 <= confidence <= 5
  }

  predicate ValidInputs(inputs: AuditInputs) {
    ConfidenceInRange(inputs.confidenceInCapturingCosts)
  }

  /** The qualitative tier of a raw score (types.ts:30). */
  datatype Level = Foundational | Intermediate | Advanced

  /** Declared in types.ts:28-32; no code in the application builds one. */
  datatype AuditScore = AuditScore(points: int, level: Level, tags: seq<string>)

  /** `impact` (types.ts:37). */
  datatype Impact = High | Medium | Low
  {
    function Literal(): string {
      match this
      case High => "High"
      case Medium => "Medium"
      case Low => "Low"
    }
  }

  datatype Recommendation = Recommendation(
    title: string,
    description: string,
    impact: Impact,
    toolSuggestion: string)

  /**
   * The analysis shown on the results page (types.ts:41-47). The hours
   * figure is a JavaScript number and is modelled as a real.
   */
  datatype AuditResult = AuditResult(
    score: int,
    summary: string,
    totalHoursWastedPerWeek: real,
    potentialCostSavings: string,
    recommendations: seq<Recommendation>)

  /** The documented 0-100 range of the Time Leak Score (types.ts:42). */
  predicate ScoreInRange(result: AuditResult) {
    0 <= result.score <= 100
  }

  /** The five views of the application (types.ts:49-55). */
  datatype AppState = Landing | Audit | Analyzing | Results | Booking
  {
    function Literal(): string {
      match this
      case Landing => "LANDING"
      case Audit => "AUDIT"
      case Analyzing => "ANALYZING"
      case Results => "RESULTS"
      case Booking => "BOOKING"
    }
  }

  /** The string values of the `AppState` enum are pairwise distinct, so the five states are five values. */
  lemma AppStateLiteralsDistinct(a: AppState, b: AppState)
    ensures a.Literal() == b.Literal() <==> a == b
  {
  }
}
