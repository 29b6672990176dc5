/**
 * The top-level application state (App.tsx): which of the five views is
 * shown, the completed questionnaire and the analysis of it, and the
 * handlers the views call.
 *
 * Completing the questionnaire is two steps here: BeginAnalysis stores the
 * answers and shows the analysing view; then FinishAnalysis stores the
 * analysis and shows the results, or FailAnalysis returns to the landing
 * view when something in that pipeline throws.
 */
module AppShell {
  import opened Types
  import Scoring
  import ResultsPage

  /** What the component renders (App.tsx:104-127). */
  datatype Screen = ShowLanding | ShowAudit | ShowAnalyzing | ShowResults | ShowBooking | ShowNothing

  /** The `readiness_band` reported with `assessment_completed`. */
  datatype ReadinessBand = BandLow | BandMedium | BandHigh
  {
    function Literal(): string {
      match this
      case BandLow => "low"
      case BandMedium => "medium"
      case BandHigh => "high"
    }
  }

  predicate IsReadinessBand(score: int, band: ReadinessBand) {
    && (band == BandLow <==> score < 30)
    && (band == BandMedium <==> 30 <= score < 60)
    && (band == BandHigh <==> score >= 60)
  }

  /**
   * `readinessBand` starts at 'high' and is lowered by an if-chain
   * (App.tsx:62-64).
   */
  method ComputeReadinessBand(score: int) returns (band: ReadinessBand)
    ensures IsReadinessBand(score, band)
  {
    band := BandHigh;
    if score < 30 {
      band := BandLow;
    } else if score < 60 {
      band := BandMedium;
    }
  }

  /**
   * The band reported to analytics is the band the results page shows:
   * low is "Optimized", medium "Moderate Leaks", high "Critical Leak Alert".
   */
  lemma BandMatchesLabel(score: int, band: ReadinessBand)
    requires IsReadinessBand(score, band)
    ensures band == BandLow <==> ResultsPage.ScoreLabel(score) == "Optimized"
    ensures band == BandMedium <==> ResultsPage.ScoreLabel(score) == "Moderate Leaks"
    ensures band == BandHigh <==> ResultsPage.ScoreLabel(score) == "Critical Leak Alert"
  {
  }

  class App {
    var appState: AppState
    var inputs: Option<AuditInputs>
    var results: Option<AuditResult>

    /**
     * What the views rely on: the analysing view has answers, and the
     * results and booking views have both answers and an analysis.
     */
    ghost predicate Consistent()
      reads this
    {
      && (appState == Analyzing ==> inputs.Some?)
      && (appState == Results || appState == Booking ==> inputs.Some? && results.Some?)
    }

    /** App.tsx:12-14. */
    constructor ()
      ensures appState == Landing && inputs.None? && results.None?
      ensures Consistent()
    {
      appState := Landing;
      inputs := None;
      results := None;
    }

    /**
     * The view rendered: the results page only when the state is RESULTS
     * and both the answers and the analysis are present (App.tsx:96-126).
     */
    function View(): (screen: Screen)
      reads this
      ensures screen == ShowResults <==> appState == Results && inputs.Some? && results.Some?
      ensures screen == ShowNothing <==> appState == Results && (inputs.None? || results.None?)
      ensures screen == ShowLanding <==> appState == Landing
      ensures screen == ShowAudit <==> appState == Audit
      ensures screen == ShowAnalyzing <==> appState == Analyzing
      ensures screen == ShowBooking <==> appState == Booking
    {
      match appState
      case Landing => ShowLanding
      case Audit => ShowAudit
      case Analyzing => ShowAnalyzing
      case Results => if inputs.Some? && results.Some? then ShowResults else ShowNothing
      case Booking => ShowBooking
    }

    /** While the views are consistent, the guard never hides the results page. */
    lemma ConsistentResultsAreShown()
      requires Consistent() && appState == Results
      ensures View() == ShowResults
    {
    }

    /** handleStartAudit (App.tsx:21-22); the analytics event is not modelled. */
    method HandleStartAudit()
      modifies this
      ensures appState == Audit
      ensures inputs == old(inputs) && results == old(results)
      ensures Consistent()
    {
      appState := Audit;
    }

    /** The first two statements of handleAuditComplete (App.tsx:32-34). */
    method BeginAnalysis(data: AuditInputs)
      modifies this
      ensures inputs == Some(data) && appState == Analyzing
      ensures results == old(results)
      ensures Consistent()
    {
      inputs := Some(data);
      appState := Analyzing;
    }

    /**
     * The analysis of `data` arrived (App.tsx:51-65): it is stored, the
     * results view is shown, and the band reported with
     * `assessment_completed` is returned.
     */
    method FinishAnalysis(data: AuditInputs, response: Scoring.AiResponse) returns (band: ReadinessBand)
      modifies this
      ensures appState == Results && inputs == old(inputs)
      ensures results == Some(Scoring.Analysis(data, response))
      ensures old(inputs) == Some(data) ==> results.value.score == Scoring.VisualScore(Scoring.RawScore(inputs.value))
      ensures ValidInputs(data) ==> ScoreInRange(results.value)
      ensures IsReadinessBand(results.value.score, band)
      ensures old(appState) == Analyzing && old(Consistent()) ==> Consistent()
    {
      var analysisResult := Scoring.GenerateAuditAnalysis(data, response);
      results := Some(analysisResult);
      appState := Results;
      band := ComputeReadinessBand(analysisResult.score);
    }

    /**
     * The catch block of handleAuditComplete (App.tsx:73-77): back to the
     * landing view; the stored answers (and any analysis already stored)
     * are kept, not cleared.
     */
    method FailAnalysis()
      modifies this
      ensures appState == Landing
      ensures inputs == old(inputs) && results == old(results)
      ensures Consistent()
    {
      appState := Landing;
    }

    /** handleRestart (App.tsx:80-84), from any state. */
    method HandleRestart()
      modifies this
      ensures appState == Landing && inputs.None? && results.None?
      ensures Consistent()
    {
      appState := Landing;
      inputs := None;
      results := None;
    }

    /** handleBookCall (App.tsx:86-88): unconditional. */
    method HandleBookCall()
      modifies this
      ensures appState == Booking
      ensures inputs == old(inputs) && results == old(results)
      ensures old(appState) == Results && old(Consistent()) ==> Consistent()
    {
      appState := Booking;
    }

    /** handleBackToResults (App.tsx:90-92): unconditional. */
    method HandleBackToResults()
      modifies this
      ensures appState == Results
      ensures inputs == old(inputs) && results == old(results)
      ensures old(appState) == Booking && old(Consistent()) ==> Consistent()
    {
      appState := Results;
    }
  }

  /**
   * A visitor's whole journey through the handlers, each called from the
   * view that shows its button: start, complete the questionnaire, receive
   * the analysis, book a call, come back. The score shown is the locally
   * computed one, whatever the AI call did, and the results page is on
   * screen at the end.
   */
  method Journey(data: AuditInputs, response: Scoring.AiResponse)
    returns (shown: Screen, analysis: AuditResult, score: int, band: ReadinessBand)
    requires ValidInputs(data)
    ensures shown == ShowResults
    ensures analysis == Scoring.Analysis(data, response)
    ensures score == Scoring.VisualScore(Scoring.RawScore(data)) && 0 <= score <= 100
    ensures IsReadinessBand(score, band)
  {
    var app := new App();
    app.HandleStartAudit();
    app.BeginAnalysis(data);
    band := app.FinishAnalysis(data, response);
    analysis := app.results.value;
    score := analysis.score;
    app.HandleBookCall();
    app.HandleBackToResults();
    app.ConsistentResultsAreShown();
    shown := app.View();
  }

  /**
   * The worked example with the 11-25 bucket: every answer "yes" and full
   * confidence scores 12 raw, 100 on the gauge, "Critical Leak Alert", band
   * high.
   */
  lemma HighestScoreScenario(inputs: AuditInputs)
    requires inputs.teamSize == ElevenToTwentyFive
    requires forall i :: 0 <= i < 8 ==> Scoring.Flags(inputs)[i]
    requires inputs.confidenceInCapturingCosts == 5
    ensures Scoring.RawScore(inputs) == 12
    ensures Scoring.VisualScore(Scoring.RawScore(inputs)) == 100
    ensures Scoring.LevelOf(Scoring.RawScore(inputs)) == Advanced
    ensures ResultsPage.ScoreLabel(Scoring.VisualScore(Scoring.RawScore(inputs))) == "Critical Leak Alert"
    ensures IsReadinessBand(Scoring.VisualScore(Scoring.RawScore(inputs)), BandHigh)
    ensures ResultsPage.TotalWeeklyHours(inputs.teamSize.Literal()) == 720
  {
    Scoring.RawScoreExtremes(inputs);
  }

  /** Every answer "no" and the lowest confidence: 0 raw, 0 on the gauge, band low. */
  lemma LowestScoreScenario(inputs: AuditInputs)
    requires forall i :: 0 <= i < 8 ==> !Scoring.Flags(inputs)[i]
    requires inputs.confidenceInCapturingCosts == 1
    ensures Scoring.RawScore(inputs) == 0
    ensures Scoring.VisualScore(Scoring.RawScore(inputs)) == 0
    ensures Scoring.LevelOf(Scoring.RawScore(inputs)) == Foundational
    ensures ResultsPage.ScoreLabel(Scoring.VisualScore(Scoring.RawScore(inputs))) == "Optimized"
    ensures IsReadinessBand(Scoring.VisualScore(Scoring.RawScore(inputs)), BandLow)
  {
    Scoring.RawScoreExtremes(inputs);
  }
}
