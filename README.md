# Time Leak Audit — a verified model of the scoring and flow logic

The application is a lead-generation web app. A visitor lands on a themed
landing page and answers a four-step questionnaire, the "AI Time Leak
Audit". They then receive a Time Leak Score with an AI-written analysis and
may book a call. This project models the deterministic layer beneath the
markup, one Dafny module per source file:

| module | source | form |
|---|---|---|
| `Types` (types.dfy) | types.ts | datatypes for the questionnaire answers, the analysis, the five application states, plus range predicates |
| `Scoring` (scoring.dfy) | services/geminiService.ts | the raw score as an accumulator method, the 0-100 visual score, the tier, and the analysis with its fallback |
| `Questionnaire` (questionnaire.dfy) | components/AuditForm.tsx | class `AuditForm` with the fields `step`, `formData` and `isStepValid`, the per-step validation switch, and `trim` |
| `ResultsPage` (resultspage.dfy) | components/ResultsPage.tsx | headcount per team-size bucket, capacity split, score label, colour and impact badge |
| `AppShell` (appshell.dfy) | App.tsx | class `App` with the fields `appState`, `inputs` and `results`, its handlers, the render guard and the readiness band |
| `LandingPage` (landingpage.dfy) | components/LandingPage.tsx | `startsWith`, `endsWith`, `indexOf` and `replace`, the content table, the `v` parameter test, and class `Landing` |

The central facts proved:

- **The score.** The raw score is one point per "yes" among eight answers
  plus `confidence - 1`. It is 0..12 when the confidence rating is 1..5, and
  nothing else in the answers affects it.
- **The visual score.** `Math.min(Math.round(raw / 12 * 100), 100)` is exactly
  the integer `(100 * raw + 6) / 12`, capped at 100, because `100 * raw / 12`
  is never a tie. It is monotone, and it maps 0..12 onto 0..100.
- **The analysis.** It always carries the locally computed score, whether the
  AI call's data arrives or the fixed fallback is used.
- **The questionnaire.** Its invariant is that every step below the current
  one is complete. That is what makes the `formData as AuditInputs` cast at
  step 4 sound. A step's validation switch holds exactly when every field
  shown on that step is answered.
- **The application state.** The results view is never hidden by the render
  guard while the state is consistent. The readiness band sent to analytics
  agrees with the label and colour on the results page.
- **The landing page.** The `v` test as written accepts values for which no
  content exists (see Findings). The corrected test guarantees the lookup.

The generative-AI request is an oracle. Its outcome (`Thrown`, `NoText`,
`Unparsable` or `Parsed(data)`) is a parameter of `GenerateAuditAnalysis`.
The query string, analytics, the webhook and the clock are not modelled.

The catch block in App.tsx (lines 73-77) sets the state back to LANDING and
leaves `inputs` set; `AppShell.App.FailAnalysis` follows it.

A comment in services/geminiService.ts (lines 41-43) says the tiers map to
the bands 0-30, 40-70 and 80-100 on the gauge. The formula actually gives
0-25, 33-58 and 67-100 (`Scoring.LevelBands`). The model follows the formula.

## Model

| member | source | states |
|---|---|---|
| Types.AppStateLiteralsDistinct | types.ts:49-55 | the five application states have five distinct string values |
| Scoring.RawScore | services/geminiService.ts:14-29 | the raw score is `confidence - 1` plus between 0 and 8 points |
| Scoring.CountTrue | services/geminiService.ts:16-26 | the count of "yes" answers is at most the number of questions |
| Scoring.CountTrueNoneAll | services/geminiService.ts:16-26 | the count is 0 exactly when every answer is "no" and full exactly when every answer is "yes" |
| Scoring.CountEight | services/geminiService.ts:16-26 | the count of eight answers is the sum of their one-point-per-"yes" terms |
| Scoring.CountTrueSetOne | services/geminiService.ts:16-26 | turning one "no" into "yes" adds exactly one to the count |
| Scoring.RawScoreTerms | services/geminiService.ts:14-29 | the raw score is the sum of the eight 0/1 answer terms plus `confidence - 1` |
| Scoring.ComputeRawScore | services/geminiService.ts:14-29 | the nine `+=` steps compute the raw score; with confidence in 1..5 it lies in 0..12 |
| Scoring.RawScoreRange | services/geminiService.ts:17-29 | confidence in 1..5 bounds the raw score to 0..12 |
| Scoring.RawScoreExtremes | services/geminiService.ts:14-29 | all "yes" with confidence 5 scores 12; all "no" with confidence 1 scores 0 |
| Scoring.VisualScore | services/geminiService.ts:45 | the visual score is the nearest integer to `raw * 100 / 12`, capped at 100; at or above 12 it is 100 |
| Scoring.NoRoundingTie | services/geminiService.ts:45 | `raw * 100 / 12` is never exactly halfway between integers |
| Scoring.VisualScoreMonotone | services/geminiService.ts:45 | a higher raw score never gives a lower visual score |
| Scoring.VisualScoreRange | services/geminiService.ts:45 | a raw score in 0..12 gives a visual score in 0..100 |
| Scoring.LevelOf | services/geminiService.ts:56 | Advanced iff raw >= 8, Intermediate iff 4 <= raw < 8, Foundational iff raw < 4 |
| Scoring.LevelBands | services/geminiService.ts:41-56 | the tiers land on 0-25, 33-58 and 67-100 of the gauge |
| Scoring.LevelMonotone | services/geminiService.ts:56 | the tier only rises with the raw score |
| Scoring.Fallback | services/geminiService.ts:128-137 | the fallback keeps the given score and supplies 40 hours, "$100,000+" and two High recommendations |
| Scoring.Analysis | services/geminiService.ts:12-139 | the result's score is the visual score (in 0..100 for valid answers) whatever the response; parsed data supplies summary, hours, savings and recommendations, and a payload score is overridden; on any failure the result is the fallback |
| Scoring.GenerateAuditAnalysis | services/geminiService.ts:12-139 | the score accumulated step by step yields exactly the analysis `Scoring.Analysis` describes for the answers and the response |
| Scoring.ScoreIgnoresOtherAnswers | services/geminiService.ts:14-45 | the contact details and the categorical answers never change the raw or visual score |
| Scoring.YesAddsOnePoint | services/geminiService.ts:16-26 | answering one more question "yes" adds exactly one raw point |
| Questionnaire.TrimStartSpec | components/AuditForm.tsx:46-47 | `trim`'s left half removes exactly the leading whitespace |
| Questionnaire.TrimEndSpec | components/AuditForm.tsx:46-47 | `trim`'s right half removes exactly the trailing whitespace |
| Questionnaire.Trim | components/AuditForm.tsx:46-47 | `s.trim()` is no longer than `s`, and a non-empty result neither starts nor ends with whitespace |
| Questionnaire.TrimEmptyIffBlank | components/AuditForm.tsx:46-47 | `s.trim()` is empty exactly when every character of `s` is whitespace |
| Questionnaire.Get | components/AuditForm.tsx:99 | a field's value always has that field's type or is null |
| Questionnaire.Put | components/AuditForm.tsx:99-101 | the spread update sets the named field and leaves every other field as it was |
| Questionnaire.StepOf | components/AuditForm.tsx:165-366 | every field except `phone` is shown on exactly one of the steps 1..4 |
| Questionnaire.StepValid | components/AuditForm.tsx:42-74 | the switch accepts only steps 1..4; what it demands of each is stated by `StepValidIffAnswered` |
| Questionnaire.StepValidIffAnswered | components/AuditForm.tsx:42-74 | the switch accepts a step exactly when every field shown on it is answered: non-blank name and email, every other field non-null |
| Questionnaire.StepValidFrame | components/AuditForm.tsx:41-76 | writing a field on another step never changes a step's validity |
| Questionnaire.AsInputs | components/AuditForm.tsx:86-87 | the cast of a complete record has a non-blank name and email, the record's phone, and a confidence in 1..5 when the buttons wrote it |
| Questionnaire.AuditForm.constructor | components/AuditForm.tsx:15-38 | step 1, name and email empty, every other field null, step invalid; the invariant holds |
| Questionnaire.AuditForm.Revalidate | components/AuditForm.tsx:41-76 | the validity flag is the switch's verdict on the current step |
| Questionnaire.AuditForm.HandleNext | components/AuditForm.tsx:80-90 | an invalid step changes nothing; a valid step below 4 advances by one; a valid step 4 emits the record, which is complete, has confidence in 1..5 and no phone; the invariant is kept |
| Questionnaire.AuditForm.HandleBack | components/AuditForm.tsx:92-97 | step decreases by one above 1 and stays at 1; the answers are unchanged; the invariant is kept |
| Questionnaire.AuditForm.UpdateField | components/AuditForm.tsx:99-101 | the record becomes the old record with the one field replaced; step and flag are untouched |
| Questionnaire.AuditForm.Edit | components/AuditForm.tsx:165-366 | a control of the current step writing a value it can produce keeps the invariant that every earlier step is complete |
| ResultsPage.AvgTeamSize | components/ResultsPage.tsx:24-29 | each bucket's headcount lies inside the bucket, and any other label counts as 60 |
| ResultsPage.HeadcountFollowsBuckets | components/ResultsPage.tsx:24-29 | a larger team-size bucket gets a strictly larger headcount |
| ResultsPage.TotalWeeklyHours | components/ResultsPage.tsx:32 | whole forty-hour weeks, lying inside the bucket's headcount range times forty |
| ResultsPage.ProductiveHours | components/ResultsPage.tsx:34 | productive hours are the least value that is at least 0 and at least total minus wasted |
| ResultsPage.CapacitySplit | components/ResultsPage.tsx:31-34 | when the wasted hours fit in the week, productive plus wasted is the whole week; otherwise productive is 0 |
| ResultsPage.ScoreColor | components/ResultsPage.tsx:41-45 | emerald iff score < 30, yellow iff 30 <= score < 60, red iff score >= 60 |
| ResultsPage.ScoreLabel | components/ResultsPage.tsx:47-51 | "Optimized" iff score < 30, "Moderate Leaks" iff 30 <= score < 60, "Critical Leak Alert" iff score >= 60 |
| ResultsPage.LabelAndColorAgree | components/ResultsPage.tsx:41-51 | the colour is always the one that goes with the label |
| ResultsPage.ScoreColorMonotone | components/ResultsPage.tsx:41-45 | a higher score never shows a less severe colour |
| ResultsPage.LabelMatchesLevel | components/ResultsPage.tsx:47-51 | Foundational reads "Optimized", Intermediate "Moderate Leaks" and Advanced "Critical Leak Alert" |
| ResultsPage.ImpactBadge | components/ResultsPage.tsx:152-153 | emerald iff High, yellow iff Medium, slate otherwise |
| ResultsPage.RecommendationCards | components/ResultsPage.tsx:146-161 | one card per recommendation, in order, each with its title, description, impact and badge |
| ResultsPage.FallbackCards | components/ResultsPage.tsx:146-161 | the fallback analysis shows two cards, both with the emerald badge |
| AppShell.ComputeReadinessBand | App.tsx:62-64 | low iff score < 30, medium iff 30 <= score < 60, high iff score >= 60 |
| AppShell.BandMatchesLabel | App.tsx:62-64 | the band reported to analytics matches the results page's label |
| AppShell.App.constructor | App.tsx:12-14 | the state is LANDING with no answers and no analysis |
| AppShell.App.View | App.tsx:96-126 | each state shows its view; the results view only with both answers and analysis present; RESULTS without them shows nothing |
| AppShell.App.ConsistentResultsAreShown | App.tsx:114 | in a consistent state the guard never hides the results view |
| AppShell.App.HandleStartAudit | App.tsx:21-22 | the state becomes AUDIT; answers and analysis untouched |
| AppShell.App.BeginAnalysis | App.tsx:32-34 | the answers are stored and the state becomes ANALYZING |
| AppShell.App.FinishAnalysis | App.tsx:51-65 | the stored results are exactly `Scoring.Analysis` of the answers and the response (the AI data on success, the fallback otherwise), whose score is computed from the stored answers; the state becomes RESULTS; the band returned matches the score |
| AppShell.App.FailAnalysis | App.tsx:73-77 | the state becomes LANDING; the answers are kept |
| AppShell.App.HandleRestart | App.tsx:80-84 | from any state: LANDING with no answers and no analysis |
| AppShell.App.HandleBookCall | App.tsx:86-88 | the state becomes BOOKING unconditionally; nothing else changes |
| AppShell.App.HandleBackToResults | App.tsx:90-92 | the state becomes RESULTS unconditionally; nothing else changes |
| AppShell.Journey | App.tsx:21-92 | start, complete, receive the analysis, book and come back end on the results view showing `Scoring.Analysis` of the answers, with the local score in 0..100 and its band |
| AppShell.HighestScoreScenario | services/geminiService.ts:14-56 | all "yes" with confidence 5: raw 12, gauge 100, Advanced, "Critical Leak Alert", band high |
| AppShell.LowestScoreScenario | services/geminiService.ts:14-56 | all "no" with confidence 1: raw 0, gauge 0, Foundational, "Optimized", band low |
| LandingPage.IndexFrom | components/LandingPage.tsx:36 | the first occurrence of the pattern at or after the start position, or -1 when there is none |
| LandingPage.IndexOf | components/LandingPage.tsx:36 | -1 exactly when the pattern does not occur; otherwise the first position where it occurs |
| LandingPage.ReplaceFirst | components/LandingPage.tsx:36 | a string without the pattern is unchanged; otherwise only the first occurrence is replaced, changing the length by the difference of the two lengths |
| LandingPage.IsLight | components/LandingPage.tsx:35 | `variant.endsWith('-light')`; `LightPairs` and `VariantKeyHasContent` state which keys are light |
| LandingPage.BaseVariant | components/LandingPage.tsx:36 | `variant.replace('-light', '')`; `BaseVariantShape` and `BaseOfDashFree` state what it leaves |
| LandingPage.BaseVariantShape | components/LandingPage.tsx:35-36 | a light variant's base is six characters shorter; a variant without "-light" is its own base |
| LandingPage.BaseOfDashFree | components/LandingPage.tsx:35-36 | for a name without a dash, the first "-light" of `name + "-light" + rest` is the one after the name; the name alone is not light |
| LandingPage.BaseNamed | components/LandingPage.tsx:30 | the base named by a string, if there is one: the match has exactly that name, and no base has the name when there is none |
| LandingPage.NamedRoundTrip | components/LandingPage.tsx:8 | reading a base's name back gives the same base |
| LandingPage.NameHasNoDash | components/LandingPage.tsx:8 | no base name contains a dash |
| LandingPage.Pack | components/LandingPage.tsx:118-225 | the content table's title, call to action, supporting line and icon per base; `CheckIconPerPack` states what the page makes of the supporting lines |
| LandingPage.Lookup | components/LandingPage.tsx:227-228 | `contentMap[baseVariant]`, undefined outside the table; `VariantKeyHasContent` and `AcceptedWithoutContent` state when it is defined |
| LandingPage.ShowsCheckIcon | components/LandingPage.tsx:267 | the check icon is shown unless the supporting line starts with a star; `CheckIconPerPack` states for which packs |
| LandingPage.CheckIconPerPack | components/LandingPage.tsx:267-271 | the supporting line drops the check icon exactly for the "wage" and "founder" packs, whose lines start with a star |
| LandingPage.AcceptsAsWritten | components/LandingPage.tsx:30 | the test as written: present, non-empty, and ending in "-light" or a base name; `LightSuffixAccepted` states what it lets through |
| LandingPage.LightSuffixAccepted | components/LandingPage.tsx:30 | every `name + "-light"` with a dash-free name passes the test as written; when its base is unknown, the lookup fails |
| LandingPage.AcceptedWithoutContent | components/LandingPage.tsx:30 | "foo-light" and "self-light-light" pass the test as written, but no content exists for them |
| LandingPage.UnknownNameAccepted | components/LandingPage.tsx:30 | "foo-light" passes the test as written and finds no content |
| LandingPage.SelfLightAccepted | components/LandingPage.tsx:30 | "self-light-light" passes the test as written and finds no content, because only the first "-light" is removed |
| LandingPage.IsVariantKey | components/LandingPage.tsx:9 | a base name, optionally followed by "-light"; `VariantKeyHasContent` states that each finds content |
| LandingPage.LightPairs | components/LandingPage.tsx:35-36 | for each base X, X and X-light are both variant keys with base X and the same content; only X-light is light |
| LandingPage.VariantKeyHasContent | components/LandingPage.tsx:227-228 | every variant key finds content, and a key is light exactly when it is not a bare base name |
| LandingPage.AcceptsNarrowsAsWritten | components/LandingPage.tsx:30 | the corrected test accepts nothing the test as written rejects |
| LandingPage.Landing.constructor | components/LandingPage.tsx:24 | the variant starts as "default" |
| LandingPage.Landing.OnMount | components/LandingPage.tsx:26-33 | a variant key from `v` is adopted, and any other value leaves the variant unchanged; the variant is always a key |
| LandingPage.Landing.OnMountAsWritten | components/LandingPage.tsx:26-33 | the effect as written adopts exactly the values its test accepts |
| LandingPage.Landing.CurrentContent | components/LandingPage.tsx:227-228 | the current content is the table's entry for the variant's base, which always exists |

## Left out

- The generative-AI SDK call and the prompt text (services/geminiService.ts:4-10, 50-113). The response is an input. Parsed data is trusted to have the schema's fields.
- The webhook (services/webhookService.ts) and the booking iframe (components/BookingPage.tsx). They are network I/O and third-party markup; services/webhookService.ts and components/BookingPage.tsx are not part of this model.
- Analytics calls (`gtag`, `fbq`), `window.scrollTo` and `window.print`. These are side effects with no bearing on state. Only the readiness band's value is modelled.
- The variant name read by App.tsx from a `variant` parameter, while the landing page reads `v`. Both are URL reading; the parameter value is an input.
- The two-second minimum loading time and the concurrency of `handleAuditComplete` (App.tsx:36-55). The handler is split into BeginAnalysis, then FinishAnalysis or FailAnalysis.
- AppShell.App.FinishAnalysis: does not require the state to be ANALYZING. The source does not check it either; consistency is promised only from ANALYZING.
- React effect timing. `isStepValid` is recomputed synchronously after each change (`Revalidate`), not after a render.
- Floating-point display rounding of chart values, the hours figure and the progress bar. The hour values are reals, with no rounding.
- JSX markup, Tailwind classes, the hero visuals, headlines and gradients of the landing packs, and the charts.
- The stray JSX expression at components/ResultsPage.tsx:17-22. It is evaluated and discarded.
- Questionnaire.AuditForm.Edit: models the controls as writing any value of the field's type (confidence only 1..5). It does not model the individual option lists shown on screen.
- `phone`: types.ts:5 declares it required, but the form never sets it, so the model keeps it optional (`Option<string>`).

## Findings

| source | as written | input that shows it | evidently intended | confidence | as-written member | corrected member |
|---|---|---|---|---|---|---|
| components/LandingPage.tsx:30 | the mount effect adopts any `v` ending in "-light", whatever comes before it | `?v=foo-light` or `?v=self-light-light`: the base ("foo", "self-light") is not in `contentMap`, so `currentContent` is undefined and `currentContent.icon` throws | adopt only a `VariantKey`: a base name, optionally followed by "-light" | not executed | LandingPage.AcceptedWithoutContent | LandingPage.VariantKeyHasContent |
