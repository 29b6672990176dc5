/**
 * Choosing the landing page's content pack from the `v` query parameter
 * (components/LandingPage.tsx).
 *
 * A value is adopted when it is one of the eight base names or ends in
 * "-light"; "-light" selects the light theme and is removed to find the
 * base name, which indexes the content table. The acceptance test as
 * written lets through values whose base is not in the table, on which the
 * page fails; this module states that, and the page here uses the test the
 * `VariantKey` type describes: a base name, optionally followed by "-light".
 */
module LandingPage {
  import opened Types

  // ---------------------------------------------------------------------
  // The JavaScript string operations used
  // ---------------------------------------------------------------------

  /** `s.startsWith(prefix)`. */
  predicate StartsWith(s: string, prefix: string) {
    |prefix| <= |s| && s[..|prefix|] == prefix
  }

  /** `s.endsWith(suffix)`. */
  predicate EndsWith(s: string, suffix: string) {
    |suffix| <= |s| && s[|s| - |suffix|..] == suffix
  }

  /** `pattern` occurs in `s` starting at index `at`. */
  predicate OccursAt(s: string, pattern: string, at: int) {
    0 <= at && at + |pattern| <= |s| && s[at..at + |pattern|] == pattern
  }

  /** `s.indexOf(pattern, from)`: the first occurrence at or after `from`, or -1. */
  function IndexFrom(s: string, pattern: string, from: nat): (index: int)
    ensures index == -1 || (from <= index && OccursAt(s, pattern, index))
    ensures forall j :: from <= j && (index == -1 || j < index) ==> !OccursAt(s, pattern, j)
    decreases |s| - from
  {
    if from + |pattern| > |s| then -1
    else if OccursAt(s, pattern, from) then from
    else IndexFrom(s, pattern, from + 1)
  }

  /** `s.indexOf(pattern)`: the first occurrence, or -1 when there is none. */
  function IndexOf(s: string, pattern: string): (index: int)
    ensures index == -1 <==> forall j :: !OccursAt(s, pattern, j)
    ensures index != -1 ==> OccursAt(s, pattern, index) && forall j :: 0 <= j < index ==> !OccursAt(s, pattern, j)
  {
    IndexFrom(s, pattern, 0)
  }

  /**
   * `s.replace(pattern, replacement)` with a string pattern: only the first
   * occurrence is replaced, and a string without one is returned unchanged.
   */
  function ReplaceFirst(s: string, pattern: string, replacement: string): (r: string)
    ensures (forall j :: !OccursAt(s, pattern, j)) ==> r == s
    ensures forall i :: OccursAt(s, pattern, i) && (forall j :: 0 <= j < i ==> !OccursAt(s, pattern, j))
                        ==> r == s[..i] + replacement + s[i + |pattern|..]
    ensures (exists j :: OccursAt(s, pattern, j)) ==> |r| == |s| - |pattern| + |replacement|
  {
    var i := IndexOf(s, pattern);
    if i < 0 then s else s[..i] + replacement + s[i + |pattern|..]
  }

  const LightSuffix: string := "-light"

  /** `isLight` (components/LandingPage.tsx:35). */
  predicate IsLight(variant: string) {
    EndsWith(variant, LightSuffix)
  }

  /** `baseVariant` (components/LandingPage.tsx:36): the first "-light" removed. */
  function BaseVariant(variant: string): string {
    ReplaceFirst(variant, LightSuffix, "")
  }

  /** A light variant loses exactly six characters; a variant without "-light" is its own base. */
  lemma BaseVariantShape(variant: string)
    ensures (forall j :: !OccursAt(variant, LightSuffix, j)) ==> BaseVariant(variant) == variant
    ensures IsLight(variant) ==> |BaseVariant(variant)| == |variant| - |LightSuffix|
  {
    assert IsLight(variant) ==> OccursAt(variant, LightSuffix, |variant| - |LightSuffix|);
  }

  /** A string ends with what was appended to it. */
  lemma EndsWithAppended(s: string, suffix: string)
    ensures EndsWith(s + suffix, suffix)
  {
    assert (s + suffix)[|s|..] == suffix;
  }

  /** An occurrence of a non-empty pattern starts with the pattern's first character. */
  lemma OccursAtHead(s: string, pattern: string, at: int)
    requires |pattern| > 0
    ensures OccursAt(s, pattern, at) ==> s[at] == pattern[0]
  {
  }

  /**
   * In a name without a dash, "-light" cannot start anywhere but right
   * after it: the first "-light" of `name + "-light" + rest` is the one
   * after `name`.
   */
  lemma BaseOfDashFree(name: string, rest: string)
    requires '-' !in name
    ensures BaseVariant(name + LightSuffix + rest) == name + rest
    ensures BaseVariant(name) == name
    ensures IsLight(name + LightSuffix)
    ensures !IsLight(name)
  {
    var s := name + LightSuffix + rest;
    assert OccursAt(s, LightSuffix, |name|) by {
      assert s[|name|..|name| + 6] == LightSuffix;
    }
    forall j | 0 <= j < |name| ensures !OccursAt(s, LightSuffix, j) {
      assert s[j] == name[j] && name[j] in name;
      OccursAtHead(s, LightSuffix, j);
    }
    var i := IndexOf(s, LightSuffix);
    assert i == |name|;
    assert s[..i] + "" + s[i + 6..] == name + rest;

    forall j | 0 <= j ensures !OccursAt(name, LightSuffix, j) {
      OccursAtHead(name, LightSuffix, j);
      if j < |name| {
        assert name[j] in name;
      }
    }
    assert IndexOf(name, LightSuffix) == -1;
    if |name| >= 6 {
      assert name[|name| - 6..] == name[|name| - 6..|name| - 6 + 6];
      OccursAtHead(name, LightSuffix, |name| - 6);
      assert name[|name| - 6] in name;
    }
    assert (name + LightSuffix)[|name + LightSuffix| - 6..] == LightSuffix;
  }

  // ---------------------------------------------------------------------
  // The content table
  // ---------------------------------------------------------------------

  /** The eight base names, the keys of `contentMap` (components/LandingPage.tsx:118-225). */
  datatype Base = Default | Profit | Wage | Efficiency | Ceo | Founder | Scale | SelfRunning
  {
    function Name(): string {
      match this
      case Default => "default"
      case Profit => "profit"
      case Wage => "wage"
      case Efficiency => "efficiency"
      case Ceo => "ceo"
      case Founder => "founder"
      case Scale => "scale"
      case SelfRunning => "self"
    }
  }

  /**
   * The base `s` names, if any: one of the eight names listed in the test
   * of the mount effect (components/LandingPage.tsx:30), which are also the
   * keys `contentMap[baseVariant]` finds (components/LandingPage.tsx:227).
   */
  function BaseNamed(s: string): (base: Option<Base>)
    ensures base.Some? ==> base.value.Name() == s
    ensures base.None? ==> forall b: Base :: b.Name() != s
  {
    if s == "default" then Some(Default)
    else if s == "profit" then Some(Profit)
    else if s == "wage" then Some(Wage)
    else if s == "efficiency" then Some(Efficiency)
    else if s == "ceo" then Some(Ceo)
    else if s == "founder" then Some(Founder)
    else if s == "scale" then Some(Scale)
    else if s == "self" then Some(SelfRunning)
    else None
  }

  /** Reading a base name back gives the same base. */
  lemma NamedRoundTrip(b: Base)
    ensures BaseNamed(b.Name()) == Some(b)
  {
  }

  /** No base name contains a dash. */
  lemma NameHasNoDash(b: Base)
    ensures '-' !in b.Name()
  {
  }

  /** A string with a dash names no base. */
  lemma NoBaseWithDash(s: string)
    requires '-' in s
    ensures BaseNamed(s).None?
  {
    if BaseNamed(s).Some? {
      NameHasNoDash(BaseNamed(s).value);
    }
  }

  datatype Icon = Zap | Coins | Banknote | Users | Hourglass | Briefcase | TrendingUp | Settings

  /** The parts of a content pack the model keeps; headline, subhead and visuals are markup. */
  datatype HeroContent = HeroContent(title: string, cta: string, supporting: string, icon: Icon)

  const TrustedBy: string := "\U{2B50} Trusted by business owners " + "across Australia"

  /** `contentMap[b]` (components/LandingPage.tsx:118-225). */
  function Pack(b: Base): HeroContent {
    match b
    case Default =>
      HeroContent("AI Time Leak Audit\U{2122}", "Start the Time Leak Audit",
                  "No login required. Instant Results.", Zap)
    case Profit =>
      HeroContent("Profit Leak Locator\U{2122}", "Start the Profit Leak Locator",
                  "See exactly how much money " + "inefficient workflows are costing you " + "every week.", Coins)
    case Wage =>
      HeroContent("Wage Waste Detector\U{2122}", "Reveal My Wage Waste Score", TrustedBy, Banknote)
    case Efficiency =>
      HeroContent("Team Efficiency Breakdown\U{2122}", "Start the Efficiency Breakdown",
                  "Reveal the tasks dragging " + "productivity down \U{2014} and what AI " + "can handle instantly.", Users)
    case Ceo =>
      HeroContent("CEO Time Recovery Blueprint\U{2122}", "Start the Time Recovery Blueprint",
                  "Stop being the bottleneck \U{2014} " + "get clarity on where AI can free up " + "your time instantly.", Hourglass)
    case Founder =>
      HeroContent("Founder Workload Reset\U{2122}", "Calculate My Founder Load Score", TrustedBy, Briefcase)
    case Scale =>
      HeroContent("Scale-Without-Staff Score\U{2122}", "Start the Scale Score",
                  "See how to grow your business " + "without growing your staffing costs.", TrendingUp)
    case SelfRunning =>
      HeroContent("Self-Running Business Assessment\U{2122}", "Start the Self-Running Assessment",
                  "Find out what must change for your " + "business to operate smoothly \U{2014} " + "even when you\U{2019}re not there.", Settings)
  }

  /**
   * `contentMap[baseVariant]`, followed by `.icon`: a base name outside the
   * table gives undefined and the page throws (components/LandingPage.tsx:227-228).
   */
  function Lookup(variant: string): Option<HeroContent> {
    match BaseNamed(BaseVariant(variant))
    case Some(b) => Some(Pack(b))
    case None => None
  }

  /**
   * The supporting line gets the check-mark icon unless it starts with a
   * star (components/LandingPage.tsx:267-271).
   */
  predicate ShowsCheckIcon(supporting: string) {
    !StartsWith(supporting, "\U{2B50}")
  }

  /** A string starts with the star exactly when its first character is the star. */
  lemma StartsWithStar(s: string)
    ensures StartsWith(s, "\U{2B50}") <==> |s| > 0 && s[0] == '\U{2B50}'
  {
  }

  /** Only the "wage" and "founder" packs drop the check mark. */
  lemma CheckIconPerPack(b: Base)
    ensures ShowsCheckIcon(Pack(b).supporting) <==> b != Wage && b != Founder
  {
    StarredLines();
    PlainLinesFirstHalf();
    PlainLinesSecondHalf();
  }

  lemma StarredLines()
    ensures !ShowsCheckIcon(Pack(Wage).supporting) && !ShowsCheckIcon(Pack(Founder).supporting)
  {
    StartsWithStar(TrustedBy);
    assert TrustedBy[0] == '\U{2B50}';
  }

  lemma PlainLinesFirstHalf()
    ensures ShowsCheckIcon(Pack(Default).supporting)
    ensures ShowsCheckIcon(Pack(Profit).supporting)
    ensures ShowsCheckIcon(Pack(Efficiency).supporting)
  {
    StartsWithStar(Pack(Default).supporting);
    assert Pack(Default).supporting[0] == 'N';
    StartsWithStar(Pack(Profit).supporting);
    assert Pack(Profit).supporting[0] == 'S';
    StartsWithStar(Pack(Efficiency).supporting);
    assert Pack(Efficiency).supporting[0] == 'R';
  }

  lemma PlainLinesSecondHalf()
    ensures ShowsCheckIcon(Pack(Ceo).supporting)
    ensures ShowsCheckIcon(Pack(Scale).supporting)
    ensures ShowsCheckIcon(Pack(SelfRunning).supporting)
  {
    StartsWithStar(Pack(Ceo).supporting);
    assert Pack(Ceo).supporting[0] == 'S';
    StartsWithStar(Pack(Scale).supporting);
    assert Pack(Scale).supporting[0] == 'S';
    StartsWithStar(Pack(SelfRunning).supporting);
    assert Pack(SelfRunning).supporting[0] == 'F';
  }

  // ---------------------------------------------------------------------
  // Accepting the query parameter
  // ---------------------------------------------------------------------

  /**
   * The test of the mount effect as written (components/LandingPage.tsx:30):
   * present, non-empty, and either ending in "-light" or a base name.
   */
  predicate AcceptsAsWritten(v: Option<string>) {
    v.Some? && v.value != "" && (EndsWith(v.value, LightSuffix) || BaseNamed(v.value).Some?)
  }

  /**
   * The test as written lets through `name + "-light" + rest` for any
   * dash-free `name`, and when `name + rest` is not a base name the page
   * finds no content for it.
   */
  lemma LightSuffixAccepted(name: string, rest: string)
    requires '-' !in name
    requires rest == "" || rest == LightSuffix
    ensures AcceptsAsWritten(Some(name + LightSuffix + rest))
    ensures BaseVariant(name + LightSuffix + rest) == name + rest
    ensures BaseNamed(name + rest).None? ==> Lookup(name + LightSuffix + rest).None?
  {
    BaseOfDashFree(name, rest);
    if rest == "" {
      assert name + LightSuffix + rest == name + LightSuffix;
      EndsWithAppended(name, LightSuffix);
    } else {
      EndsWithAppended(name + LightSuffix, LightSuffix);
    }
  }

  /**
   * Values the test as written accepts whose base name is not in the table:
   * with `?v=foo-light` or `?v=self-light-light` the lookup is undefined.
   */
  lemma AcceptedWithoutContent()
    ensures var v := "foo" + LightSuffix; AcceptsAsWritten(Some(v)) && Lookup(v).None?
    ensures var v := "self" + LightSuffix + LightSuffix; AcceptsAsWritten(Some(v)) && Lookup(v).None?
  {
    UnknownNameAccepted("foo");
    SelfLightAccepted();
  }

  /** `?v=foo-light`: "foo" is no base name. */
  lemma UnknownNameAccepted(name: string)
    requires name == "foo"
    ensures AcceptsAsWritten(Some(name + LightSuffix)) && Lookup(name + LightSuffix).None?
  {
    assert name + "" == name && name + LightSuffix + "" == name + LightSuffix;
    assert BaseNamed(name).None?;
    LightSuffixAccepted(name, "");
  }

  /** `?v=self-light-light`: only the first "-light" is removed, leaving "self-light". */
  lemma SelfLightAccepted()
    ensures var v := "self" + LightSuffix + LightSuffix; AcceptsAsWritten(Some(v)) && Lookup(v).None?
  {
    var selfLight := "self" + LightSuffix;
    assert selfLight[4] == '-';
    NoBaseWithDash(selfLight);
    LightSuffixAccepted("self", LightSuffix);
  }

  /** A `VariantKey` (components/LandingPage.tsx:8-9): a base name, optionally with "-light". */
  predicate IsVariantKey(s: string) {
    BaseNamed(s).Some? || (EndsWith(s, LightSuffix) && BaseNamed(s[..|s| - |LightSuffix|]).Some?)
  }

  /** The corrected test: the value is a `VariantKey`. */
  predicate Accepts(v: Option<string>) {
    v.Some? && IsVariantKey(v.value)
  }

  /** A base name and its "-light" version: same pack, only the second is light. */
  lemma LightPairs(b: Base)
    ensures IsVariantKey(b.Name()) && IsVariantKey(b.Name() + LightSuffix)
    ensures BaseVariant(b.Name()) == b.Name() && BaseVariant(b.Name() + LightSuffix) == b.Name()
    ensures !IsLight(b.Name()) && IsLight(b.Name() + LightSuffix)
    ensures Lookup(b.Name()) == Lookup(b.Name() + LightSuffix) == Some(Pack(b))
  {
    var name := b.Name();
    NameHasNoDash(b);
    NamedRoundTrip(b);
    BaseOfDashFree(name, "");
    assert name + LightSuffix + "" == name + LightSuffix;
    assert (name + LightSuffix)[..|name + LightSuffix| - 6] == name;
  }

  /** Every variant key finds its content, and exactly the "-light" keys are light. */
  lemma VariantKeyHasContent(variant: string)
    requires IsVariantKey(variant)
    ensures Lookup(variant).Some?
    ensures IsLight(variant) <==> BaseNamed(variant).None?
  {
    if BaseNamed(variant).Some? {
      LightPairs(BaseNamed(variant).value);
    } else {
      var name := variant[..|variant| - 6];
      assert variant[|variant| - 6..] == LightSuffix;
      assert variant == name + LightSuffix;
      LightPairs(BaseNamed(name).value);
    }
  }

  /** The corrected test only narrows the one as written. */
  lemma AcceptsNarrowsAsWritten(v: Option<string>)
    ensures Accepts(v) ==> AcceptsAsWritten(v)
  {
  }

  // ---------------------------------------------------------------------
  // The component
  // ---------------------------------------------------------------------

  class Landing {
    var variant: string

    ghost predicate Valid()
      reads this
    {
      IsVariantKey(variant)
    }

    /** `useState<VariantKey>('default')` (components/LandingPage.tsx:24). */
    constructor ()
      ensures variant == "default" && Valid()
    {
      variant := "default";
    }

    /** The mount effect (components/LandingPage.tsx:26-33), with the corrected test. */
    method OnMount(v: Option<string>)
      requires Valid()
      modifies this
      ensures Valid()
      ensures variant == if Accepts(v) then v.value else old(variant)
    {
      if Accepts(v) {
        variant := v.value;
      }
    }

    /**
     * The mount effect as written (components/LandingPage.tsx:26-33): it can
     * leave a variant with no content pack, see AcceptedWithoutContent.
     */
    method OnMountAsWritten(v: Option<string>)
      modifies this
      ensures variant == if AcceptsAsWritten(v) then v.value else old(variant)
    {
      if AcceptsAsWritten(v) {
        variant := v.value;
      }
    }

    /** `currentContent`: always defined on a variant key. */
    function CurrentContent(): (content: HeroContent)
      reads this
      requires Valid()
      ensures Lookup(variant) == Some(content)
    {
      VariantKeyHasContent(variant);
      Lookup(variant).value
    }
  }
}
