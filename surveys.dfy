/**
 * Survey kinds, the normalisation of their identifiers, and the onboarding
 * survey's step sequence.
 */
module Surveys {
  import opened Wrappers
  import opened OutcomeValues

  // ---------------------------------------------------------------------------
  // Survey
  // ---------------------------------------------------------------------------

  datatype Survey = Onboard | CheckIn | RangeOfMotion {
    function RawValue(): string {
      match this
      case Onboard => "Onboard"
      case CheckIn => "Check In"
      case RangeOfMotion => "Range of Motion"
    }
  }

  /** `Survey.allCases`, in declaration order. */
  const AllSurveys: seq<Survey> := [Onboard, CheckIn, RangeOfMotion]

  /** `Survey(rawValue:)`. */
  function SurveyFromRaw(s: string): (r: Option<Survey>)
    ensures r.Some? ==> r.value.RawValue() == s
    ensures forall v: Survey :: v.RawValue() == s ==> r == Some(v)
  {
    if s == "Onboard" then Some(Onboard)
    else if s == "Check In" then Some(CheckIn)
    else if s == "Range of Motion" then Some(RangeOfMotion)
    else None
  }

  /** Three cases in declaration order, every case listed, raw values distinct. */
  lemma SurveyCases()
    ensures |AllSurveys| == 3
    ensures forall v: Survey :: v in AllSurveys
    ensures forall i, j :: 0 <= i < j < |AllSurveys| ==> AllSurveys[i].RawValue() != AllSurveys[j].RawValue()
  {
    forall v: Survey ensures v in AllSurveys {
      match v
      case Onboard => assert AllSurveys[0] == v;
      case CheckIn => assert AllSurveys[1] == v;
      case RangeOfMotion => assert AllSurveys[2] == v;
    }
    forall i, j | 0 <= i < j < |AllSurveys|
      ensures AllSurveys[i].RawValue() != AllSurveys[j].RawValue()
    {
      assert SurveyFromRaw(AllSurveys[i].RawValue()) == Some(AllSurveys[i]);
    }
  }

  /**
   * The survey implementations (`Surveyable` conformers). Only `Onboard` is part
   * of this model in full; `CheckIn` and `RangeOfMotion` appear through their
   * survey type and identifier.
   */
  datatype Surveyable = OnboardSurvey | CheckInSurvey | RangeOfMotionSurvey {
    /** `static var surveyType`. */
    function SurveyType(): Survey {
      match this
      case OnboardSurvey => Onboard
      case CheckInSurvey => CheckIn
      case RangeOfMotionSurvey => RangeOfMotion
    }

    /** The instance `identifier()`, which defers to the static one. */
    function Identifier(): (r: string)
      ensures r == StaticIdentifier(SurveyType())
    {
      StaticIdentifier(SurveyType())
    }
  }

  /** `Survey.type()`: the implementation for each survey; total over all cases. */
  function SurveyTypeOf(s: Survey): (r: Surveyable)
    ensures r.SurveyType() == s
    ensures s == Onboard ==> r == OnboardSurvey
  {
    match s
    case Onboard => OnboardSurvey
    case CheckIn => CheckInSurvey
    case RangeOfMotion => RangeOfMotionSurvey
  }

  // ---------------------------------------------------------------------------
  // Identifier normalisation: lowercased(), then trimmingCharacters(in: .whitespacesAndNewlines)
  // ---------------------------------------------------------------------------

  predicate IsUpper(c: char) { 'A' <= c <= 'Z' }

  function LowerChar(c: char): (r: char)
    ensures !IsUpper(r)
    ensures !IsUpper(c) ==> r == c
  {
    if IsUpper(c) then (c as int - 'A' as int + 'a' as int) as char else c
  }

  /** Unicode's White_Space characters, the set `.whitespacesAndNewlines` stands for. */
  predicate IsWhitespace(c: char) {
    || ('\U{9}' <= c <= '\U{D}') || c == ' ' || c == '\U{85}' || c == '\U{A0}'
    || c == '\U{1680}' || ('\U{2000}' <= c <= '\U{200A}') || c == '\U{2028}' || c == '\U{2029}'
    || c == '\U{202F}' || c == '\U{205F}' || c == '\U{3000}'
  }

  /** No letter of `IsWhitespace` is upper-case, so lowercasing never creates or removes whitespace. */
  lemma WhitespaceIsNotUpper(c: char)
    ensures IsWhitespace(c) ==> !IsUpper(c)
    ensures IsWhitespace(LowerChar(c)) <==> IsWhitespace(c)
  {
  }

  function Lowercased(s: string): (r: string)
    ensures |r| == |s|
    ensures forall i :: 0 <= i < |r| ==> r[i] == LowerChar(s[i])
  {
    seq(|s|, i requires 0 <= i < |s| => LowerChar(s[i]))
  }

  /** Drops leading whitespace. */
  function TrimStart(s: string): (r: string)
    ensures |r| <= |s| && r == s[|s| - |r|..]
    ensures forall i :: 0 <= i < |s| - |r| ==> IsWhitespace(s[i])
    ensures r != [] ==> !IsWhitespace(r[0])
    decreases |s|
  {
    if s != [] && IsWhitespace(s[0]) then TrimStart(s[1..]) else s
  }

  /** Drops trailing whitespace. */
  function TrimEnd(s: string): (r: string)
    ensures |r| <= |s| && r == s[..|r|]
    ensures forall i :: |r| <= i < |s| ==> IsWhitespace(s[i])
    ensures r != [] ==> !IsWhitespace(r[|r| - 1])
    decreases |s|
  {
    if s != [] && IsWhitespace(s[|s| - 1]) then TrimEnd(s[..|s| - 1]) else s
  }

  /** `trimmingCharacters(in: .whitespacesAndNewlines)`: a slice of `s` with no whitespace at either end. */
  function Trimmed(s: string): (r: string)
    ensures exists a, b :: 0 <= a <= b <= |s| && r == s[a..b]
    ensures r != [] ==> !IsWhitespace(r[0]) && !IsWhitespace(r[|r| - 1])
  {
    var t := TrimStart(s);
    var r := TrimEnd(t);
    assert r == s[|s| - |t|..|s| - |t| + |r|];
    r
  }

  /** The normalisation applied to a survey's raw value to make its identifier. */
  function Normalised(s: string): string {
    Trimmed(Lowercased(s))
  }

  /** `static func identifier()`: the survey's raw value, lower-cased, then trimmed. */
  function StaticIdentifier(s: Survey): string {
    Normalised(s.RawValue())
  }

  /** A normalised string has no upper-case letter and no whitespace at either end. */
  lemma NormalisedShape(s: string)
    ensures forall i :: 0 <= i < |Normalised(s)| ==> !IsUpper(Normalised(s)[i])
    ensures Normalised(s) != [] ==>
      !IsWhitespace(Normalised(s)[0]) && !IsWhitespace(Normalised(s)[|Normalised(s)| - 1])
  {
    var l := Lowercased(s);
    var n := Trimmed(l);
    assert n == Normalised(s);
    NoUpperAfterLowercasing(s);
    var a, b :| 0 <= a <= b <= |l| && n == l[a..b];
    NoUpperInSlice(l, a, b);
  }

  /** Lowercasing leaves no upper-case letter. */
  lemma NoUpperAfterLowercasing(s: string)
    ensures forall i :: 0 <= i < |Lowercased(s)| ==> !IsUpper(Lowercased(s)[i])
  {
  }

  /** A slice of a string without upper-case letters has none either. */
  lemma NoUpperInSlice(l: string, a: int, b: int)
    requires 0 <= a <= b <= |l|
    requires forall i :: 0 <= i < |l| ==> !IsUpper(l[i])
    ensures forall i :: 0 <= i < |l[a..b]| ==> !IsUpper(l[a..b][i])
  {
    forall i | 0 <= i < |l[a..b]| ensures !IsUpper(l[a..b][i]) {
      assert l[a..b][i] == l[a + i];
    }
  }

  /** A string with no whitespace at either end is its own trimming. */
  lemma TrimmedFixedPoint(s: string)
    requires s != [] ==> !IsWhitespace(s[0]) && !IsWhitespace(s[|s| - 1])
    ensures Trimmed(s) == s
  {
  }

  /** A string with no upper-case letter is its own lowercasing. */
  lemma LowercasedFixedPoint(s: string)
    requires forall i :: 0 <= i < |s| ==> !IsUpper(s[i])
    ensures Lowercased(s) == s
  {
  }

  /** Normalising an identifier again changes nothing. */
  lemma {:induction false} NormalisedIdempotent(s: string)
    ensures Normalised(Normalised(s)) == Normalised(s)
  {
    var n := Normalised(s);
    NormalisedShape(s);
    LowercasedFixedPoint(n);
    TrimmedFixedPoint(n);
  }

  /** Every static identifier is in normal form: no upper case, no outer whitespace, stable under normalisation. */
  lemma IdentifierIsNormal(v: Survey)
    ensures forall i :: 0 <= i < |StaticIdentifier(v)| ==> !IsUpper(StaticIdentifier(v)[i])
    ensures StaticIdentifier(v) != [] ==>
      !IsWhitespace(StaticIdentifier(v)[0]) && !IsWhitespace(StaticIdentifier(v)[|StaticIdentifier(v)| - 1])
    ensures Normalised(StaticIdentifier(v)) == StaticIdentifier(v)
  {
    NormalisedShape(v.RawValue());
    NormalisedIdempotent(v.RawValue());
  }

  /** Lower-casing then trimming `raw` gives `id`, when `id` is `raw` with its capitals lowered and has no outer whitespace. */
  lemma NormalisedTo(raw: string, id: string)
    requires |raw| == |id| && id != []
    requires forall i :: 0 <= i < |raw| ==> LowerChar(raw[i]) == id[i]
    requires !IsWhitespace(id[0]) && !IsWhitespace(id[|id| - 1])
    ensures Normalised(raw) == id
  {
    assert Lowercased(raw) == id;
    TrimmedFixedPoint(id);
  }

  lemma OnboardIdentifierValue()
    ensures StaticIdentifier(Onboard) == "onboard"
  {
    NormalisedTo("Onboard", "onboard");
  }

  lemma CheckInIdentifierValue()
    ensures StaticIdentifier(CheckIn) == "check in"
  {
    NormalisedTo("Check In", "check in");
  }

  lemma RangeOfMotionIdentifierValue()
    ensures StaticIdentifier(RangeOfMotion) == "range of motion"
  {
    NormalisedTo("Range of Motion", "range of motion");
  }

  /** The three identifiers are "onboard", "check in" and "range of motion", hence distinct. */
  lemma IdentifierValues()
    ensures StaticIdentifier(Onboard) == "onboard"
    ensures StaticIdentifier(CheckIn) == "check in"
    ensures StaticIdentifier(RangeOfMotion) == "range of motion"
    ensures forall v, w: Survey :: v != w ==> StaticIdentifier(v) != StaticIdentifier(w)
  {
    OnboardIdentifierValue();
    CheckInIdentifierValue();
    RangeOfMotionIdentifierValue();
    forall v: Survey, w: Survey | v != w ensures StaticIdentifier(v) != StaticIdentifier(w) {
      assert StaticIdentifier(v)[0] != StaticIdentifier(w)[0] by {
        assert StaticIdentifier(v)[0] == FirstLetter(v) && StaticIdentifier(w)[0] == FirstLetter(w);
      }
    }
  }

  /** The first letter of each identifier: 'o', 'c' and 'r'. */
  function FirstLetter(v: Survey): char {
    match v
    case Onboard => 'o'
    case CheckIn => 'c'
    case RangeOfMotion => 'r'
  }

  // ---------------------------------------------------------------------------
  // The onboarding survey
  // ---------------------------------------------------------------------------

  datatype StepKind = InstructionStep | WebViewStep | RequestPermissionsStep | CompletionStep

  /** A ResearchKit step, reduced to its kind, identifier and title. */
  datatype Step = Step(kind: StepKind, identifier: string, title: Option<string>)

  /** An `ORKOrderedTask`. */
  datatype OrderedTask = OrderedTask(identifier: string, steps: seq<Step>)

  /** The suffixes of the onboarding step identifiers, in step order. */
  const OnboardStepSuffixes: seq<string> :=
    ["welcome", "overview", "signatureCapture", "requestPermissionsStep", "completionStep"]

  /**
   * The five onboarding steps for a survey identifier `id`: welcome, overview,
   * signature, permissions, completion, each named by `id`, a dot and its own
   * suffix, so that all five names differ from each other and from `id`.
   */
  function OnboardSteps(id: string): (steps: seq<Step>)
    ensures |steps| == 5
    ensures steps[0].kind == InstructionStep && steps[1].kind == InstructionStep
    ensures steps[2].kind == WebViewStep && steps[3].kind == RequestPermissionsStep
    ensures steps[4].kind == CompletionStep
    ensures forall i :: 0 <= i < 5 ==> steps[i].identifier == id + "." + OnboardStepSuffixes[i]
    ensures forall i, j :: 0 <= i < j < 5 ==> steps[i].identifier != steps[j].identifier
    ensures forall i :: 0 <= i < 5 ==> steps[i].identifier != id
  {
    var p := id + ".";
    var steps := [
      Step(InstructionStep, p + "welcome", Some("Welcome!")),
      Step(InstructionStep, p + "overview", Some("Before You Join")),
      Step(WebViewStep, p + "signatureCapture", None),
      Step(RequestPermissionsStep, p + "requestPermissionsStep", Some("Health Data Request")),
      Step(CompletionStep, p + "completionStep", Some("Enrollment Complete"))
    ];
    StepIdentifiersDistinct(p);
    assert forall i :: 0 <= i < 5 ==> steps[i].identifier == p + OnboardStepSuffixes[i];
    steps
  }

  /** `createSurvey()` of `Onboard`: an ordered task named "onboard" holding the five onboarding steps. */
  function CreateOnboardSurvey(): (t: OrderedTask)
    ensures t.identifier == OnboardSurvey.Identifier() == "onboard"
    ensures t.steps == OnboardSteps(t.identifier)
  {
    OnboardIdentifierValue();
    OrderedTask(OnboardSurvey.Identifier(), OnboardSteps(OnboardSurvey.Identifier()))
  }

  /** Distinct suffixes behind one common prefix give distinct identifiers, all longer than the prefix. */
  lemma StepIdentifiersDistinct(prefix: string)
    ensures forall i, j :: 0 <= i < j < |OnboardStepSuffixes| ==>
      prefix + OnboardStepSuffixes[i] != prefix + OnboardStepSuffixes[j]
    ensures forall i :: 0 <= i < |OnboardStepSuffixes| ==> |prefix + OnboardStepSuffixes[i]| > |prefix|
  {
    forall i, j | 0 <= i < j < |OnboardStepSuffixes|
      ensures prefix + OnboardStepSuffixes[i] != prefix + OnboardStepSuffixes[j]
    {
      var a, b := prefix + OnboardStepSuffixes[i], prefix + OnboardStepSuffixes[j];
      assert a[|prefix|..] == OnboardStepSuffixes[i];
      assert b[|prefix|..] == OnboardStepSuffixes[j];
      assert OnboardStepSuffixes[i] != OnboardStepSuffixes[j] by {
        assert OnboardStepSuffixes[i][0] != OnboardStepSuffixes[j][0]
            || |OnboardStepSuffixes[i]| != |OnboardStepSuffixes[j]|;
      }
    }
  }

  /**
   * `extractAnswers(_:)` of `Onboard`: whatever the survey result, one outcome
   * value holding the current date.
   */
  function OnboardExtractAnswers(now: Date): (r: Option<seq<OutcomeValue>>)
    ensures r.Some? && |r.value| == 1
    ensures r.value[0].payload == DatePayload(now)
  {
    Some([FromDate(now)])
  }
}
