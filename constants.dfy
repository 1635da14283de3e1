/** The app's raw-value enumerations, fixed identifiers and error descriptions. */
module Constants {
  import opened Wrappers

  // ---------------------------------------------------------------------------
  // Keys of the task `userInfo` side-channel
  // ---------------------------------------------------------------------------

  const CardKey: string := "card"
  const SurveyKey: string := "survey"
  const GraphKey: string := "graph"

  /** The three metadata keys never collide, so each setter touches its own entry only. */
  lemma UserInfoKeysDistinct()
    ensures CardKey != SurveyKey && CardKey != GraphKey && SurveyKey != GraphKey
  {
    assert CardKey[0] == 'c' && SurveyKey[0] == 's' && GraphKey[0] == 'g';
  }

  // ---------------------------------------------------------------------------
  // CareKitCard
  // ---------------------------------------------------------------------------

  /** The kind of CareKit card a task is shown with. */
  datatype CareKitCard =
    | Button | Checklist | Featured | Grid | Instruction | LabeledValue
    | Link | NumericProgress | Simple | Survey | Plan | SugaryDrinks
  {
    function RawValue(): string {
      match this
      case Button => "Button"
      case Checklist => "Checklist"
      case Featured => "Featured"
      case Grid => "Grid"
      case Instruction => "Instruction"
      case LabeledValue => "Labeled Value"
      case Link => "Link"
      case NumericProgress => "Numeric Progress"
      case Simple => "Simple"
      case Survey => "Survey"
      case Plan => "Plan"
      case SugaryDrinks => "Sugary Drinks"
    }
  }

  /** `CareKitCard.allCases`, in declaration order. */
  const AllCareKitCards: seq<CareKitCard> :=
    [Button, Checklist, Featured, Grid, Instruction, LabeledValue,
     Link, NumericProgress, Simple, CareKitCard.Survey, CareKitCard.Plan, SugaryDrinks]

  /** `CareKitCard(rawValue:)`: the card whose raw value is `s`, if any. */
  function CareKitCardFromRaw(s: string): (r: Option<CareKitCard>)
    ensures r.Some? ==> r.value.RawValue() == s
    ensures forall c: CareKitCard :: c.RawValue() == s ==> r == Some(c)
  {
    if s == "Button" then Some(Button)
    else if s == "Checklist" then Some(Checklist)
    else if s == "Featured" then Some(Featured)
    else if s == "Grid" then Some(Grid)
    else if s == "Instruction" then Some(Instruction)
    else if s == "Labeled Value" then Some(LabeledValue)
    else if s == "Link" then Some(Link)
    else if s == "Numeric Progress" then Some(NumericProgress)
    else if s == "Simple" then Some(Simple)
    else if s == "Survey" then Some(CareKitCard.Survey)
    else if s == "Plan" then Some(CareKitCard.Plan)
    else if s == "Sugary Drinks" then Some(SugaryDrinks)
    else None
  }

  /** The twelve cases are listed once each, and their raw values are pairwise distinct. */
  lemma CareKitCardCases()
    ensures |AllCareKitCards| == 12
    ensures forall c: CareKitCard :: c in AllCareKitCards
    ensures forall i, j :: 0 <= i < j < |AllCareKitCards| ==>
      AllCareKitCards[i].RawValue() != AllCareKitCards[j].RawValue()
  {
    forall c: CareKitCard ensures c in AllCareKitCards {
      match c
      case Button => assert AllCareKitCards[0] == c;
      case Checklist => assert AllCareKitCards[1] == c;
      case Featured => assert AllCareKitCards[2] == c;
      case Grid => assert AllCareKitCards[3] == c;
      case Instruction => assert AllCareKitCards[4] == c;
      case LabeledValue => assert AllCareKitCards[5] == c;
      case Link => assert AllCareKitCards[6] == c;
      case NumericProgress => assert AllCareKitCards[7] == c;
      case Simple => assert AllCareKitCards[8] == c;
      case Survey => assert AllCareKitCards[9] == c;
      case Plan => assert AllCareKitCards[10] == c;
      case SugaryDrinks => assert AllCareKitCards[11] == c;
    }
    forall i, j | 0 <= i < j < |AllCareKitCards|
      ensures AllCareKitCards[i].RawValue() != AllCareKitCards[j].RawValue()
    {
      var ci, cj := AllCareKitCards[i], AllCareKitCards[j];
      assert CareKitCardFromRaw(ci.RawValue()) == Some(ci);
      assert CareKitCardFromRaw(cj.RawValue()) == Some(cj);
    }
  }

  // ---------------------------------------------------------------------------
  // GraphCard
  // ---------------------------------------------------------------------------

  /** The kind of Insights chart a task is plotted with. (A fifth case, `nausea`, is commented out in the source.) */
  datatype GraphCard = CheckIn | Bar | Line | Scatter {
    function RawValue(): string {
      match this
      case CheckIn => "Check In"
      case Bar => "Bar"
      case Line => "Line"
      case Scatter => "Scatter"
    }
  }

  const AllGraphCards: seq<GraphCard> := [GraphCard.CheckIn, Bar, Line, Scatter]

  /** `GraphCard(rawValue:)`. */
  function GraphCardFromRaw(s: string): (r: Option<GraphCard>)
    ensures r.Some? ==> r.value.RawValue() == s
    ensures forall g: GraphCard :: g.RawValue() == s ==> r == Some(g)
  {
    if s == "Check In" then Some(GraphCard.CheckIn)
    else if s == "Bar" then Some(Bar)
    else if s == "Line" then Some(Line)
    else if s == "Scatter" then Some(Scatter)
    else None
  }

  /** Exactly four cases, with distinct raw values. */
  lemma GraphCardCases()
    ensures |AllGraphCards| == 4
    ensures forall g: GraphCard :: g in AllGraphCards
    ensures forall i, j :: 0 <= i < j < |AllGraphCards| ==>
      AllGraphCards[i].RawValue() != AllGraphCards[j].RawValue()
  {
    forall g: GraphCard ensures g in AllGraphCards {
      match g
      case CheckIn => assert AllGraphCards[0] == g;
      case Bar => assert AllGraphCards[1] == g;
      case Line => assert AllGraphCards[2] == g;
      case Scatter => assert AllGraphCards[3] == g;
    }
    forall i, j | 0 <= i < j < |AllGraphCards|
      ensures AllGraphCards[i].RawValue() != AllGraphCards[j].RawValue()
    {
      assert GraphCardFromRaw(AllGraphCards[i].RawValue()) == Some(AllGraphCards[i]);
    }
  }

  // ---------------------------------------------------------------------------
  // CarePlanID
  // ---------------------------------------------------------------------------

  datatype CarePlanID = Health | CheckIn | Productivity | Diet {
    function RawValue(): string {
      match this
      case Health => "Health"
      case CheckIn => "Check In"
      case Productivity => "Productivity"
      case Diet => "Diet"
    }
  }

  /** `CarePlanID.allCases`, in declaration order. */
  const AllCarePlanIDs: seq<CarePlanID> := [Health, CarePlanID.CheckIn, Productivity, Diet]

  function CarePlanIDFromRaw(s: string): (r: Option<CarePlanID>)
    ensures r.Some? ==> r.value.RawValue() == s
    ensures forall p: CarePlanID :: p.RawValue() == s ==> r == Some(p)
  {
    if s == "Health" then Some(Health)
    else if s == "Check In" then Some(CarePlanID.CheckIn)
    else if s == "Productivity" then Some(Productivity)
    else if s == "Diet" then Some(Diet)
    else None
  }

  /** Four cases, with distinct raw values. */
  lemma CarePlanIDCases()
    ensures |AllCarePlanIDs| == 4
    ensures forall p: CarePlanID :: p in AllCarePlanIDs
    ensures forall i, j :: 0 <= i < j < |AllCarePlanIDs| ==>
      AllCarePlanIDs[i].RawValue() != AllCarePlanIDs[j].RawValue()
  {
    forall p: CarePlanID ensures p in AllCarePlanIDs {
      match p
      case Health => assert AllCarePlanIDs[0] == p;
      case CheckIn => assert AllCarePlanIDs[1] == p;
      case Productivity => assert AllCarePlanIDs[2] == p;
      case Diet => assert AllCarePlanIDs[3] == p;
    }
    forall i, j | 0 <= i < j < |AllCarePlanIDs|
      ensures AllCarePlanIDs[i].RawValue() != AllCarePlanIDs[j].RawValue()
    {
      assert CarePlanIDFromRaw(AllCarePlanIDs[i].RawValue()) == Some(AllCarePlanIDs[i]);
    }
  }

  // ---------------------------------------------------------------------------
  // TaskID
  // ---------------------------------------------------------------------------

  const StretchTaskID: string := "stretch"
  const StepsTaskID: string := "steps"
  const PlanTaskID: string := "plan"
  const WaterTaskID: string := "water"
  const FlightsClimbedTaskID: string := "flights climbed"
  const BreakfastTaskID: string := "breakfast"
  const BeginnerWorkoutTaskID: string := "beginner workout"
  const DietTaskID: string := "diet"
  const SugaryDrinksTaskID: string := "sugary drinks"
  const HeartRateTaskID: string := "heart rate"

  /** The ten declared task ids, as a set. */
  const DeclaredTaskIDs: set<string> :=
    {StretchTaskID, StepsTaskID, PlanTaskID, WaterTaskID, FlightsClimbedTaskID,
     BreakfastTaskID, BeginnerWorkoutTaskID, DietTaskID, SugaryDrinksTaskID, HeartRateTaskID}

  /** `TaskID.ordered`: the display order of the task ids. */
  function OrderedTaskIDs(): (r: seq<string>)
    ensures |r| == 10
    ensures forall i, j :: 0 <= i < j < |r| ==> r[i] != r[j]
    ensures forall i :: 0 <= i < |r| ==> r[i] in DeclaredTaskIDs
    ensures forall id :: id in DeclaredTaskIDs ==> id in r
  {
    [StepsTaskID, PlanTaskID, StretchTaskID, WaterTaskID, FlightsClimbedTaskID, BreakfastTaskID,
     HeartRateTaskID, BeginnerWorkoutTaskID, DietTaskID, SugaryDrinksTaskID]
  }

  // ---------------------------------------------------------------------------
  // UserType
  // ---------------------------------------------------------------------------

  /** `UserType`; `NoUser` is the case spelled `.none` in the app. */
  datatype UserType = Patient | NoUser {
    function RawValue(): string {
      match this
      case Patient => "Patient"
      case NoUser => "None"
    }
  }

  function UserTypeFromRaw(s: string): (r: Option<UserType>)
    ensures r.Some? ==> r.value.RawValue() == s
    ensures forall u: UserType :: u.RawValue() == s ==> r == Some(u)
  {
    if s == "Patient" then Some(Patient)
    else if s == "None" then Some(NoUser)
    else None
  }

  /** `allTypesAsArray()`: the raw values of all user types, in declaration order. */
  function AllTypesAsArray(): (r: seq<string>)
    ensures |r| == 2
    ensures UserTypeFromRaw(r[0]) == Some(Patient) && UserTypeFromRaw(r[1]) == Some(NoUser)
  {
    [Patient.RawValue(), NoUser.RawValue()]
  }

  // ---------------------------------------------------------------------------
  // AppError
  // ---------------------------------------------------------------------------

  /**
   * The app's own errors. Payloads that the app only interpolates into text
   * (an index path, an event, a Parse or other error) are carried as their
   * textual description.
   */
  datatype AppError =
    | CouldntCast
    | CouldntBeUnwrapped
    | ValueNotFoundInUserInfo
    | RemoteClockIDNotAvailable
    | EmptyTaskEvents
    | InvalidIndexPath(indexPath: string)
    | NoOutcomeValueForEvent(event: string, index: int)
    | CannotMakeOutcomeFor(outcomeEvent: string)
    | ParseError(parseError: string)
    | Error(error: string)
    | ErrorString(text: string)

  const LocalizedPrefix: string := "OCKSampleError: "

  /** The decimal text of a natural number. */
  function NatToString(n: nat): (r: string)
    ensures |r| > 0
    decreases n
  {
    var d := ["0", "1", "2", "3", "4", "5", "6", "7", "8", "9"][n % 10];
    if n < 10 then d else NatToString(n / 10) + d
  }

  /** Swift's `\(i)` for an `Int`. */
  function IntToString(i: int): string {
    if i < 0 then "-" + NatToString(-i) else NatToString(i)
  }

  /**
   * `errorDescription`: every case has a description; the four localized ones
   * carry the "OCKSampleError: " prefix, and `.errorString(s)` is described by `s` itself.
   */
  function ErrorDescription(e: AppError): (r: Option<string>)
    ensures r.Some?
    ensures e.ErrorString? ==> r.value == e.text
    ensures (e.CouldntCast? || e.CouldntBeUnwrapped? || e.ValueNotFoundInUserInfo? || e.RemoteClockIDNotAvailable?) ==>
      |r.value| > |LocalizedPrefix| && r.value[..|LocalizedPrefix|] == LocalizedPrefix
    ensures !(e.ParseError? || e.Error? || e.ErrorString?) ==> |r.value| > 0
  {
    match e
    case CouldntCast => Some(LocalizedPrefix + "Could not cast to required type.")
    case CouldntBeUnwrapped => Some(LocalizedPrefix + "Could not unwrap a required type.")
    case ValueNotFoundInUserInfo => Some(LocalizedPrefix + "Could not find the required value in userInfo.")
    case RemoteClockIDNotAvailable => Some(LocalizedPrefix + "Could not get remote clock ID.")
    case EmptyTaskEvents => Some("Task events is empty")
    case NoOutcomeValueForEvent(event, index) =>
      Some("Event has no outcome value at index " + IntToString(index) + ": " + event)
    case InvalidIndexPath(indexPath) => Some("Invalid index path " + indexPath)
    case CannotMakeOutcomeFor(event) => Some("Cannot make outcome for event: " + event)
    case ParseError(error) => Some(error)
    case Error(error) => Some(error)
    case ErrorString(text) => Some(text)
  }
}
