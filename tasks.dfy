/**
 * `OCKTask` and `OCKHealthKitTask` with the computed `card`, `survey` and
 * `graph` properties the app adds to them. Only `userInfo` is ever changed by
 * the modelled code, so the other task fields are constants here.
 */
module Tasks {
  import opened Wrappers
  import opened Constants
  import opened Surveys
  import opened TaskMetadata

  /** An `OCKTask`. */
  class CareTask {
    const id: string
    const title: string
    const instructions: Option<string>
    const groupIdentifier: Option<string>
    var userInfo: UserInfo

    constructor (id: string, title: string, instructions: Option<string>, groupIdentifier: Option<string>)
      ensures this.id == id && this.title == title
      ensures this.instructions == instructions && this.groupIdentifier == groupIdentifier
      ensures userInfo == None
    {
      this.id := id;
      this.title := title;
      this.instructions := instructions;
      this.groupIdentifier := groupIdentifier;
      userInfo := None;
    }

    /** The `card` getter. */
    function Card(): CareKitCard reads this { CardOf(userInfo) }

    /** The `survey` getter. */
    function Survey(): Surveys.Survey reads this { SurveyOf(userInfo) }

    /** The `graph` getter as written (its fallback names an undeclared case, `None` here). */
    function GraphAsWritten(): Option<GraphCard> reads this { CareGraphAsWritten(userInfo) }

    /** The `graph` getter with the fallback corrected to `.bar`. */
    function Graph(): GraphCard reads this { CareGraphOf(userInfo) }

    /** The `card` setter: installs an empty map when `userInfo` is nil, then writes the "card" entry. */
    method SetCard(c: CareKitCard)
      modifies this`userInfo
      ensures userInfo == Some(Assign(old(userInfo), CardKey, c.RawValue()))
      ensures Card() == c
      ensures Survey() == old(Survey()) && GraphAsWritten() == old(GraphAsWritten())
    {
      if userInfo == None {
        userInfo := Some(map[]);
      }
      userInfo := Some(userInfo.value[CardKey := c.RawValue()]);
      SetThenGet(old(userInfo), c, Surveys.CheckIn, Bar);
      SettersIndependent(old(userInfo), c, Surveys.CheckIn, Bar);
    }

    /** The `survey` setter. */
    method SetSurvey(s: Surveys.Survey)
      modifies this`userInfo
      ensures userInfo == Some(Assign(old(userInfo), SurveyKey, s.RawValue()))
      ensures Survey() == s
      ensures Card() == old(Card()) && GraphAsWritten() == old(GraphAsWritten())
    {
      if userInfo == None {
        userInfo := Some(map[]);
      }
      userInfo := Some(userInfo.value[SurveyKey := s.RawValue()]);
      SetThenGet(old(userInfo), Grid, s, Bar);
      SettersIndependent(old(userInfo), Grid, s, Bar);
    }

    /** The `graph` setter. */
    method SetGraph(g: GraphCard)
      modifies this`userInfo
      ensures userInfo == Some(Assign(old(userInfo), GraphKey, g.RawValue()))
      ensures GraphAsWritten() == Some(g) && Graph() == g
      ensures Card() == old(Card()) && Survey() == old(Survey())
    {
      if userInfo == None {
        userInfo := Some(map[]);
      }
      userInfo := Some(userInfo.value[GraphKey := g.RawValue()]);
      SetThenGet(old(userInfo), Grid, Surveys.CheckIn, g);
      SettersIndependent(old(userInfo), Grid, Surveys.CheckIn, g);
    }
  }

  /** An `OCKHealthKitTask`. */
  class HealthKitTask {
    const id: string
    const title: string
    const instructions: Option<string>
    const groupIdentifier: Option<string>
    var userInfo: UserInfo

    constructor (id: string, title: string, instructions: Option<string>, groupIdentifier: Option<string>)
      ensures this.id == id && this.title == title
      ensures this.instructions == instructions && this.groupIdentifier == groupIdentifier
      ensures userInfo == None
    {
      this.id := id;
      this.title := title;
      this.instructions := instructions;
      this.groupIdentifier := groupIdentifier;
      userInfo := None;
    }

    /** The `card` getter. */
    function Card(): CareKitCard reads this { CardOf(userInfo) }

    /** The `graph` getter. */
    function Graph(): GraphCard reads this { HealthKitGraphOf(userInfo) }

    /** The `card` setter. */
    method SetCard(c: CareKitCard)
      modifies this`userInfo
      ensures userInfo == Some(Assign(old(userInfo), CardKey, c.RawValue()))
      ensures Card() == c && Graph() == old(Graph())
    {
      if userInfo == None {
        userInfo := Some(map[]);
      }
      userInfo := Some(userInfo.value[CardKey := c.RawValue()]);
      SetThenGet(old(userInfo), c, Surveys.CheckIn, Bar);
      SettersIndependent(old(userInfo), c, Surveys.CheckIn, Bar);
    }

    /** The `graph` setter. */
    method SetGraph(g: GraphCard)
      modifies this`userInfo
      ensures userInfo == Some(Assign(old(userInfo), GraphKey, g.RawValue()))
      ensures Graph() == g && Card() == old(Card())
    {
      if userInfo == None {
        userInfo := Some(map[]);
      }
      userInfo := Some(userInfo.value[GraphKey := g.RawValue()]);
      SetThenGet(old(userInfo), Grid, Surveys.CheckIn, g);
      SettersIndependent(old(userInfo), Grid, Surveys.CheckIn, g);
    }
  }

  /** An `OCKAnyTask` as the app inspects it: an `OCKTask`, an `OCKHealthKitTask`, or some other task type. */
  datatype AnyTask =
    | Care(care: CareTask)
    | HealthKit(healthKit: HealthKitTask)
    | Other(otherId: string, otherTitle: string)
  {
    function Id(): string {
      match this
      case Care(t) => t.id
      case HealthKit(t) => t.id
      case Other(id, _) => id
    }

    /** The task object behind this reference, if any. */
    function Footprint(): set<object> {
      match this
      case Care(t) => {t}
      case HealthKit(t) => {t}
      case Other(_, _) => {}
    }
  }
}
