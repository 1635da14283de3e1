/**
 * The card, survey and graph metadata that the app stores in a task's
 * optional `[String: String]` `userInfo` map: how each value is decoded from
 * the map (with its default) and how a setter changes the map.
 */
module TaskMetadata {
  import opened Wrappers
  import opened Constants
  import opened Surveys

  /** A task's `userInfo`: `None` when the task has never had one. */
  type UserInfo = Option<map<string, string>>

  /** `userInfo?[key]`. */
  function Lookup(info: UserInfo, key: string): (r: Option<string>)
    ensures r.Some? <==> info.Some? && key in info.value
    ensures r.Some? ==> r.value == info.value[key]
  {
    if info.Some? && key in info.value then Some(info.value[key]) else None
  }

  /**
   * The map a setter leaves behind: the existing map, or an empty one when
   * `userInfo` was nil, with `key` set to `value`. Every other entry is kept.
   */
  function Assign(info: UserInfo, key: string, value: string): (r: map<string, string>)
    ensures key in r && r[key] == value
    ensures forall k :: k != key ==> Lookup(Some(r), k) == Lookup(info, k)
  {
    var base := if info.None? then map[] else info.value;
    base[key := value]
  }

  // ---------------------------------------------------------------------------
  // Getters
  // ---------------------------------------------------------------------------

  /**
   * `card`: the card whose raw value is stored under "card"; `.grid` when
   * `userInfo` is nil, the key is absent, or the text names no card.
   */
  function CardOf(info: UserInfo): (c: CareKitCard)
    ensures Lookup(info, CardKey) == Some(c.RawValue())
      || (c == Grid && forall d: CareKitCard :: Lookup(info, CardKey) != Some(d.RawValue()))
  {
    match Lookup(info, CardKey)
    case None => Grid
    case Some(raw) => CareKitCardFromRaw(raw).GetOr(Grid)
  }

  /** `survey` of `OCKTask`: the stored survey, or `.checkIn` when none is stored. */
  function SurveyOf(info: UserInfo): (s: Survey)
    ensures Lookup(info, SurveyKey) == Some(s.RawValue())
      || (s == Surveys.CheckIn && forall d: Survey :: Lookup(info, SurveyKey) != Some(d.RawValue()))
  {
    match Lookup(info, SurveyKey)
    case None => Surveys.CheckIn
    case Some(raw) => SurveyFromRaw(raw).GetOr(Surveys.CheckIn)
  }

  /**
   * `graph` of `OCKTask` as written: the stored graph, and otherwise the
   * case `.nausea`, which `GraphCard` no longer declares. `None` stands for
   * that undefined fallback.
   */
  function CareGraphAsWritten(info: UserInfo): (g: Option<GraphCard>)
    ensures g.Some? ==> Lookup(info, GraphKey) == Some(g.value.RawValue())
    ensures g.None? ==> forall d: GraphCard :: Lookup(info, GraphKey) != Some(d.RawValue())
  {
    match Lookup(info, GraphKey)
    case None => None
    case Some(raw) => GraphCardFromRaw(raw)
  }

  /** With nothing stored, the `OCKTask` graph getter as written has no defined case to return. */
  lemma CareGraphAsWrittenUndefined()
    ensures CareGraphAsWritten(None) == None
    ensures CareGraphAsWritten(Some(map[])) == None
  {
  }

  /** `graph` of `OCKTask`, with the fallback corrected to `.bar` (the `OCKHealthKitTask` default). */
  function CareGraphOf(info: UserInfo): (g: GraphCard)
    ensures CareGraphAsWritten(info).Some? ==> g == CareGraphAsWritten(info).value
    ensures Lookup(info, GraphKey) == Some(g.RawValue())
      || (g == Bar && forall d: GraphCard :: Lookup(info, GraphKey) != Some(d.RawValue()))
  {
    CareGraphAsWritten(info).GetOr(Bar)
  }

  /** `graph` of `OCKHealthKitTask`: the stored graph, or `.bar` when none is stored. */
  function HealthKitGraphOf(info: UserInfo): (g: GraphCard)
    ensures Lookup(info, GraphKey) == Some(g.RawValue())
      || (g == Bar && forall d: GraphCard :: Lookup(info, GraphKey) != Some(d.RawValue()))
  {
    match Lookup(info, GraphKey)
    case None => Bar
    case Some(raw) => GraphCardFromRaw(raw).GetOr(Bar)
  }

  // ---------------------------------------------------------------------------
  // Round trips and independence of the keys
  // ---------------------------------------------------------------------------

  /** Reading each value back after setting it gives the value set, whatever the map held. */
  lemma SetThenGet(info: UserInfo, c: CareKitCard, s: Survey, g: GraphCard)
    ensures CardOf(Some(Assign(info, CardKey, c.RawValue()))) == c
    ensures SurveyOf(Some(Assign(info, SurveyKey, s.RawValue()))) == s
    ensures CareGraphAsWritten(Some(Assign(info, GraphKey, g.RawValue()))) == Some(g)
    ensures CareGraphOf(Some(Assign(info, GraphKey, g.RawValue()))) == g
    ensures HealthKitGraphOf(Some(Assign(info, GraphKey, g.RawValue()))) == g
  {
  }

  /** Setting one of the three values leaves the other two readings unchanged. */
  lemma SettersIndependent(info: UserInfo, c: CareKitCard, s: Survey, g: GraphCard)
    ensures SurveyOf(Some(Assign(info, CardKey, c.RawValue()))) == SurveyOf(info)
    ensures CareGraphAsWritten(Some(Assign(info, CardKey, c.RawValue()))) == CareGraphAsWritten(info)
    ensures HealthKitGraphOf(Some(Assign(info, CardKey, c.RawValue()))) == HealthKitGraphOf(info)
    ensures CardOf(Some(Assign(info, SurveyKey, s.RawValue()))) == CardOf(info)
    ensures CareGraphAsWritten(Some(Assign(info, SurveyKey, s.RawValue()))) == CareGraphAsWritten(info)
    ensures CardOf(Some(Assign(info, GraphKey, g.RawValue()))) == CardOf(info)
    ensures SurveyOf(Some(Assign(info, GraphKey, g.RawValue()))) == SurveyOf(info)
  {
    UserInfoKeysDistinct();
  }
}
