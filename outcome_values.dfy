/**
 * Outcome values as the card view models and surveys see them. A value holds
 * one payload; Swift's `doubleValue` and `integerValue` are conditional casts,
 * so an integer payload has no double and a double payload has no integer.
 * Numbers are exact (`real`/`int`): no floating-point rounding is modelled.
 */
module OutcomeValues {
  import opened Wrappers

  /** A point in time, as an opaque number. */
  type Date = int

  datatype Payload =
    | DoublePayload(d: real)
    | IntPayload(i: int)
    | TextPayload(s: string)
    | BoolPayload(b: bool)
    | DatePayload(date: Date)

  datatype OutcomeValue = OutcomeValue(payload: Payload, kind: Option<string>, units: Option<string>) {
    /** `doubleValue`: the payload when it is a double. */
    function DoubleValue(): Option<real> {
      if payload.DoublePayload? then Some(payload.d) else None
    }
    /** `integerValue`: the payload when it is an integer. */
    function IntegerValue(): Option<int> {
      if payload.IntPayload? then Some(payload.i) else None
    }
  }

  /** `OCKOutcomeValue(_ value: Double)`: no kind, no units. */
  function FromDouble(d: real): (v: OutcomeValue)
    ensures v.DoubleValue() == Some(d) && v.IntegerValue() == None && v.kind == None
  {
    OutcomeValue(DoublePayload(d), None, None)
  }

  /** `OCKOutcomeValue(_ value: Int)`. */
  function FromInt(i: int): (v: OutcomeValue)
    ensures v.IntegerValue() == Some(i) && v.DoubleValue() == None && v.kind == None
  {
    OutcomeValue(IntPayload(i), None, None)
  }

  /** `OCKOutcomeValue(_ value: Date)`. */
  function FromDate(date: Date): (v: OutcomeValue)
    ensures v.payload == DatePayload(date) && v.kind == None
  {
    OutcomeValue(DatePayload(date), None, None)
  }

  /** `value?.doubleValue ?? 0`: the double held by `v`, or 0 when there is none. */
  function DoubleOrZero(v: Option<OutcomeValue>): (r: real)
    ensures (v.None? || v.value.DoubleValue().None?) ==> r == 0.0
    ensures v.Some? && v.value.DoubleValue().Some? ==> r == v.value.DoubleValue().value
  {
    match v
    case None => 0.0
    case Some(x) => x.DoubleValue().GetOr(0.0)
  }

  /** `value?.integerValue ?? 0`. */
  function IntOrZero(v: Option<OutcomeValue>): (r: int)
    ensures (v.None? || v.value.IntegerValue().None?) ==> r == 0
    ensures v.Some? && v.value.IntegerValue().Some? ==> r == v.value.IntegerValue().value
  {
    match v
    case None => 0
    case Some(x) => x.IntegerValue().GetOr(0)
  }

  /** Storing a number as an outcome value and reading it back gives the number. */
  lemma NumberRoundTrips(d: real, i: int)
    ensures DoubleOrZero(Some(FromDouble(d))) == d
    ensures IntOrZero(Some(FromInt(i))) == i
  {
  }
}
