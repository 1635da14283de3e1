/** Events and their outcomes, and the `answer(kind:)` lookup on an event. */
module Events {
  import opened Wrappers
  import opened OutcomeValues
  import opened Tasks

  /** An `OCKOutcome`, reduced to its values. */
  datatype Outcome = Outcome(values: seq<OutcomeValue>)

  /** An `OCKAnyEvent`: its outcome, if any, and its task. */
  datatype Event = Event(outcome: Option<Outcome>, task: AnyTask)

  /** `OCKTaskEvents`: events grouped per task. */
  type TaskEvents = seq<seq<Event>>

  /** `first?.first`: the first event of the first group. */
  function FirstEvent(events: TaskEvents): (r: Option<Event>)
    ensures r.Some? <==> |events| > 0 && |events[0]| > 0
    ensures r.Some? ==> r.value == events[0][0]
  {
    if |events| > 0 && |events[0]| > 0 then Some(events[0][0]) else None
  }

  /** The values of `vs` whose kind is `kind`, in order. */
  function OfKind(vs: seq<OutcomeValue>, kind: string): (r: seq<OutcomeValue>)
    ensures forall v :: v in r <==> v in vs && v.kind == Some(kind)
  {
    if vs == [] then []
    else (if vs[0].kind == Some(kind) then [vs[0]] else []) + OfKind(vs[1..], kind)
  }

  /** Index `i` holds the earliest value of `vs` whose kind is `kind`. */
  predicate IsFirstOfKind(vs: seq<OutcomeValue>, kind: string, i: int) {
    && 0 <= i < |vs|
    && vs[i].kind == Some(kind)
    && (forall j :: 0 <= j < i ==> vs[j].kind != Some(kind))
  }

  /** `first(where: { $0.kind == kind })`: the earliest value of that kind. */
  function FirstOfKind(vs: seq<OutcomeValue>, kind: string): (r: Option<OutcomeValue>)
    ensures r.None? <==> forall i :: 0 <= i < |vs| ==> vs[i].kind != Some(kind)
    ensures r.Some? ==> exists i :: IsFirstOfKind(vs, kind, i) && vs[i] == r.value
  {
    if vs == [] then None
    else if vs[0].kind == Some(kind) then
      assert IsFirstOfKind(vs, kind, 0);
      Some(vs[0])
    else
      var r := FirstOfKind(vs[1..], kind);
      if r.Some? then
        var i :| IsFirstOfKind(vs[1..], kind, i) && vs[1..][i] == r.value;
        assert IsFirstOfKind(vs, kind, i + 1);
        r
      else
        r
  }

  /**
   * `answer(kind:)`: the double of the first outcome value of that kind, or 0.
   * A non-zero answer always comes from the earliest value of the kind.
   */
  function Answer(e: Event, kind: string): (r: real)
    ensures e.outcome.None? ==> r == 0.0
    ensures r != 0.0 ==>
      && e.outcome.Some?
      && (exists i :: IsFirstOfKind(e.outcome.value.values, kind, i) && e.outcome.value.values[i].DoubleValue() == Some(r))
  {
    var values := if e.outcome.Some? then e.outcome.value.values else [];
    DoubleOrZero(FirstOfKind(values, kind))
  }

  /**
   * The answer is 0 without an outcome and without a value of the kind;
   * otherwise it is the double of the earliest value of that kind, or 0 when
   * that one holds no double, whatever later values of the kind hold.
   */
  lemma AnswerCases(e: Event, kind: string)
    ensures e.outcome.None? ==> Answer(e, kind) == 0.0
    ensures e.outcome.Some? && (forall v :: v in e.outcome.value.values ==> v.kind != Some(kind)) ==>
      Answer(e, kind) == 0.0
    ensures forall i :: e.outcome.Some? && IsFirstOfKind(e.outcome.value.values, kind, i) ==>
      Answer(e, kind) == DoubleOrZero(Some(e.outcome.value.values[i]))
  {
    if e.outcome.Some? {
      var vs := e.outcome.value.values;
      forall i | IsFirstOfKind(vs, kind, i)
        ensures Answer(e, kind) == DoubleOrZero(Some(vs[i]))
      {
        var k :| IsFirstOfKind(vs, kind, k) && vs[k] == FirstOfKind(vs, kind).value;
        FirstIndexUnique(vs, kind, i, k);
      }
    }
  }

  lemma FirstIndexUnique(vs: seq<OutcomeValue>, kind: string, i: int, k: int)
    requires IsFirstOfKind(vs, kind, i) && IsFirstOfKind(vs, kind, k)
    ensures i == k
  {
  }

  /** The first value of a kind is the first of the values of that kind. */
  lemma {:induction false} FirstOfKindIsFirstMatch(vs: seq<OutcomeValue>, kind: string)
    ensures FirstOfKind(vs, kind) == if OfKind(vs, kind) == [] then None else Some(OfKind(vs, kind)[0])
  {
    if vs != [] && vs[0].kind != Some(kind) {
      FirstOfKindIsFirstMatch(vs[1..], kind);
    }
  }

  /** Values of other kinds never affect the answer: it depends only on the values of the kind asked for. */
  lemma AnswerIgnoresOtherKinds(vs: seq<OutcomeValue>, ws: seq<OutcomeValue>, kind: string, task: AnyTask)
    requires OfKind(vs, kind) == OfKind(ws, kind)
    ensures Answer(Event(Some(Outcome(vs)), task), kind) == Answer(Event(Some(Outcome(ws)), task), kind)
  {
    FirstOfKindIsFirstMatch(vs, kind);
    FirstOfKindIsFirstMatch(ws, kind);
  }
}
