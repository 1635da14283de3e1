/**
 * `CardViewModel`, the base view model of the custom CareKit cards, and the
 * three card view models that read and write its `value` as a number.
 *
 * The fetching and observing of events that the CareKit task controller does
 * is not modelled: `taskEvents` holds whatever it last published. The store
 * requests the default action makes are recorded in `requests`, and every
 * assignment to the published `value` is recorded in `publishedValues`.
 */
module CardViewModels {
  import opened Wrappers
  import opened OutcomeValues
  import opened Events
  import opened Tasks
  import opened Entities

  // ---------------------------------------------------------------------------
  // SynchronizedTaskQuery
  // ---------------------------------------------------------------------------

  /** An `OCKTaskQuery`, as an opaque value. */
  datatype TaskQuery = TaskQuery(ids: seq<string>)

  /** An `OCKEventQuery`, as an opaque value. */
  datatype EventQuery = EventQuery(date: Date)

  /** `CardViewModel.SynchronizedTaskQuery`. */
  datatype SynchronizedTaskQuery =
    | ByTaskQuery(taskQuery: TaskQuery, eventQuery: EventQuery)
    | ByTaskIDs(taskIDs: seq<string>, eventQuery: EventQuery)

  /**
   * `Array(Set(ids))`: every id once. A Swift set has no defined order; this
   * model keeps each id where it first occurs.
   */
  function Distinct(ids: seq<string>): (r: seq<string>)
    ensures forall id :: id in r <==> id in ids
    ensures forall i, j :: 0 <= i < j < |r| ==> r[i] != r[j]
    ensures |r| <= |ids|
  {
    if ids == [] then []
    else
      var k := |ids| - 1;
      assert ids == ids[..k] + [ids[k]];
      var init := Distinct(ids[..k]);
      if ids[k] in init then init else init + [ids[k]]
  }

  /** Ids that already occur once each are kept as they are, so `Distinct` is idempotent. */
  lemma {:induction false} DistinctOfDistinct(ids: seq<string>)
    requires forall i, j :: 0 <= i < j < |ids| ==> ids[i] != ids[j]
    ensures Distinct(ids) == ids
  {
    if ids != [] {
      var k := |ids| - 1;
      DistinctOfDistinct(ids[..k]);
      assert ids[k] !in ids[..k];
      assert ids == ids[..k] + [ids[k]];
    }
  }

  /** `SynchronizedTaskQuery.tasks`: a query on the ids of `tasks`, each once, with the event query unchanged. */
  function TasksQuery(tasks: seq<AnyTask>, eventQuery: EventQuery): (q: SynchronizedTaskQuery)
    ensures q.ByTaskIDs? && q.eventQuery == eventQuery
    ensures forall i :: 0 <= i < |tasks| ==> tasks[i].Id() in q.taskIDs
    ensures forall id :: id in q.taskIDs ==> exists i :: 0 <= i < |tasks| && tasks[i].Id() == id
    ensures forall i, j :: 0 <= i < j < |q.taskIDs| ==> q.taskIDs[i] != q.taskIDs[j]
  {
    var ids := seq(|tasks|, i requires 0 <= i < |tasks| => tasks[i].Id());
    assert forall i :: 0 <= i < |tasks| ==> ids[i] == tasks[i].Id();
    ByTaskIDs(Distinct(ids), eventQuery)
  }

  // ---------------------------------------------------------------------------
  // First-event accessors
  // ---------------------------------------------------------------------------

  /** `firstEventOutcomeValues`: the outcome values of the first event, when it has an outcome. */
  function FirstEventOutcomeValues(events: TaskEvents): (r: Option<seq<OutcomeValue>>)
    ensures r.Some? <==> FirstEvent(events).Some? && FirstEvent(events).value.outcome.Some?
    ensures r.Some? ==> r.value == events[0][0].outcome.value.values
  {
    match FirstEvent(events)
    case None => None
    case Some(e) => if e.outcome.Some? then Some(e.outcome.value.values) else None
  }

  /** `firstEventOutcomeValueDouble`: the double of the first outcome value of the first event. */
  function FirstEventOutcomeValueDouble(events: TaskEvents): (r: Option<real>)
    ensures r.Some? <==>
      FirstEventOutcomeValues(events).Some? && |FirstEventOutcomeValues(events).value| > 0
      && FirstEventOutcomeValues(events).value[0].DoubleValue().Some?
    ensures r.Some? ==> r == FirstEventOutcomeValues(events).value[0].DoubleValue()
  {
    match FirstEventOutcomeValues(events)
    case None => None
    case Some(vs) => if |vs| > 0 then vs[0].DoubleValue() else None
  }

  /**
   * The `value` that `checkIfValueShouldUpdate` leaves: an outcome holding the
   * first event's double when there is one, and `v` otherwise.
   */
  function ValueAfterUpdate(v: Option<OutcomeValue>, events: TaskEvents): (r: Option<OutcomeValue>)
    ensures FirstEventOutcomeValueDouble(events).None? ==> r == v
    ensures FirstEventOutcomeValueDouble(events).Some? ==>
      r.Some? && r.value.DoubleValue() == FirstEventOutcomeValueDouble(events) && r.value.kind == None
    ensures FirstEventOutcomeValueDouble(events).Some? ==> r == Some(FromDouble(FirstEventOutcomeValueDouble(events).value))
  {
    match FirstEventOutcomeValueDouble(events)
    case None => v
    case Some(d) => Some(FromDouble(d))
  }

  /** Updating from the same events twice changes nothing the second time. */
  lemma ValueUpdateIdempotent(v: Option<OutcomeValue>, events: TaskEvents)
    ensures ValueAfterUpdate(ValueAfterUpdate(v, events), events) == ValueAfterUpdate(v, events)
  {
  }

  // ---------------------------------------------------------------------------
  // CardViewModel
  // ---------------------------------------------------------------------------

  /** The closure in `action`: the default one, or one a caller supplied (named here). */
  datatype Action = DefaultAction | CustomAction(name: string)

  /** A request the view model makes: the store calls of the default action, or a call of a supplied closure. */
  datatype Request =
    | AppendOutcomeValue(value: OutcomeValue, row: nat, section: nat)
    | SaveOutcomesForEvent(values: seq<OutcomeValue>, row: nat, section: nat)
    | CallCustomAction(name: string, argument: Option<OutcomeValue>)

  /** `CardViewModel`. */
  class CardViewModel {
    var value: Option<OutcomeValue>
    var currentError: Option<StoreError>
    var action: Action
    var query: Option<SynchronizedTaskQuery>
    var taskEvents: TaskEvents
    var requests: seq<Request>
    var publishedValues: seq<Option<OutcomeValue>>

    /** `init(storeManager:)`: no value, no error, no query, and the default action. */
    constructor ()
      ensures value == None && currentError == None && action == DefaultAction && query == None
      ensures taskEvents == [] && requests == [] && publishedValues == []
    {
      value := None;
      currentError := None;
      action := DefaultAction;
      query := None;
      taskEvents := [];
      requests := [];
      publishedValues := [];
    }

    /** The `taskID` convenience inits: a query on that one id; a supplied action replaces the default one. */
    constructor WithTaskID(taskID: string, eventQuery: EventQuery, customAction: Option<Action>)
      ensures query == Some(ByTaskIDs([taskID], eventQuery))
      ensures action == if customAction.Some? then customAction.value else DefaultAction
      ensures value == None && currentError == None
      ensures taskEvents == [] && requests == [] && publishedValues == []
    {
      value := None;
      currentError := None;
      action := DefaultAction;
      query := None;
      taskEvents := [];
      requests := [];
      publishedValues := [];
      new;
      SetQuery(ByTaskIDs([taskID], eventQuery));
      if customAction.Some? {
        action := customAction.value;
      }
    }

    /** The `task` convenience inits: a query on the task's id; a supplied action replaces the default one. */
    constructor WithTask(task: AnyTask, eventQuery: EventQuery, customAction: Option<Action>)
      ensures query == Some(TasksQuery([task], eventQuery))
      ensures query.value.taskIDs == [task.Id()]
      ensures action == if customAction.Some? then customAction.value else DefaultAction
      ensures value == None && currentError == None
      ensures taskEvents == [] && requests == [] && publishedValues == []
    {
      value := None;
      currentError := None;
      action := DefaultAction;
      query := None;
      taskEvents := [];
      requests := [];
      publishedValues := [];
      new;
      var q := TasksQuery([task], eventQuery);
      assert [task.Id()] == seq(1, i requires 0 <= i < 1 => [task][i].Id());
      assert Distinct([task.Id()]) == [task.Id()] by { DistinctOfDistinct([task.Id()]); }
      SetQuery(q);
      if customAction.Some? {
        action := customAction.value;
      }
    }

    /** `setQuery`: replaces the query and nothing else. */
    method SetQuery(q: SynchronizedTaskQuery)
      modifies this`query
      ensures query == Some(q)
    {
      query := Some(q);
    }

    /** `setError`: replaces the current error and nothing else. */
    method SetError(updatedError: Option<StoreError>)
      modifies this`currentError
      ensures currentError == updatedError
    {
      currentError := updatedError;
    }

    /** Assigning the published `value`. */
    method Publish(v: Option<OutcomeValue>)
      modifies this`value, this`publishedValues
      ensures value == v && publishedValues == old(publishedValues) + [v]
    {
      value := v;
      publishedValues := publishedValues + [v];
    }

    /**
     * `checkIfValueShouldUpdate`: when the first event holds a double whose
     * outcome differs from `value`, `value` becomes that outcome; it is
     * assigned (and so published) only then.
     */
    method CheckIfValueShouldUpdate(updatedEvents: TaskEvents)
      modifies this`value, this`publishedValues
      ensures value == ValueAfterUpdate(old(value), updatedEvents)
      ensures publishedValues == old(publishedValues) + (if value != old(value) then [value] else [])
    {
      var changedValue := FirstEventOutcomeValueDouble(updatedEvents);
      if changedValue.Some? && value != Some(FromDouble(changedValue.value)) {
        Publish(Some(FromDouble(changedValue.value)));
      }
    }

    /**
     * Running `action` on `v`. The default action does nothing for nil; it
     * appends `v` to the first event's outcome when that event already has
     * outcome values, and otherwise saves a new outcome holding `v`. When that
     * store call fails, the error becomes `currentError`.
     */
    method PerformAction(v: Option<OutcomeValue>, failure: Option<StoreError>)
      modifies this`requests, this`currentError
      ensures action.DefaultAction? && v.None? ==>
        requests == old(requests) && currentError == old(currentError)
      ensures action.DefaultAction? && v.Some? ==>
        && requests == old(requests) + [if FirstEventOutcomeValues(taskEvents).Some?
                                        then AppendOutcomeValue(v.value, 0, 0)
                                        else SaveOutcomesForEvent([v.value], 0, 0)]
        && currentError == (if failure.Some? then failure else old(currentError))
      ensures action.CustomAction? ==>
        requests == old(requests) + [CallCustomAction(action.name, v)] && currentError == old(currentError)
    {
      match action
      case CustomAction(name) =>
        requests := requests + [CallCustomAction(name, v)];
      case DefaultAction =>
        if v.None? {
          return;
        }
        if FirstEventOutcomeValues(taskEvents).Some? {
          requests := requests + [AppendOutcomeValue(v.value, 0, 0)];
        } else {
          requests := requests + [SaveOutcomesForEvent([v.value], 0, 0)];
        }
        if failure.Some? {
          currentError := failure;
        }
    }
  }

  // ---------------------------------------------------------------------------
  // The numeric card view models
  // ---------------------------------------------------------------------------

  /** `CustomCardViewModel`: a `CardViewModel` whose value is read and written as a double. */
  class CustomCardViewModel {
    const base: CardViewModel

    constructor (base: CardViewModel)
      ensures this.base == base
    {
      this.base := base;
    }

    /** The `valueAsDouble` getter. */
    function ValueAsDouble(): (r: real)
      reads base
      ensures base.value.None? || base.value.value.DoubleValue().None? ==> r == 0.0
      ensures base.value.Some? && base.value.value.DoubleValue().Some? ==> r == base.value.value.DoubleValue().value
    {
      DoubleOrZero(base.value)
    }

    /** The `valueAsDouble` setter: `value` becomes an outcome holding `d`; nothing else changes. */
    method SetValueAsDouble(d: real)
      modifies base`value, base`publishedValues
      ensures base.value == Some(FromDouble(d)) && ValueAsDouble() == d
      ensures base.publishedValues == old(base.publishedValues) + [base.value]
    {
      base.Publish(Some(FromDouble(d)));
    }
  }

  /** `PlanCardViewModel`: the same double view of `value`. */
  class PlanCardViewModel {
    const base: CardViewModel

    constructor (base: CardViewModel)
      ensures this.base == base
    {
      this.base := base;
    }

    /** The `valueAsDouble` getter. */
    function ValueAsDouble(): (r: real)
      reads base
      ensures base.value.None? || base.value.value.DoubleValue().None? ==> r == 0.0
      ensures base.value.Some? && base.value.value.DoubleValue().Some? ==> r == base.value.value.DoubleValue().value
    {
      DoubleOrZero(base.value)
    }

    /** The `valueAsDouble` setter. */
    method SetValueAsDouble(d: real)
      modifies base`value, base`publishedValues
      ensures base.value == Some(FromDouble(d)) && ValueAsDouble() == d
      ensures base.publishedValues == old(base.publishedValues) + [base.value]
    {
      base.Publish(Some(FromDouble(d)));
    }
  }

  /** `SugaryDrinksCardViewModel`: a `CardViewModel` whose value is read and written as an integer. */
  class SugaryDrinksCardViewModel {
    const base: CardViewModel

    constructor (base: CardViewModel)
      ensures this.base == base
    {
      this.base := base;
    }

    /** The `valueAsInt` getter. */
    function ValueAsInt(): (r: int)
      reads base
      ensures base.value.None? || base.value.value.IntegerValue().None? ==> r == 0
      ensures base.value.Some? && base.value.value.IntegerValue().Some? ==> r == base.value.value.IntegerValue().value
    {
      IntOrZero(base.value)
    }

    /** The `valueAsInt` setter: `value` becomes an outcome holding `n`; nothing else changes. */
    method SetValueAsInt(n: int)
      modifies base`value, base`publishedValues
      ensures base.value == Some(FromInt(n)) && ValueAsInt() == n
      ensures base.publishedValues == old(base.publishedValues) + [base.value]
    {
      base.Publish(Some(FromInt(n)));
    }
  }
}
