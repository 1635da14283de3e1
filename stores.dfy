/**
 * The "add only if not present" extensions of `OCKStore` and
 * `OCKHealthKitPassthroughStore`, and `getCarePlanUUIDs`.
 *
 * A store is a class holding its entities as sequences; a fetch by ids
 * returns the stored entities whose id is among those ids. Whether a store
 * call throws is a parameter of the operation, and every call a store
 * receives is appended to its `log`.
 */
module Stores {
  import opened Wrappers
  import opened Constants
  import opened Tasks
  import opened Entities

  // ---------------------------------------------------------------------------
  // Ids, fetches and the missing-item filter
  // ---------------------------------------------------------------------------

  /** `items.map { $0.id }`. */
  function IdsOf<T>(items: seq<T>, idOf: T -> string): (r: seq<string>)
    ensures |r| == |items|
    ensures forall i :: 0 <= i < |items| ==> r[i] == idOf(items[i])
  {
    seq(|items|, i requires 0 <= i < |items| => idOf(items[i]))
  }

  /** What a fetch whose query lists `ids` returns: the stored items with one of those ids, in store order. */
  function WithIds<T(==)>(items: seq<T>, idOf: T -> string, ids: seq<string>): (r: seq<T>)
    ensures forall i :: 0 <= i < |r| ==> r[i] in items && idOf(r[i]) in ids
    ensures forall i :: 0 <= i < |items| && idOf(items[i]) in ids ==> items[i] in r
  {
    if items == [] then []
    else (if idOf(items[0]) in ids then [items[0]] else []) + WithIds(items[1..], idOf, ids)
  }

  /** The items whose id is not among `found`, in input order. */
  function Missing<T(==)>(items: seq<T>, idOf: T -> string, found: seq<string>): (r: seq<T>)
    ensures |r| <= |items|
  {
    if items == [] then []
    else
      var k := |items| - 1;
      Missing(items[..k], idOf, found) + (if idOf(items[k]) in found then [] else [items[k]])
  }

  /**
   * `Missing` keeps exactly the items whose id is not found: each kept item
   * is an input with an id not found, each such input is kept, and nothing is
   * kept exactly when every id is found.
   */
  lemma {:induction false} MissingMembers<T>(items: seq<T>, idOf: T -> string, found: seq<string>)
    ensures var r := Missing(items, idOf, found);
      && (forall i :: 0 <= i < |r| ==> r[i] in items && idOf(r[i]) !in found)
      && (forall i :: 0 <= i < |items| && idOf(items[i]) !in found ==> items[i] in r)
      && (r == [] <==> forall i :: 0 <= i < |items| ==> idOf(items[i]) in found)
  {
    if items != [] {
      var k := |items| - 1;
      MissingMembers(items[..k], idOf, found);
      assert items == items[..k] + [items[k]];
      var r := Missing(items, idOf, found);
      var init := Missing(items[..k], idOf, found);
      assert r == init + (if idOf(items[k]) in found then [] else [items[k]]);
      forall i | 0 <= i < |items| && idOf(items[i]) !in found
        ensures items[i] in r
      {
        if i < k {
          assert items[..k][i] == items[i];
          assert items[i] in init;
        }
      }
      if r == [] {
        forall i | 0 <= i < |items|
          ensures idOf(items[i]) in found
        {
          if i < k {
            assert items[..k][i] == items[i];
          }
        }
      }
      if forall i :: 0 <= i < |items| ==> idOf(items[i]) in found {
        assert forall i :: 0 <= i < k ==> items[..k][i] == items[i];
      }
    }
  }

  /** The filter works item by item, so it keeps the input order: filtering a concatenation concatenates the results. */
  lemma {:induction false} MissingAppend<T>(a: seq<T>, b: seq<T>, idOf: T -> string, found: seq<string>)
    ensures Missing(a + b, idOf, found) == Missing(a, idOf, found) + Missing(b, idOf, found)
    decreases |b|
  {
    if b == [] {
      assert a + b == a;
    } else {
      var k := |b| - 1;
      var last := if idOf(b[k]) in found then [] else [b[k]];
      assert (a + b)[..|a + b| - 1] == a + b[..k];
      assert (a + b)[|a + b| - 1] == b[k];
      assert Missing(a + b, idOf, found) == Missing(a + b[..k], idOf, found) + last;
      MissingAppend(a, b[..k], idOf, found);
      assert Missing(b, idOf, found) == Missing(b[..k], idOf, found) + last;
    }
  }

  /** Only whether each item's id is found matters, not the rest of `found`. */
  lemma {:induction false} MissingDependsOnlyOnItemIds<T>(items: seq<T>, idOf: T -> string, f: seq<string>, g: seq<string>)
    requires forall x :: x in items ==> (idOf(x) in f <==> idOf(x) in g)
    ensures Missing(items, idOf, f) == Missing(items, idOf, g)
  {
    if items != [] {
      var k := |items| - 1;
      assert forall x :: x in items[..k] ==> x in items;
      MissingDependsOnlyOnItemIds(items[..k], idOf, f, g);
    }
  }

  /**
   * Fetching by the ids of the input finds exactly the inputs already in the
   * store, so filtering by the fetched ids equals filtering by the store's ids.
   */
  lemma FetchedIdsSuffice<T, S>(store: seq<S>, storeIdOf: S -> string, items: seq<T>, idOf: T -> string)
    ensures var fetched := WithIds(store, storeIdOf, IdsOf(items, idOf));
      Missing(items, idOf, IdsOf(fetched, storeIdOf)) == Missing(items, idOf, IdsOf(store, storeIdOf))
  {
    var query := IdsOf(items, idOf);
    var fetched := WithIds(store, storeIdOf, query);
    forall x | x in items
      ensures idOf(x) in IdsOf(fetched, storeIdOf) <==> idOf(x) in IdsOf(store, storeIdOf)
    {
      var i :| 0 <= i < |items| && items[i] == x;
      assert idOf(x) in query by { assert query[i] == idOf(x); }
      if idOf(x) in IdsOf(store, storeIdOf) {
        var j :| 0 <= j < |store| && IdsOf(store, storeIdOf)[j] == idOf(x);
        assert store[j] in fetched;
        var m :| 0 <= m < |fetched| && fetched[m] == store[j];
        assert IdsOf(fetched, storeIdOf)[m] == idOf(x);
      }
      if idOf(x) in IdsOf(fetched, storeIdOf) {
        var m :| 0 <= m < |fetched| && IdsOf(fetched, storeIdOf)[m] == idOf(x);
        assert fetched[m] in store;
        var j :| 0 <= j < |store| && store[j] == fetched[m];
        assert IdsOf(store, storeIdOf)[j] == idOf(x);
      }
    }
    MissingDependsOnlyOnItemIds(items, idOf, IdsOf(fetched, storeIdOf), IdsOf(store, storeIdOf));
  }

  /** After the missing items are added, every input id is stored: a second call finds nothing to add. */
  lemma AddingMissingCoversAll<T>(store: seq<T>, items: seq<T>, idOf: T -> string)
    ensures var after := store + Missing(items, idOf, IdsOf(store, idOf));
      && (forall x :: x in items ==> idOf(x) in IdsOf(after, idOf))
      && Missing(items, idOf, IdsOf(after, idOf)) == []
  {
    var missing := Missing(items, idOf, IdsOf(store, idOf));
    var after := store + missing;
    MissingMembers(items, idOf, IdsOf(store, idOf));
    MissingMembers(items, idOf, IdsOf(after, idOf));
    forall x | x in items
      ensures idOf(x) in IdsOf(after, idOf)
    {
      if idOf(x) in IdsOf(store, idOf) {
        var j :| 0 <= j < |store| && IdsOf(store, idOf)[j] == idOf(x);
        assert IdsOf(after, idOf)[j] == idOf(x);
      } else {
        assert x in missing;
        var m :| 0 <= m < |missing| && missing[m] == x;
        assert IdsOf(after, idOf)[|store| + m] == idOf(x);
      }
    }
  }

  /** The `forEach` that appends every input whose id was not found to `notInStore`. */
  method CollectMissing<T(==)>(items: seq<T>, idOf: T -> string, found: seq<string>) returns (notInStore: seq<T>)
    ensures notInStore == Missing(items, idOf, found)
  {
    notInStore := [];
    var i := 0;
    while i < |items|
      invariant 0 <= i <= |items|
      invariant notInStore == Missing(items[..i], idOf, found)
    {
      assert items[..i + 1][..i] == items[..i];
      if idOf(items[i]) !in found {
        notInStore := notInStore + [items[i]];
      }
      i := i + 1;
    }
    assert items[..i] == items;
  }

  // ---------------------------------------------------------------------------
  // OCKStore
  // ---------------------------------------------------------------------------

  function TaskIdOf(t: CareTask): string { t.id }
  function HealthKitTaskIdOf(t: HealthKitTask): string { t.id }
  function ContactIdOf(c: Contact): string { c.id }
  function CarePlanIdOf(p: CarePlan): string { p.id }

  /** A call an `OCKStore` receives, with its argument. */
  datatype StoreCall =
    | TaskFetch(taskIds: seq<string>)
    | TaskAdd(tasks: seq<CareTask>)
    | ContactFetch(contactIds: seq<string>)
    | ContactAdd(contacts: seq<Contact>)
    | CarePlanFetch(carePlanIds: seq<string>)

  /** The ids `getCarePlanUUIDs` queries: health, then check-in. */
  const QueriedCarePlanIDs: seq<string> := [Health.RawValue(), CarePlanID.CheckIn.RawValue()]

  /** An `OCKStore`: its tasks, contacts and care plans, and the calls it has received. */
  class CareStore {
    var tasks: seq<CareTask>
    var contacts: seq<Contact>
    var carePlans: seq<CarePlan>
    var log: seq<StoreCall>

    constructor (tasks: seq<CareTask>, contacts: seq<Contact>, carePlans: seq<CarePlan>)
      ensures this.tasks == tasks && this.contacts == contacts && this.carePlans == carePlans
      ensures log == []
    {
      this.tasks := tasks;
      this.contacts := contacts;
      this.carePlans := carePlans;
      log := [];
    }

    /**
     * `addTasksIfNotPresent`: fetch the tasks with the input ids, then add the
     * inputs not found, in input order, in one call made only when there is
     * one. A failing fetch is rethrown; a failing add is only logged.
     */
    method AddTasksIfNotPresent(ts: seq<CareTask>, fetchFailure: Option<StoreError>, addFailure: Option<StoreError>)
      returns (r: Outcome<StoreError>)
      modifies this`tasks, this`log
      ensures r == if fetchFailure.Some? then Fail(fetchFailure.value) else Pass
      ensures var missing := Missing(ts, TaskIdOf, IdsOf(old(tasks), TaskIdOf));
        && log == old(log) + [TaskFetch(IdsOf(ts, TaskIdOf))]
                  + (if fetchFailure.None? && missing != [] then [TaskAdd(missing)] else [])
        && tasks == old(tasks) + (if fetchFailure.None? && addFailure.None? then missing else [])
      ensures fetchFailure.None? && addFailure.None? ==>
        && (forall t :: t in ts ==> t.id in IdsOf(tasks, TaskIdOf))
        && Missing(ts, TaskIdOf, IdsOf(tasks, TaskIdOf)) == []
    {
      var taskIdsToAdd := IdsOf(ts, TaskIdOf);
      log := log + [TaskFetch(taskIdsToAdd)];
      if fetchFailure.Some? {
        return Fail(fetchFailure.value);
      }
      var foundTasks := WithIds(tasks, TaskIdOf, taskIdsToAdd);
      var tasksNotInStore := CollectMissing(ts, TaskIdOf, IdsOf(foundTasks, TaskIdOf));
      FetchedIdsSuffice(tasks, TaskIdOf, ts, TaskIdOf);
      AddingMissingCoversAll(tasks, ts, TaskIdOf);
      if |tasksNotInStore| > 0 {
        log := log + [TaskAdd(tasksNotInStore)];
        if addFailure.None? {
          tasks := tasks + tasksNotInStore;
        }
      }
      return Pass;
    }

    /** `addContactsIfNotPresent`: the same filter, order and single-add rules, for contacts. */
    method AddContactsIfNotPresent(cs: seq<Contact>, fetchFailure: Option<StoreError>, addFailure: Option<StoreError>)
      returns (r: Outcome<StoreError>)
      modifies this`contacts, this`log
      ensures r == if fetchFailure.Some? then Fail(fetchFailure.value) else Pass
      ensures var missing := Missing(cs, ContactIdOf, IdsOf(old(contacts), ContactIdOf));
        && log == old(log) + [ContactFetch(IdsOf(cs, ContactIdOf))]
                  + (if fetchFailure.None? && missing != [] then [ContactAdd(missing)] else [])
        && contacts == old(contacts) + (if fetchFailure.None? && addFailure.None? then missing else [])
      ensures fetchFailure.None? && addFailure.None? ==>
        && (forall c :: c in cs ==> c.id in IdsOf(contacts, ContactIdOf))
        && Missing(cs, ContactIdOf, IdsOf(contacts, ContactIdOf)) == []
    {
      var contactIdsToAdd := IdsOf(cs, ContactIdOf);
      log := log + [ContactFetch(contactIdsToAdd)];
      if fetchFailure.Some? {
        return Fail(fetchFailure.value);
      }
      var foundContacts := WithIds(contacts, ContactIdOf, contactIdsToAdd);
      var contactsNotInStore := CollectMissing(cs, ContactIdOf, IdsOf(foundContacts, ContactIdOf));
      FetchedIdsSuffice(contacts, ContactIdOf, cs, ContactIdOf);
      AddingMissingCoversAll(contacts, cs, ContactIdOf);
      if |contactsNotInStore| > 0 {
        log := log + [ContactAdd(contactsNotInStore)];
        if addFailure.None? {
          contacts := contacts + contactsNotInStore;
        }
      }
      return Pass;
    }
  }

  // ---------------------------------------------------------------------------
  // getCarePlanUUIDs
  // ---------------------------------------------------------------------------

  /** `first(where: { $0.id == id })` over care plans. */
  function FirstPlanWithId(plans: seq<CarePlan>, id: string): (r: Option<CarePlan>)
    ensures r.None? <==> forall p :: p in plans ==> p.id != id
    ensures r.Some? ==> exists i :: (0 <= i < |plans| && plans[i] == r.value && r.value.id == id
      && forall j :: 0 <= j < i ==> plans[j].id != id)
  {
    if plans == [] then None
    else if plans[0].id == id then Some(plans[0])
    else
      var r := FirstPlanWithId(plans[1..], id);
      if r.Some? then
        var i :| 0 <= i < |plans[1..]| && plans[1..][i] == r.value && r.value.id == id
          && forall j :: 0 <= j < i ==> plans[1..][j].id != id;
        assert plans[i + 1] == r.value;
        r
      else
        r
  }

  /**
   * The `allCases.forEach` that fills the dictionary: each care plan id is a
   * key exactly when some fetched plan has that id, and maps to the uuid of the
   * first such plan (assigning nil leaves the key out).
   */
  method CollectCarePlanUUIDs(found: seq<CarePlan>) returns (results: map<CarePlanID, UUID>)
    ensures forall id: CarePlanID :: id in results <==> FirstPlanWithId(found, id.RawValue()).Some?
    ensures forall id: CarePlanID :: id in results ==> results[id] == FirstPlanWithId(found, id.RawValue()).value.uuid
  {
    results := map[];
    var i := 0;
    while i < |AllCarePlanIDs|
      invariant 0 <= i <= |AllCarePlanIDs|
      invariant forall id: CarePlanID :: id in results <==>
        id in AllCarePlanIDs[..i] && FirstPlanWithId(found, id.RawValue()).Some?
      invariant forall id: CarePlanID :: id in results ==> results[id] == FirstPlanWithId(found, id.RawValue()).value.uuid
    {
      var carePlanID := AllCarePlanIDs[i];
      assert AllCarePlanIDs[..i + 1] == AllCarePlanIDs[..i] + [carePlanID];
      var first := FirstPlanWithId(found, carePlanID.RawValue());
      if first.Some? {
        results := results[carePlanID := first.value.uuid];
      } else {
        results := results - {carePlanID};
      }
      i := i + 1;
    }
    assert AllCarePlanIDs[..i] == AllCarePlanIDs;
    CarePlanIDCases();
  }

  /** Only health and check-in plans can be fetched, so the productivity and diet keys stay absent. */
  lemma UnqueriedPlansNeverFetched(plans: seq<CarePlan>)
    ensures forall p :: p in WithIds(plans, CarePlanIdOf, QueriedCarePlanIDs) ==>
      p.id != Productivity.RawValue() && p.id != Diet.RawValue()
  {
    CarePlanIDCases();
    assert QueriedCarePlanIDs == [AllCarePlanIDs[0].RawValue(), AllCarePlanIDs[1].RawValue()];
  }

  /**
   * Fetching keeps the store order, so for a queried id the first fetched
   * plan with that id is the first stored one.
   */
  lemma {:induction false} FirstPlanSurvivesFetch(plans: seq<CarePlan>, ids: seq<string>, id: string)
    requires id in ids
    ensures FirstPlanWithId(WithIds(plans, CarePlanIdOf, ids), id) == FirstPlanWithId(plans, id)
  {
    if plans != [] {
      var rest := WithIds(plans[1..], CarePlanIdOf, ids);
      FirstPlanSurvivesFetch(plans[1..], ids, id);
      if plans[0].id in ids {
        assert WithIds(plans, CarePlanIdOf, ids) == [plans[0]] + rest;
        assert ([plans[0]] + rest)[1..] == rest;
      } else {
        assert WithIds(plans, CarePlanIdOf, ids) == rest;
      }
    }
  }

  /**
   * `getCarePlanUUIDs`: an empty map without a store; otherwise the uuids of
   * the health and check-in plans the store holds, keyed by care plan id. A
   * failing fetch is rethrown.
   */
  method GetCarePlanUUIDs(store: CareStore?, fetchFailure: Option<StoreError>)
    returns (r: Result<map<CarePlanID, UUID>, StoreError>)
    modifies store
    ensures store == null ==> r == Success(map[])
    ensures store != null ==> store.log == old(store.log) + [CarePlanFetch(QueriedCarePlanIDs)]
    ensures store != null && fetchFailure.Some? ==> r == Failure(fetchFailure.value)
    ensures store != null && fetchFailure.None? ==> (
      && r.Success?
      && (forall id: CarePlanID :: id in r.value <==>
            (id == Health || id == CarePlanID.CheckIn) && exists p :: p in store.carePlans && p.id == id.RawValue())
      && Productivity !in r.value && Diet !in r.value
      && (forall id: CarePlanID :: id in r.value ==> r.value[id] == FirstPlanWithId(store.carePlans, id.RawValue()).value.uuid))
    ensures store != null ==> (
      && store.tasks == old(store.tasks) && store.contacts == old(store.contacts)
      && store.carePlans == old(store.carePlans))
  {
    if store == null {
      return Success(map[]);
    }
    store.log := store.log + [CarePlanFetch(QueriedCarePlanIDs)];
    if fetchFailure.Some? {
      return Failure(fetchFailure.value);
    }
    var foundCarePlans := WithIds(store.carePlans, CarePlanIdOf, QueriedCarePlanIDs);
    var results := CollectCarePlanUUIDs(foundCarePlans);
    UnqueriedPlansNeverFetched(store.carePlans);
    CarePlanIDCases();
    forall id: CarePlanID | id in results
      ensures results[id] == FirstPlanWithId(store.carePlans, id.RawValue()).value.uuid
    {
      FirstPlanSurvivesFetch(store.carePlans, QueriedCarePlanIDs, id.RawValue());
    }
    return Success(results);
  }

  // ---------------------------------------------------------------------------
  // OCKHealthKitPassthroughStore
  // ---------------------------------------------------------------------------

  /** A call an `OCKHealthKitPassthroughStore` receives. */
  datatype PassthroughCall =
    | HealthKitTaskFetch(taskIds: seq<string>)
    | HealthKitTaskAdd(tasks: seq<HealthKitTask>)

  /** An `OCKHealthKitPassthroughStore`: its tasks and the calls it has received. */
  class HealthKitPassthroughStore {
    var tasks: seq<HealthKitTask>
    var log: seq<PassthroughCall>

    constructor (tasks: seq<HealthKitTask>)
      ensures this.tasks == tasks && log == []
    {
      this.tasks := tasks;
      log := [];
    }

    /** `addTasksIfNotPresent` of the passthrough store: the same rules as the `OCKStore` one. */
    method AddTasksIfNotPresent(ts: seq<HealthKitTask>, fetchFailure: Option<StoreError>, addFailure: Option<StoreError>)
      returns (r: Outcome<StoreError>)
      modifies this
      ensures r == if fetchFailure.Some? then Fail(fetchFailure.value) else Pass
      ensures var missing := Missing(ts, HealthKitTaskIdOf, IdsOf(old(tasks), HealthKitTaskIdOf));
        && log == old(log) + [HealthKitTaskFetch(IdsOf(ts, HealthKitTaskIdOf))]
                  + (if fetchFailure.None? && missing != [] then [HealthKitTaskAdd(missing)] else [])
        && tasks == old(tasks) + (if fetchFailure.None? && addFailure.None? then missing else [])
      ensures fetchFailure.None? && addFailure.None? ==>
        && (forall t :: t in ts ==> t.id in IdsOf(tasks, HealthKitTaskIdOf))
        && Missing(ts, HealthKitTaskIdOf, IdsOf(tasks, HealthKitTaskIdOf)) == []
    {
      var tasksToAdd := ts;
      var taskIdsToAdd := IdsOf(tasksToAdd, HealthKitTaskIdOf);
      log := log + [HealthKitTaskFetch(taskIdsToAdd)];
      if fetchFailure.Some? {
        return Fail(fetchFailure.value);
      }
      var foundTasks := WithIds(tasks, HealthKitTaskIdOf, taskIdsToAdd);
      var tasksNotInStore := CollectMissing(tasksToAdd, HealthKitTaskIdOf, IdsOf(foundTasks, HealthKitTaskIdOf));
      FetchedIdsSuffice(tasks, HealthKitTaskIdOf, ts, HealthKitTaskIdOf);
      AddingMissingCoversAll(tasks, ts, HealthKitTaskIdOf);
      if |tasksNotInStore| > 0 {
        log := log + [HealthKitTaskAdd(tasksNotInStore)];
        if addFailure.None? {
          tasks := tasks + tasksNotInStore;
        }
      }
      return Pass;
    }
  }
}
