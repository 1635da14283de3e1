/**
 * The Insights screen: which tasks it shows, and the chart each task's
 * `graph` selects. A chart is a value holding its plot type and its data
 * series; colours, gradients and header texts are not modelled.
 */
module Insights {
  import opened Wrappers
  import opened Constants
  import opened Surveys
  import opened Tasks
  import opened Entities

  datatype PlotType = LinePlot | BarPlot | ScatterPlot

  /** `OCKEventAggregator`: count the outcome values, or the mean or median of the values of a kind. */
  datatype Aggregator = CountOutcomeValues | AggregatorMean(kind: string) | AggregatorMedian(kind: string)

  /** `OCKDataSeriesConfiguration`, without its colours. */
  datatype DataSeries = DataSeries(taskID: string, legendTitle: string, markerSize: nat, aggregator: Aggregator)

  /** `OCKCartesianChartViewController`, reduced to its plot type and series. */
  datatype ChartCard = ChartCard(plotType: PlotType, series: seq<DataSeries>)

  /** The legend of a single-series chart when the task has no group identifier. */
  function DefaultLegend(g: GraphCard): string {
    match g
    case CheckIn => ""
    case Bar => "Bar Chart"
    case Line => "Line Chart"
    case Scatter => "Scatter Chart"
  }

  /** The `graph` of a task, for the two task types that have one. */
  function GraphOf(task: AnyTask): (r: Option<GraphCard>)
    reads task.Footprint()
    ensures r.None? <==> task.Other?
    ensures task.Care? ==> r == Some(task.care.Graph())
    ensures task.HealthKit? ==> r == Some(task.healthKit.Graph())
  {
    match task
    case Care(t) => Some(t.Graph())
    case HealthKit(t) => Some(t.Graph())
    case Other(_, _) => None
  }

  /** The `groupIdentifier` of a task, for the two task types that have one. */
  function GroupIdentifierOf(task: AnyTask): Option<string> {
    match task
    case Care(t) => t.groupIdentifier
    case HealthKit(t) => t.groupIdentifier
    case Other(_, _) => None
  }

  /**
   * The charts a graph kind selects for a task. Check-in is one line chart
   * with a mean and a median series of the sleep answers, both on the
   * check-in survey's id; the other kinds are one chart of their own plot
   * type, counting the task's outcome values, with the group identifier (or
   * the kind's default) as legend, and markers of 10 for bars and 5 otherwise.
   */
  function ChartsFor(g: GraphCard, taskID: string, groupIdentifier: Option<string>, sleepKind: string): (cards: seq<ChartCard>)
    ensures |cards| == 1
    ensures g == GraphCard.CheckIn ==>
      && cards[0].plotType == LinePlot
      && cards[0].series == [
           DataSeries(CheckInSurvey.Identifier(), "Mean", 10, AggregatorMean(sleepKind)),
           DataSeries(CheckInSurvey.Identifier(), "Median", 10, AggregatorMedian(sleepKind))]
    ensures g != GraphCard.CheckIn ==>
      && cards[0].plotType == (if g == Bar then BarPlot else if g == Line then LinePlot else ScatterPlot)
      && |cards[0].series| == 1
      && cards[0].series[0].taskID == taskID
      && cards[0].series[0].legendTitle == groupIdentifier.GetOr(DefaultLegend(g))
      && cards[0].series[0].markerSize == (if g == Bar then 10 else 5)
      && cards[0].series[0].aggregator == CountOutcomeValues
  {
    match g
    case CheckIn =>
      var surveyTaskID := CheckInSurvey.Identifier();
      [ChartCard(LinePlot, [DataSeries(surveyTaskID, "Mean", 10, AggregatorMean(sleepKind)),
                            DataSeries(surveyTaskID, "Median", 10, AggregatorMedian(sleepKind))])]
    case Bar =>
      [ChartCard(BarPlot, [DataSeries(taskID, groupIdentifier.GetOr("Bar Chart"), 10, CountOutcomeValues)])]
    case Line =>
      [ChartCard(LinePlot, [DataSeries(taskID, groupIdentifier.GetOr("Line Chart"), 5, CountOutcomeValues)])]
    case Scatter =>
      [ChartCard(ScatterPlot, [DataSeries(taskID, groupIdentifier.GetOr("Scatter Chart"), 5, CountOutcomeValues)])]
  }

  /** Every chart plots either the task's own id or, for check-in, the check-in survey's id "check in". */
  lemma ChartsPlotTaskOrCheckIn(g: GraphCard, taskID: string, groupIdentifier: Option<string>, sleepKind: string)
    ensures var cards := ChartsFor(g, taskID, groupIdentifier, sleepKind);
      forall s :: s in cards[0].series ==>
        (if g == GraphCard.CheckIn then s.taskID == "check in" else s.taskID == taskID)
  {
    var series := ChartsFor(g, taskID, groupIdentifier, sleepKind)[0].series;
    if g == GraphCard.CheckIn {
      CheckInSeriesIds(series, sleepKind);
    } else {
      assert series == [series[0]];
    }
  }

  /** Both check-in series plot the check-in survey, whose id is "check in". */
  lemma CheckInSeriesIds(series: seq<DataSeries>, sleepKind: string)
    requires series == [DataSeries(CheckInSurvey.Identifier(), "Mean", 10, AggregatorMean(sleepKind)),
                        DataSeries(CheckInSurvey.Identifier(), "Median", 10, AggregatorMedian(sleepKind))]
    ensures forall s :: s in series ==> s.taskID == "check in"
  {
    CheckInIdentifierValue();
  }

  /**
   * `taskViewController(for:on:)`: nil for a task that is neither an
   * `OCKTask` nor an `OCKHealthKitTask`, and otherwise the charts its graph
   * selects. The `OCKTask` graph is read with its corrected `.bar` default.
   */
  function TaskViewController(task: AnyTask, sleepKind: string): (r: Option<seq<ChartCard>>)
    reads task.Footprint()
    ensures r.None? <==> task.Other?
    ensures r.Some? ==> r.value == ChartsFor(GraphOf(task).value, task.Id(), GroupIdentifierOf(task), sleepKind)
  {
    match GraphOf(task)
    case None => None
    case Some(g) => Some(ChartsFor(g, task.Id(), GroupIdentifierOf(task), sleepKind))
  }

  /**
   * `fetchTasks(on:)`: the fetched tasks without the onboarding task, in
   * fetch order; a failing fetch gives no tasks.
   */
  function FetchTasks(fetched: Result<seq<AnyTask>, StoreError>): (r: seq<AnyTask>)
    ensures fetched.Failure? ==> r == []
    ensures fetched.Success? ==> r == WithoutId(fetched.value, OnboardSurvey.Identifier())
  {
    match fetched
    case Failure(_) => []
    case Success(tasks) => WithoutId(tasks, OnboardSurvey.Identifier())
  }

  /** The tasks whose id is not `id`, in order. */
  function WithoutId(tasks: seq<AnyTask>, id: string): (r: seq<AnyTask>)
    ensures forall i :: 0 <= i < |r| ==> r[i].Id() != id && r[i] in tasks
    ensures forall i :: 0 <= i < |tasks| && tasks[i].Id() != id ==> tasks[i] in r
    ensures |r| <= |tasks|
  {
    if tasks == [] then []
    else
      var k := |tasks| - 1;
      assert tasks == tasks[..k] + [tasks[k]];
      WithoutId(tasks[..k], id) + (if tasks[k].Id() == id then [] else [tasks[k]])
  }

  /** The filter keeps fetch order: the tasks of two runs in a row are the kept tasks of each, in a row. */
  lemma {:induction false} WithoutIdAppend(a: seq<AnyTask>, b: seq<AnyTask>, id: string)
    ensures WithoutId(a + b, id) == WithoutId(a, id) + WithoutId(b, id)
    decreases |b|
  {
    if b == [] {
      assert a + b == a;
    } else {
      var k := |b| - 1;
      assert (a + b)[..|a + b| - 1] == a + b[..k];
      assert (a + b)[|a + b| - 1] == b[k];
      WithoutIdAppend(a, b[..k], id);
    }
  }

  /** A single task is kept exactly when its id differs. */
  lemma WithoutIdSingle(task: AnyTask, id: string)
    ensures WithoutId([task], id) == if task.Id() == id then [] else [task]
  {
    assert [task][..0] == [];
  }

  /** The onboarding task, whose id is "onboard", never reaches the Insights screen. */
  lemma OnboardingNeverShown(fetched: Result<seq<AnyTask>, StoreError>)
    ensures forall i :: 0 <= i < |FetchTasks(fetched)| ==> FetchTasks(fetched)[i].Id() != "onboard"
  {
    OnboardIdentifierValue();
  }

  /** The objects behind the tasks of `tasks`. */
  function TasksFootprint(tasks: seq<AnyTask>): set<object> {
    set i, o | 0 <= i < |tasks| && o in tasks[i].Footprint() :: o
  }

  /**
   * The `compactMap` of `displayTasks`: the cards of each task that has a
   * chart, in task order; tasks without one contribute nothing.
   */
  function ChartLists(tasks: seq<AnyTask>, sleepKind: string): (lists: seq<seq<ChartCard>>)
    reads TasksFootprint(tasks)
    ensures |lists| <= |tasks|
    ensures (forall i :: 0 <= i < |tasks| ==> !tasks[i].Other?) ==> |lists| == |tasks|
    ensures (forall i :: 0 <= i < |tasks| ==> tasks[i].Other?) ==> lists == []
    ensures forall j :: 0 <= j < |lists| ==> |lists[j]| == 1
  {
    if tasks == [] then []
    else
      var k := |tasks| - 1;
      assert TasksFootprint(tasks[..k]) <= TasksFootprint(tasks);
      assert tasks[k].Footprint() <= TasksFootprint(tasks);
      var last := TaskViewController(tasks[k], sleepKind);
      ChartLists(tasks[..k], sleepKind) + (if last.Some? then [last.value] else [])
  }

  /** Cards follow task order: the lists of two task sequences in a row are the lists of each, in a row. */
  lemma {:induction false} ChartListsAppend(a: seq<AnyTask>, b: seq<AnyTask>, sleepKind: string)
    ensures ChartLists(a + b, sleepKind) == ChartLists(a, sleepKind) + ChartLists(b, sleepKind)
    decreases |b|
  {
    if b == [] {
      assert a + b == a;
    } else {
      var k := |b| - 1;
      assert (a + b)[..|a + b| - 1] == a + b[..k];
      assert (a + b)[|a + b| - 1] == b[k];
      ChartListsAppend(a, b[..k], sleepKind);
    }
  }

  /** The concatenation of card lists, in order. */
  function Flatten(lists: seq<seq<ChartCard>>): (cards: seq<ChartCard>)
    ensures (forall j :: 0 <= j < |lists| ==> |lists[j]| == 1) ==> |cards| == |lists|
    ensures forall j :: 0 <= j < |lists| ==> forall c :: c in lists[j] ==> c in cards
  {
    if lists == [] then []
    else
      var k := |lists| - 1;
      var init := Flatten(lists[..k]);
      assert forall j :: 0 <= j < k ==> lists[..k][j] == lists[j];
      init + lists[k]
  }

  /** A single task contributes its charts when it has some, and nothing otherwise. */
  lemma ChartListsSingle(task: AnyTask, sleepKind: string)
    ensures var charts := TaskViewController(task, sleepKind);
      ChartLists([task], sleepKind) == if charts.Some? then [charts.value] else []
  {
    assert [task][..0] == [];
  }

  /** Flattening keeps the order of the lists: two runs of lists in a row flatten to each one's cards, in a row. */
  lemma {:induction false} FlattenAppend(a: seq<seq<ChartCard>>, b: seq<seq<ChartCard>>)
    ensures Flatten(a + b) == Flatten(a) + Flatten(b)
    decreases |b|
  {
    if b == [] {
      assert a + b == a;
    } else {
      var k := |b| - 1;
      var ab := a + b;
      assert ab[..|ab| - 1] == a + b[..k];
      assert ab[|ab| - 1] == b[k];
      FlattenLast(ab);
      FlattenLast(b);
      FlattenAppend(a, b[..k]);
    }
  }

  /** Unfolds `Flatten` once: the cards of all lists but the last, then the last list's. */
  lemma FlattenLast(lists: seq<seq<ChartCard>>)
    requires lists != []
    ensures Flatten(lists) == Flatten(lists[..|lists| - 1]) + lists[|lists| - 1]
  {
  }

  /** A single list flattens to itself. */
  lemma FlattenSingle(cards: seq<ChartCard>)
    ensures Flatten([cards]) == cards
  {
    assert [cards][..0] == [];
  }

  /**
   * The cards of the Insights screen, one task at a time: a task appended to
   * the fetched tasks appends its own charts, if it has any, after the cards
   * of the tasks before it.
   */
  lemma ShownCardsAppend(tasks: seq<AnyTask>, task: AnyTask, sleepKind: string)
    ensures var charts := TaskViewController(task, sleepKind);
      Flatten(ChartLists(tasks + [task], sleepKind))
        == Flatten(ChartLists(tasks, sleepKind)) + (if charts.Some? then charts.value else [])
  {
    ChartListsAppend(tasks, [task], sleepKind);
    ChartListsSingle(task, sleepKind);
    FlattenAppend(ChartLists(tasks, sleepKind), ChartLists([task], sleepKind));
    var charts := TaskViewController(task, sleepKind);
    if charts.Some? {
      FlattenSingle(charts.value);
    } else {
      assert Flatten([]) == [];
    }
  }

  /** The Insights view controller: the cards it shows. */
  class InsightsViewController {
    var cards: seq<ChartCard>

    constructor ()
      ensures cards == []
    {
      cards := [];
    }

    /**
     * `displayTasks`: fetch the tasks, clear the screen, then append the cards
     * of each task in order, skipping the tasks that have none.
     */
    method DisplayTasks(fetched: Result<seq<AnyTask>, StoreError>, sleepKind: string)
      modifies this`cards
      ensures cards == Flatten(ChartLists(FetchTasks(fetched), sleepKind))
    {
      var tasks := FetchTasks(fetched);
      ShowTasks(tasks, sleepKind);
    }

    /** Clears the screen, then appends the cards of each task that has a chart, in task order. */
    method ShowTasks(tasks: seq<AnyTask>, sleepKind: string)
      modifies this`cards
      ensures cards == Flatten(ChartLists(tasks, sleepKind))
    {
      cards := [];
      var cardLists := ChartLists(tasks, sleepKind);
      assert this !in TasksFootprint(tasks);
      var i := 0;
      while i < |cardLists|
        invariant 0 <= i <= |cardLists|
        invariant cards == Flatten(cardLists[..i])
        invariant cardLists == ChartLists(tasks, sleepKind)
      {
        assert cardLists[..i + 1][..i] == cardLists[..i];
        cards := cards + cardLists[i];
        i := i + 1;
      }
      assert cardLists[..i] == cardLists;
    }
  }
}
