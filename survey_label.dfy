/**
 * `SurveyViewSynchronizer.updateView`: whether the instructions label of a
 * survey card is shown, and with which answers. The label is a value: hidden,
 * or the numbers its text would show (the text formatting is not modelled).
 */
module SurveyLabel {
  import opened Wrappers
  import opened Events
  import opened Tasks

  /** The instructions label after `updateView`. */
  datatype Label =
    | Hidden
    | CheckInText(restfulness: real, sleep: real)
    | RangeOfMotionText(range: real)

  /** The title the label rule and the store both give the check-in task. */
  const CheckInTitle: string := "Check In \U{1F39F}\U{FE0F}"

  /** The range-of-motion title the label rule matches. */
  const RangeOfMotionTitleAsWritten: string := "Range of Motion \U{1F9BF}"

  /** The title the store gives the range-of-motion task ("Of" capitalised). */
  const StoreRangeOfMotionTitle: string := "Range Of Motion \U{1F9BF}"

  /** The outcome kind the range-of-motion answer is stored under: the `range` key path. */
  const RangeKind: string := "range"

  /** The event the label describes, when it is shown at all: the first event, with an outcome, of an `OCKTask`. */
  function LabelledEvent(events: TaskEvents): (r: Option<Event>)
    ensures r.Some? <==> FirstEvent(events).Some? && events[0][0].outcome.Some? && events[0][0].task.Care?
    ensures r.Some? ==> r.value == events[0][0]
  {
    match FirstEvent(events)
    case None => None
    case Some(e) => if e.outcome.Some? && e.task.Care? then Some(e) else None
  }

  /** The label for the task titled `title`, matching `rangeTitle` for the range-of-motion case. */
  function LabelFor(e: Event, title: string, rangeTitle: string, restKind: string, sleepKind: string): Label {
    if title == CheckInTitle then CheckInText(Answer(e, restKind), Answer(e, sleepKind))
    else if title == rangeTitle then RangeOfMotionText(Answer(e, RangeKind))
    else Hidden
  }

  /**
   * `updateView` as written: hidden without a first event, without an
   * outcome, or for a task that is not an `OCKTask`; the check-in answers for
   * the title "Check In 🎟️"; the range answer for the title
   * "Range of Motion 🦿"; hidden for every other title. Titles match exactly.
   */
  function UpdateViewAsWritten(events: TaskEvents, restKind: string, sleepKind: string): (shown: Label)
    ensures LabelledEvent(events).None? ==> shown == Hidden
    ensures LabelledEvent(events).Some? ==>
      var e := LabelledEvent(events).value;
      var title := e.task.care.title;
      && (title == CheckInTitle ==> shown == CheckInText(Answer(e, restKind), Answer(e, sleepKind)))
      && (title == RangeOfMotionTitleAsWritten ==> shown == RangeOfMotionText(Answer(e, RangeKind)))
      && (title != CheckInTitle && title != RangeOfMotionTitleAsWritten ==> shown == Hidden)
  {
    match LabelledEvent(events)
    case None => Hidden
    case Some(e) => LabelFor(e, e.task.care.title, RangeOfMotionTitleAsWritten, restKind, sleepKind)
  }

  /** The rule with the range-of-motion title the store actually creates. */
  function UpdateView(events: TaskEvents, restKind: string, sleepKind: string): (shown: Label)
    ensures LabelledEvent(events).None? ==> shown == Hidden
    ensures LabelledEvent(events).Some? ==>
      var e := LabelledEvent(events).value;
      var title := e.task.care.title;
      && (title == CheckInTitle ==> shown == CheckInText(Answer(e, restKind), Answer(e, sleepKind)))
      && (title == StoreRangeOfMotionTitle ==> shown == RangeOfMotionText(Answer(e, RangeKind)))
      && (title != CheckInTitle && title != StoreRangeOfMotionTitle ==> shown == Hidden)
  {
    match LabelledEvent(events)
    case None => Hidden
    case Some(e) => LabelFor(e, e.task.care.title, StoreRangeOfMotionTitle, restKind, sleepKind)
  }

  /** The label is shown only for the first event of an `OCKTask` that has an outcome. */
  lemma ShownOnlyWithOutcome(events: TaskEvents, restKind: string, sleepKind: string)
    ensures UpdateView(events, restKind, sleepKind) != Hidden ==>
      |events| > 0 && |events[0]| > 0 && events[0][0].outcome.Some? && events[0][0].task.Care?
    ensures UpdateViewAsWritten(events, restKind, sleepKind) != Hidden ==>
      |events| > 0 && |events[0]| > 0 && events[0][0].outcome.Some? && events[0][0].task.Care?
  {
  }

  /** The two titles differ in one letter's case, so the exact match as written never fires for the store's task. */
  lemma RangeTitlesDiffer()
    ensures RangeOfMotionTitleAsWritten != StoreRangeOfMotionTitle
    ensures StoreRangeOfMotionTitle != CheckInTitle
  {
    assert RangeOfMotionTitleAsWritten[6] == 'o' && StoreRangeOfMotionTitle[6] == 'O';
    assert StoreRangeOfMotionTitle[0] != CheckInTitle[0];
  }

  /**
   * As written, the range-of-motion task the store creates never gets its
   * label: with an outcome on its first event, the label stays hidden, while
   * the corrected rule shows the range answer.
   */
  lemma StoreRangeTaskHiddenAsWritten(t: CareTask, o: Events.Outcome, restKind: string, sleepKind: string)
    requires t.title == StoreRangeOfMotionTitle
    ensures UpdateViewAsWritten([[Event(Some(o), Care(t))]], restKind, sleepKind) == Hidden
    ensures UpdateView([[Event(Some(o), Care(t))]], restKind, sleepKind)
      == RangeOfMotionText(Answer(Event(Some(o), Care(t)), RangeKind))
  {
    RangeTitlesDiffer();
  }

  /** The correction changes nothing but the range-of-motion title it matches. */
  lemma CorrectionOnlyChangesRangeTitle(events: TaskEvents, restKind: string, sleepKind: string)
    ensures UpdateViewAsWritten(events, restKind, sleepKind) != UpdateView(events, restKind, sleepKind) ==>
      var title := events[0][0].task.care.title;
      title == RangeOfMotionTitleAsWritten || title == StoreRangeOfMotionTitle
  {
  }
}
