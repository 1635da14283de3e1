# OCKSample logic, modelled in Dafny

OCKSample is a CareKit sample app: a thin layer of view models, views and
store extensions over Apple's CareKit, CareKitStore, ResearchKit and HealthKit
frameworks. This project models the part of the app that is logic, not
framework glue, and proves what that logic promises:

- **Task metadata side-channel.** `OCKTask` and `OCKHealthKitTask` carry their `card`, `survey` and `graph` as strings in the optional `userInfo` dictionary.
  - The getters fall back to a default.
  - The setters install an empty dictionary first when there is none.
  - Set-then-get round-trips, and the setters touch disjoint keys.
- **Raw-value enumerations and constants.** These are `CareKitCard`, `GraphCard`, `CarePlanID`, `UserType`, `Survey`, `TaskID.ordered` and `AppError.errorDescription`. The model proves their case lists, the distinctness of their raw values and the decoding of raw values.
- **Survey identity.**
  - A survey's identifier is its raw value, lower-cased and then trimmed. That normalisation is idempotent.
  - The onboarding survey's five steps have identifiers derived from it, pairwise distinct.
- **"Add only if not present".**
  - `addTasksIfNotPresent`, in both `OCKStore` and `OCKHealthKitPassthroughStore`, and `addContactsIfNotPresent` are order-preserving filters against a store that is queried by id.
  - `getCarePlanUUIDs` fills a dictionary in a loop.
- **View-model state.**
  - `CardViewModel`: id de-duplication, value update, default action, query and error setters, and the numeric `value` accessors of the three custom cards.
  - `ProfileViewModel`: the projection of an assigned patient onto the form, and the change-detecting saves of the patient and the contact.
  - `OCKAnyEvent.answer(kind:)`.
- **Decision tables.**
  - The Insights screen maps a task's graph kind to a chart.
  - The survey card decides whether it shows its instructions label.

Stores are Dafny classes holding their entities as sequences, with a `log` of
the calls they receive. Whether a store call throws is a parameter of the
operation, and so are the logged-in user's id and the current date. The
`userInfo` setters, the card view models, the profile view model and the
Insights screen are classes whose methods update their fields. The getters,
decision tables and filters are functions.

Modules, one per source component: `Wrappers` (Option, Result, Outcome),
`Constants`, `OutcomeValues`, `Surveys`, `TaskMetadata`, `Tasks`, `Events`,
`Entities`, `Stores`, `CardViewModels`, `Profile`, `Insights`,
`SurveyLabel`.

## Model

| member | source | states |
|---|---|---|
| Constants.UserInfoKeysDistinct | OCKSample/Constants.swift:81-83 | The userInfo keys "card", "survey" and "graph" are pairwise distinct. |
| Constants.CareKitCardFromRaw | OCKSample/Constants.swift:90-104 | `CareKitCard(rawValue:)` inverts `rawValue`: a decoded card has the given raw value, and every card whose raw value is the text is found. |
| Constants.CareKitCardCases | OCKSample/Constants.swift:90-104 | `allCases` has 12 entries. It lists every card, and the raw values are pairwise distinct. |
| Constants.GraphCardFromRaw | OCKSample/Constants.swift:106-113 | `GraphCard(rawValue:)` inverts `rawValue`. |
| Constants.GraphCardCases | OCKSample/Constants.swift:106-113 | There are exactly four graph kinds (check-in, bar, line, scatter), all listed, with distinct raw values. |
| Constants.CarePlanIDFromRaw | OCKSample/Constants.swift:115-121 | `CarePlanID(rawValue:)` inverts `rawValue`. |
| Constants.CarePlanIDCases | OCKSample/Constants.swift:115-121 | There are four care plan ids, all listed in `allCases`, with distinct raw values. |
| Constants.OrderedTaskIDs | OCKSample/Constants.swift:123-138 | `TaskID.ordered` has 10 entries, pairwise distinct. Each is a declared task id, and every declared id occurs. |
| Constants.UserTypeFromRaw | OCKSample/Constants.swift:141-143 | `UserType(rawValue:)` inverts `rawValue`. |
| Constants.AllTypesAsArray | OCKSample/Constants.swift:145-149 | It has two entries, in declaration order: the first decodes to `.patient` and the second to `.none`. |
| Constants.ErrorDescription | OCKSample/Constants.swift:40-63 | `errorDescription` is never nil. `.errorString(s)` is described by exactly `s`. The four localized cases start with "OCKSampleError: ". Every case without a foreign payload has a non-empty text. |
| OutcomeValues.FromDouble | OCKSample/Main/Care/CustomCards/CustomCardViewModel.swift:33 | An outcome value built from a double holds that double, no integer and no kind. |
| OutcomeValues.FromInt | OCKSample/Main/Care/CustomCards/SugaryDrinksCardViewModel.swift:29 | An outcome value built from an integer holds that integer, no double and no kind. |
| OutcomeValues.FromDate | OCKSample/Main/Surveys/Onboard.swift:155 | An outcome value built from a date holds that date and no kind. |
| OutcomeValues.DoubleOrZero | OCKSample/Main/Care/CustomCards/CustomCardViewModel.swift:27-30 | The result is 0 when there is no value or the value has no double, and the value's double otherwise. |
| OutcomeValues.IntOrZero | OCKSample/Main/Care/CustomCards/SugaryDrinksCardViewModel.swift:23-26 | The result is 0 when there is no value or the value has no integer, and the value's integer otherwise. |
| OutcomeValues.NumberRoundTrips | OCKSample/Main/Care/CustomCards/CustomCardViewModel.swift:25-35 | Storing a double or an integer as an outcome value and reading it back gives the number. |
| Surveys.SurveyFromRaw | OCKSample/Main/Surveys/Survey.swift:15-19 | `Survey(rawValue:)` inverts `rawValue`. |
| Surveys.SurveyCases | OCKSample/Main/Surveys/Survey.swift:15-19 | `allCases` is onboard, check-in, range of motion: three entries in declaration order, with distinct raw values. |
| Surveys.SurveyTypeOf | OCKSample/Main/Surveys/Survey.swift:21-30 | `type()` is total. The implementation it returns has the survey as its `surveyType`, and `.onboard` gives `Onboard`. |
| Surveys.Surveyable.Identifier | OCKSample/Main/Surveys/Surveyable.swift:37-39 | The instance `identifier()` equals the static identifier of its survey type. |
| Surveys.Lowercased | OCKSample/Main/Surveys/Surveyable.swift:33 | Lower-casing keeps the length and lowers each letter in place. |
| Surveys.TrimStart | OCKSample/Main/Surveys/Surveyable.swift:33 | The result is a suffix of the input. Everything dropped is whitespace, and the result does not start with whitespace. |
| Surveys.TrimEnd | OCKSample/Main/Surveys/Surveyable.swift:33 | The result is a prefix of the input. Everything dropped is whitespace, and the result does not end with whitespace. |
| Surveys.Trimmed | OCKSample/Main/Surveys/Surveyable.swift:33 | Trimming gives a slice of the input with no whitespace at either end. |
| Surveys.NoUpperAfterLowercasing | OCKSample/Main/Surveys/Surveyable.swift:33 | Lower-casing leaves no upper-case letter. |
| Surveys.NormalisedShape | OCKSample/Main/Surveys/Surveyable.swift:33 | A lower-cased-then-trimmed string has no upper-case letter and no whitespace at either end. |
| Surveys.NormalisedTo | OCKSample/Main/Surveys/Surveyable.swift:33 | A raw value whose lower-casing is a string with no whitespace at either end normalises to that string. |
| Surveys.TrimmedFixedPoint | OCKSample/Main/Surveys/Surveyable.swift:33 | Trimming a string with no whitespace at either end changes nothing. |
| Surveys.LowercasedFixedPoint | OCKSample/Main/Surveys/Surveyable.swift:33 | Lower-casing a string with no upper-case letter changes nothing. |
| Surveys.NormalisedIdempotent | OCKSample/Main/Surveys/Surveyable.swift:33 | Normalising an identifier again gives the same string. |
| Surveys.IdentifierIsNormal | OCKSample/Main/Surveys/Surveyable.swift:32-34 | Every static identifier has no upper-case letter and no outer whitespace, and normalisation leaves it unchanged. |
| Surveys.OnboardIdentifierValue | OCKSample/Main/Surveys/Onboard.swift:16-18 | `Onboard`'s survey type is `.onboard`, so its identifier is "onboard". |
| Surveys.CheckInIdentifierValue | OCKSample/Main/Surveys/Surveyable.swift:32-34 | The check-in survey's identifier is "check in". |
| Surveys.RangeOfMotionIdentifierValue | OCKSample/Main/Surveys/Surveyable.swift:32-34 | The range-of-motion survey's identifier is "range of motion". |
| Surveys.IdentifierValues | OCKSample/Main/Surveys/Surveyable.swift:33 | The three identifiers are "onboard", "check in" and "range of motion", and distinct surveys get distinct identifiers. |
| Surveys.OnboardSteps | OCKSample/Main/Surveys/Onboard.swift:25-132 | There are five steps in the order welcome, overview, signature (web view), permissions, completion. Each id is the survey id + "." + its suffix; the ids are pairwise distinct and all differ from the survey id. |
| Surveys.CreateOnboardSurvey | OCKSample/Main/Surveys/Onboard.swift:138-147 | The ordered task's identifier is `identifier()` ("onboard"), and its steps are the five onboarding steps for that identifier. |
| Surveys.StepIdentifiersDistinct | OCKSample/Main/Surveys/Onboard.swift:26-131 | The five step suffixes behind one prefix give five distinct ids, each longer than the prefix. |
| Surveys.OnboardExtractAnswers | OCKSample/Main/Surveys/Onboard.swift:151-156 | Whatever the result, it returns exactly one outcome value, holding the current date. |
| TaskMetadata.Lookup | OCKSample/Extensions/OCKTask.swift:17 | `userInfo?[key]` is present exactly when there is a map holding the key, and then it is that entry. |
| TaskMetadata.Assign | OCKSample/Extensions/OCKTask.swift:23-30 | A setter leaves `key` mapped to the new value, creating the map when there is none, and every other key reads as before. |
| TaskMetadata.CardOf | OCKSample/Extensions/OCKTask.swift:15-22 | `card` is the card whose raw value is stored under "card". Otherwise it is `.grid`: no map, no entry, or text that names no card. `OCKHealthKitTask.swift:13-20` is the same getter. |
| TaskMetadata.SurveyOf | OCKSample/Extensions/OCKTask.swift:33-40 | `survey` is the stored survey, or `.checkIn` when no survey's raw value is stored. |
| TaskMetadata.CareGraphAsWritten | OCKSample/Extensions/OCKTask.swift:51-58 | As written, `graph` is the stored graph when there is one. Otherwise it is the undeclared fallback (None), and then no graph's raw value is stored. |
| TaskMetadata.CareGraphAsWrittenUndefined | OCKSample/Extensions/OCKTask.swift:55 | With no `userInfo`, or an empty one, the getter as written reaches the fallback, which names no declared case. |
| TaskMetadata.CareGraphOf | OCKSample/Extensions/OCKTask.swift:51-58 | In the corrected getter, a stored graph is read as before, and otherwise the result is `.bar`. |
| TaskMetadata.HealthKitGraphOf | OCKSample/Extensions/OCKHealthKitTask.swift:31-38 | `graph` is the stored graph, or `.bar` when no graph's raw value is stored. |
| TaskMetadata.SetThenGet | OCKSample/Extensions/OCKTask.swift:15-67 | Reading back a card, survey or graph just set gives the value set, whatever the map held. |
| TaskMetadata.SettersIndependent | OCKSample/Extensions/OCKTask.swift:29 | Each setter leaves the other two getters' results unchanged. |
| Tasks.CareTask.SetCard | OCKSample/Extensions/OCKTask.swift:23-30 | `userInfo` is the old map (or an empty one) with "card" set. `card` then reads the new card, and `survey` and `graph` are unchanged. |
| Tasks.CareTask.SetSurvey | OCKSample/Extensions/OCKTask.swift:41-48 | The same as SetCard, for "survey": `survey` reads the new value, and `card` and `graph` are unchanged. |
| Tasks.CareTask.SetGraph | OCKSample/Extensions/OCKTask.swift:59-66 | The same as SetCard, for "graph": `graph` reads the new value, and `card` and `survey` are unchanged. |
| Tasks.HealthKitTask.SetCard | OCKSample/Extensions/OCKHealthKitTask.swift:21-28 | "card" is set, creating `userInfo` if needed. `card` reads back the new card, and `graph` is unchanged. |
| Tasks.HealthKitTask.SetGraph | OCKSample/Extensions/OCKHealthKitTask.swift:39-46 | "graph" is set, creating `userInfo` if needed. `graph` reads back the new graph, and `card` is unchanged. |
| Events.FirstEvent | OCKSample/Main/Care/CustomCards/SurveyViewSynchronizer.swift:22 | `first?.first` is present exactly when the first group has an event, and then it is that event. |
| Events.OfKind | OCKSample/Extensions/OCKAnyEvent.swift:14 | The values of a kind are exactly the input's values whose kind matches. |
| Events.FirstOfKind | OCKSample/Extensions/OCKAnyEvent.swift:14 | `first(where:)` finds nothing exactly when no value has the kind. Otherwise it is the value at the earliest index of that kind. |
| Events.Answer | OCKSample/Extensions/OCKAnyEvent.swift:12-16 | Without an outcome the answer is 0. A non-zero answer is the double held by the earliest outcome value of the kind. |
| Events.AnswerCases | OCKSample/Extensions/OCKAnyEvent.swift:12-16 | `answer(kind:)` is 0 without an outcome and 0 without a value of the kind. Otherwise it is the double of the earliest such value, or 0 when that value has no double. |
| Events.FirstOfKindIsFirstMatch | OCKSample/Extensions/OCKAnyEvent.swift:14 | The first value of a kind is the head of the values of that kind, so later matches are ignored. |
| Events.AnswerIgnoresOtherKinds | OCKSample/Extensions/OCKAnyEvent.swift:14 | Two outcomes with the same values of the kind give the same answer, whatever their other values. |
| Stores.IdsOf | OCKSample/Extensions/OCKStore.swift:19 | The ids of the inputs, one per input, in order. |
| Stores.WithIds | OCKSample/Extensions/OCKStore.swift:22-25 | A fetch by ids returns stored items only, each with a queried id, and every stored item with a queried id. |
| Stores.Missing | OCKSample/Extensions/OCKStore.swift:29-33 | The missing items are never more than the inputs. |
| Stores.MissingMembers | OCKSample/Extensions/OCKStore.swift:29-33 | Every kept item is an input whose id was not found, and every such input is kept. Nothing is kept exactly when every id was found. |
| Stores.MissingAppend | OCKSample/Extensions/OCKStore.swift:29-33 | The filter keeps input order: filtering a concatenation concatenates the filtered parts. |
| Stores.MissingDependsOnlyOnItemIds | OCKSample/Extensions/OCKStore.swift:30 | Two sets of found ids that agree on the inputs' ids give the same result. |
| Stores.FetchedIdsSuffice | OCKSample/Extensions/OCKStore.swift:19-33 | Filtering against the fetch by the inputs' ids gives the same result as filtering against everything stored. |
| Stores.AddingMissingCoversAll | OCKSample/Extensions/OCKHealthKitPassthroughStore.swift:15-42 | Once the missing items are added, every input id is stored, so a repeated call finds nothing to add. |
| Stores.CollectMissing | OCKSample/Extensions/OCKStore.swift:26-33 | The `forEach` loop builds exactly the missing inputs, in input order. |
| Stores.CareStore.AddTasksIfNotPresent | OCKSample/Extensions/OCKStore.swift:18-44 | It queries exactly the input ids, then adds the missing tasks in input order. The add is one call, made only when something is missing. A fetch error is returned; an add error is swallowed. After a successful add, every input id is stored. |
| Stores.CareStore.AddContactsIfNotPresent | OCKSample/Extensions/OCKStore.swift:88-114 | The same query, filter, order, single-add and error rules, for contacts. |
| Stores.FirstPlanWithId | OCKSample/Extensions/OCKStore.swift:82-83 | No plan is found exactly when none has the id. Otherwise it is the plan at the earliest index with that id. |
| Stores.CollectCarePlanUUIDs | OCKSample/Extensions/OCKStore.swift:81-84 | A care plan id is a key exactly when some fetched plan has it as id, and its value is the uuid of the first such plan. |
| Stores.UnqueriedPlansNeverFetched | OCKSample/Extensions/OCKStore.swift:75-77 | The query asks only for health and check-in, so no fetched plan is a productivity or diet plan. |
| Stores.FirstPlanSurvivesFetch | OCKSample/Extensions/OCKStore.swift:70-83 | The fetch keeps store order, so for a queried id the first fetched plan is the first stored plan with that id. |
| Stores.GetCarePlanUUIDs | OCKSample/Extensions/OCKStore.swift:67-86 | Without a store the result is an empty map, and a fetch error is rethrown. Otherwise health and check-in are keys exactly when such a plan is stored, and each maps to the uuid of the first stored plan with that id. Productivity and diet are never keys, and only the one fetch is made. |
| Stores.HealthKitPassthroughStore.AddTasksIfNotPresent | OCKSample/Extensions/OCKHealthKitPassthroughStore.swift:15-42 | It queries exactly the input ids and adds the missing tasks in order, in one call made only when needed. A fetch error is returned and an add error swallowed. After success every input id is stored. |
| CardViewModels.Distinct | OCKSample/Main/Care/CustomCards/CardViewModel.swift:160 | `Array(Set(ids))` holds the same ids as the input, each exactly once. |
| CardViewModels.DistinctOfDistinct | OCKSample/Main/Care/CustomCards/CardViewModel.swift:160 | Ids that already occur once each come back unchanged, so de-duplication is idempotent. |
| CardViewModels.TasksQuery | OCKSample/Main/Care/CustomCards/CardViewModel.swift:159-162 | `.tasks` gives a task-ids query holding each task's id exactly once and nothing else, and it passes the event query through unchanged. |
| CardViewModels.FirstEventOutcomeValues | OCKSample/Main/Care/CustomCards/CardViewModel.swift:49 | The values are present exactly when the first event has an outcome, and then they are that outcome's values. |
| CardViewModels.FirstEventOutcomeValueDouble | OCKSample/Main/Care/CustomCards/CardViewModel.swift:140 | It is present exactly when the first event's first outcome value has a double, and then it is that double. |
| CardViewModels.ValueAfterUpdate | OCKSample/Main/Care/CustomCards/CardViewModel.swift:139-144 | Without a first-event double the value is unchanged. Otherwise it becomes `OCKOutcomeValue(double)`: an outcome holding that double, with no kind. |
| CardViewModels.ValueUpdateIdempotent | OCKSample/Main/Care/CustomCards/CardViewModel.swift:139-144 | Updating twice from the same events gives the same result as updating once. |
| CardViewModels.CardViewModel.constructor | OCKSample/Main/Care/CustomCards/CardViewModel.swift:41-60 | A new view model has no value, no error and no query, and its action is the default one. |
| CardViewModels.CardViewModel.WithTaskID | OCKSample/Main/Care/CustomCards/CardViewModel.swift:99-109 | The query is on the one task id. A supplied action replaces the default, and nil keeps the default. |
| CardViewModels.CardViewModel.WithTask | OCKSample/Main/Care/CustomCards/CardViewModel.swift:118-128 | The query is `.tasks([task])`, whose ids are exactly `[task.id]`. A supplied action replaces the default, and nil keeps it. |
| CardViewModels.CardViewModel.SetQuery | OCKSample/Main/Care/CustomCards/CardViewModel.swift:134-136 | It replaces `query` and changes nothing else. |
| CardViewModels.CardViewModel.SetError | OCKSample/Main/Care/CustomCards/CardViewModel.swift:147-149 | It replaces `currentError` and changes nothing else. |
| CardViewModels.CardViewModel.Publish | OCKSample/Main/Care/CustomCards/CardViewModel.swift:22 | Assigning the published `value` records the assignment. |
| CardViewModels.CardViewModel.CheckIfValueShouldUpdate | OCKSample/Main/Care/CustomCards/CardViewModel.swift:139-144 | `value` becomes the update of the old value from the events. It is assigned, and so published, only when it changes. |
| CardViewModels.CardViewModel.PerformAction | OCKSample/Main/Care/CustomCards/CardViewModel.swift:43-59 | The default action ignores nil. It appends to the first event's existing outcome values, or otherwise saves a new outcome. A failing store call becomes `currentError`. A supplied action is called with the value. |
| CardViewModels.CustomCardViewModel.ValueAsDouble | OCKSample/Main/Care/CustomCards/CustomCardViewModel.swift:25-31 | The result is 0 when `value` is nil or has no double, and the value's double otherwise. |
| CardViewModels.CustomCardViewModel.SetValueAsDouble | OCKSample/Main/Care/CustomCards/CustomCardViewModel.swift:32-34 | `value` becomes an outcome holding the number, which reads back as set. Only `value` changes. |
| CardViewModels.PlanCardViewModel.ValueAsDouble | OCKSample/Main/Care/CustomCards/PlanCardViewModel.swift:21-27 | The result is 0 when `value` is nil or has no double, and the stored double otherwise. |
| CardViewModels.PlanCardViewModel.SetValueAsDouble | OCKSample/Main/Care/CustomCards/PlanCardViewModel.swift:28-30 | `value` becomes an outcome holding the number, which reads back as set. Only `value` changes. |
| CardViewModels.SugaryDrinksCardViewModel.ValueAsInt | OCKSample/Main/Care/CustomCards/SugaryDrinksCardViewModel.swift:21-27 | The result is 0 when `value` is nil or has no integer, and the stored integer otherwise. |
| CardViewModels.SugaryDrinksCardViewModel.SetValueAsInt | OCKSample/Main/Care/CustomCards/SugaryDrinksCardViewModel.swift:28-30 | `value` becomes an outcome holding the integer, which reads back as set. Only `value` changes. |
| Profile.FormNotes | OCKSample/Main/Profile/ProfileViewModel.swift:264-266 | The notes are exactly one note titled "New Note", authored by the first name and holding the note field. |
| Profile.PatientWithForm | OCKSample/Main/Profile/ProfileViewModel.swift:239-270 | The patient to update takes the form's names, birthday, sex, `[allergies]` and the one note, and keeps its id. |
| Profile.PatientUpdateIffChanged | OCKSample/Main/Profile/ProfileViewModel.swift:235-272 | Some field differs from the form exactly when applying the form changes the patient. |
| Profile.ComparePatient | OCKSample/Main/Profile/ProfileViewModel.swift:237-270 | The flag is set exactly when a field differs. The patient to update is the form applied, and it is the old patient when nothing differs. |
| Profile.NewPatient | OCKSample/Main/Profile/ProfileViewModel.swift:288-291 | A new patient has the remote id, the form's names and birthday, and no sex, allergies or notes. |
| Profile.PatientCalls | OCKSample/Main/Profile/ProfileViewModel.swift:234-303 | With a patient, one update is made, with the form applied, exactly when the form changes something. Without one, a new patient is added when a user is logged in, and nothing is called otherwise. |
| Profile.SaveOutcome | OCKSample/Main/Profile/ProfileViewModel.swift:272-273 | A save throws exactly when it calls the store and that call throws, and it throws that error. |
| Profile.PatientAfterSave | OCKSample/Main/Profile/ProfileViewModel.swift:272-300 | The patient is unchanged when nothing was called or the call threw. Otherwise it is the patient sent to the store. A changed patient carries the form's names. It is the old patient with the form applied, or, without one, the new patient of the logged-in user. |
| Profile.FormAfterSave | OCKSample/Main/Profile/ProfileViewModel.swift:272-300 | Assigning the saved patient back changes no form field except the allergies. The form is unchanged when the patient is. Only a newly added patient, which has no allergies, clears that field. |
| Profile.ContactWithForm | OCKSample/Main/Profile/ProfileViewModel.swift:313-353 | The contact takes the patient's name (when there is a patient), the form's address, and single labelled email, messaging, phone and other values. It keeps its id. |
| Profile.ContactUpdateIffChanged | OCKSample/Main/Profile/ProfileViewModel.swift:308-355 | Something differs exactly when applying the name and the form changes the contact. |
| Profile.CompareContact | OCKSample/Main/Profile/ProfileViewModel.swift:310-353 | The flag is set exactly when something differs. The contact to update is the name and form applied, or the old contact when nothing differs. |
| Profile.NewContact | OCKSample/Main/Profile/ProfileViewModel.swift:378-380 | A new contact has the remote id and the patient's name, and no address or contact information. |
| Profile.ContactCalls | OCKSample/Main/Profile/ProfileViewModel.swift:306-389 | With a contact, one update is made exactly when something changes. Without one, a contact is added only when a user is logged in and the patient has a name. |
| Profile.ContactAfterSave | OCKSample/Main/Profile/ProfileViewModel.swift:355-386 | The contact is unchanged when nothing was called or the call threw. Otherwise it is the contact sent to the store: the old contact with the name and form applied, or, without one, the new contact of the logged-in user named like the patient. |
| Profile.NameOf | OCKSample/Main/Profile/ProfileViewModel.swift:313 | `patient?.name` is present exactly when there is a patient. |
| Profile.ProfileCalls | OCKSample/Main/Profile/ProfileViewModel.swift:224-226 | Saving the profile makes at most two store calls. |
| Profile.ProfileCallsOrder | OCKSample/Main/Profile/ProfileViewModel.swift:224-226 | The patient's calls come first and every later call is a contact call. A throwing patient save makes no contact call. With no patient, no contact and no user, nothing is called. |
| Profile.ProfileOutcome | OCKSample/Main/Profile/ProfileViewModel.swift:224-229 | A failed save reports an error thrown by the patient save or by the contact save. |
| Profile.ProfileAlert | OCKSample/Main/Profile/ProfileViewModel.swift:223-228 | The alert is the success text or begins with "Could not save profile: ". |
| Profile.ProfileAlertCases | OCKSample/Main/Profile/ProfileViewModel.swift:222-231 | The alert reads as success exactly when neither save threw. Otherwise it names the patient's error or, failing that, the contact's. |
| Profile.FailureIsNotSuccess | OCKSample/Main/Profile/ProfileViewModel.swift:223-228 | No failure message equals the success message. |
| Profile.ProfileViewModel.constructor | OCKSample/Main/Profile/ProfileViewModel.swift:20-35 | The initial form is empty, the sex is `.other("other")`, there is no alert and no patient or contact, and the message is the success text. |
| Profile.ProfileViewModel.SetPatient | OCKSample/Main/Profile/ProfileViewModel.swift:69-91 | The names, birthday and first allergy are copied into the form, with "" or the current date for what is absent. |
| Profile.ProfileViewModel.SavePatient | OCKSample/Main/Profile/ProfileViewModel.swift:234-303 | It makes exactly the patient's store calls and returns their outcome. The stored patient becomes the view model's patient. The form is as assigning that patient leaves it: unchanged after an update, or when the patient is unchanged, with only the allergies cleared after an add. |
| Profile.ProfileViewModel.SaveContact | OCKSample/Main/Profile/ProfileViewModel.swift:306-389 | It makes exactly the contact's store calls, using the current patient's name. The stored contact becomes the view model's contact, and a failed or absent call leaves the contact as it was. |
| Profile.ProfileViewModel.SavePatientThenContact | OCKSample/Main/Profile/ProfileViewModel.swift:224-229 | The calls are the patient's, then the contact's unless the patient save threw. The outcome is the first error thrown. The patient and the form are as the patient save leaves them. The contact is unchanged when the patient save threw, and otherwise is as the contact save leaves it, named like the new patient. |
| Profile.ProfileViewModel.SaveProfile | OCKSample/Main/Profile/ProfileViewModel.swift:222-231 | The alert is always raised, and its message is the alert for the outcome of the two saves. The store calls are the profile's calls in order. The patient, the form and the contact end as the two saves leave them. |
| Insights.GraphOf | OCKSample/Main/Insights/InsightsViewModel.swift:81-88 | There is a graph exactly for an `OCKTask` or an `OCKHealthKitTask`, and it is that task's `graph`. An `OCKTask`'s graph is read with the corrected `.bar` default (see Findings). |
| Insights.ChartsFor | OCKSample/Main/Insights/InsightsViewModel.swift:90-204 | Each graph kind gives one chart. Check-in is a line chart with "Mean" and "Median" series on the check-in survey id, marker 10. Bar, line and scatter each give one series on the task id: the legend is the group identifier or the kind's default, with marker 10 for bar and 5 otherwise, counting outcome values. |
| Insights.ChartsPlotTaskOrCheckIn | OCKSample/Main/Insights/InsightsViewModel.swift:91-132 | Every series plots the task's own id, except that check-in plots "check in". |
| Insights.TaskViewController | OCKSample/Main/Insights/InsightsViewModel.swift:79-209 | The result is nil exactly for a task that is neither kind, and otherwise the charts of its graph. |
| Insights.FetchTasks | OCKSample/Main/Insights/InsightsViewModel.swift:67-77 | A failing fetch gives no tasks. Otherwise the fetched tasks are kept in order, except the onboarding task. |
| Insights.WithoutId | OCKSample/Main/Insights/InsightsViewModel.swift:72 | The filter keeps exactly the tasks whose id differs. |
| Insights.WithoutIdAppend | OCKSample/Main/Insights/InsightsViewModel.swift:72 | `filter` keeps fetch order: filtering two runs of tasks in a row gives the kept tasks of each, in a row. |
| Insights.WithoutIdSingle | OCKSample/Main/Insights/InsightsViewModel.swift:72 | A single task is kept exactly when its id differs. |
| Insights.OnboardingNeverShown | OCKSample/Main/Insights/InsightsViewModel.swift:72 | No fetched task has the id "onboard". |
| Insights.ChartLists | OCKSample/Main/Insights/InsightsViewModel.swift:216-224 | There is one list per task that has charts, each holding one chart. No task is skipped when every task has a graph, and none is kept when none has. |
| Insights.ChartListsAppend | OCKSample/Main/Insights/InsightsViewModel.swift:216-224 | The chart lists follow task order: the lists of two task sequences, one after the other, are the lists of each. |
| Insights.ChartListsSingle | OCKSample/Main/Insights/InsightsViewModel.swift:216-224 | A single task contributes its charts when it has some, and nothing otherwise. |
| Insights.Flatten | OCKSample/Main/Insights/InsightsViewModel.swift:224-228 | Every chart of every list is appended, one chart per list when each list has one. |
| Insights.FlattenAppend | OCKSample/Main/Insights/InsightsViewModel.swift:224-228 | Appending keeps order: two runs of lists flatten to the cards of each, one after the other. |
| Insights.FlattenSingle | OCKSample/Main/Insights/InsightsViewModel.swift:224-228 | A single list of cards flattens to itself. |
| Insights.ShownCardsAppend | OCKSample/Main/Insights/InsightsViewModel.swift:216-228 | A task after the others adds exactly its own charts, if any, after the cards of the tasks before it. |
| Insights.InsightsViewController.DisplayTasks | OCKSample/Main/Insights/InsightsViewModel.swift:212-229 | The screen is cleared, then shows the charts of the fetched tasks, in task order, skipping tasks without charts. |
| Insights.InsightsViewController.ShowTasks | OCKSample/Main/Insights/InsightsViewModel.swift:215-228 | The loop appends each task's charts after clearing, in order. |
| SurveyLabel.LabelledEvent | OCKSample/Main/Care/CustomCards/SurveyViewSynchronizer.swift:22-23 | The label describes an event exactly when there is a first event, it has an outcome, and its task is an `OCKTask`. |
| SurveyLabel.UpdateViewAsWritten | OCKSample/Main/Care/CustomCards/SurveyViewSynchronizer.swift:17-55 | The label is hidden without such an event. "Check In 🎟️" shows the rest and sleep answers, "Range of Motion 🦿" the range answer, and every other title hides it. |
| SurveyLabel.UpdateView | OCKSample/Main/Care/CustomCards/SurveyViewSynchronizer.swift:17-55 | The same rule, corrected to match the range-of-motion title the store creates. |
| SurveyLabel.ShownOnlyWithOutcome | OCKSample/Main/Care/CustomCards/SurveyViewSynchronizer.swift:52-54 | A shown label implies a first event, with an outcome, of an `OCKTask`. |
| SurveyLabel.RangeTitlesDiffer | OCKSample/Main/Care/CustomCards/SurveyViewSynchronizer.swift:43 | The matched title and the store's title differ, and the store's title differs from the check-in title. |
| SurveyLabel.StoreRangeTaskHiddenAsWritten | OCKSample/Main/Care/CustomCards/SurveyViewSynchronizer.swift:43 | As written, the store's range-of-motion task keeps its label hidden even with an outcome. The corrected rule shows the range answer. |
| SurveyLabel.CorrectionOnlyChangesRangeTitle | OCKSample/Main/Care/CustomCards/SurveyViewSynchronizer.swift:43 | The corrected rule differs from the written one only for the two range-of-motion titles. |

Helpers that only select or wrap without a contract of their own are covered by the rows of the members that use them:
- `SurveyLabel.LabelFor` is covered by `SurveyLabel.UpdateView`.
- `Insights.GroupIdentifierOf` and `Insights.DefaultLegend` are covered by `Insights.ChartsFor`.
- `Surveys.FirstLetter` and `Surveys.NoUpperInSlice` are covered by `Surveys.IdentifierValues` and `Surveys.NormalisedShape`.
- The `Card`, `Survey`, `GraphAsWritten` and `Graph` accessors of `Tasks.CareTask` and `Tasks.HealthKitTask` are covered by the `TaskMetadata` rows.
- `Insights.FlattenLast` is covered by `Insights.FlattenAppend`, and `Insights.CheckInSeriesIds` by `Insights.ChartsPlotTaskOrCheckIn`.

## Left out

- CheckIn.swift, RangeOfMotion.swift and the CareKitUtilities package are not part of this model.
  - The check-in survey's rest and sleep item identifiers are parameters (`restKind`, `sleepKind`).
  - The check-in and range-of-motion surveys appear only through their survey type.
  - `firstEventOutcomeValues` and `firstEventOutcomeValueDouble` are taken to mean the first event's outcome values and the double of the first of them.
- Store queries by date, `excludesTasksWithNoEvents`, versioning and the framework's own validation are not modelled. A fetch by ids returns the stored items with one of those ids.
- The `as? OCKPatient` / `as? OCKContact` casts of stored results are not modelled. A store call that does not throw returns what it was given.
- Combine publishers and subscriptions, `async`/`await`, `@MainActor`, `Task {}` and `DispatchQueue` are not modelled. The async calls are ordinary calls; their failure and the logged-in user's id are parameters.
- The profile picture, `fetchProfilePicture`, `findAndObserveCurrentProfile`, `observePatient`/`observeContact` and `updateStoreManager` are Parse and network I/O and are not modelled.
- `CardViewModel`'s fetching and observing of events (`perform(using:)`, `fetchAndObserveEvents`) is left out. `taskEvents` stands for what it last published.
- The store call of the default action is recorded as a request. Its effect on the store's outcomes is not modelled.
- Chart colours, gradients and header texts, `NumberFormatter`, and the label texts are left out. `Int(Double)` truncation and string interpolation are not modelled; the label carries the numbers it would show.
- Doubles are modelled as exact `real` numbers; no floating-point rounding is modelled.
- `populateSampleData`, `populateCarePlans`, `addOnboardingTask` and `addSurveyTasks` are fixed sample data built with calendar arithmetic, and are not modelled. The task titles the model relies on (OCKStore.swift:361, 407) appear as constants.
- SwiftUI views, `CustomFeaturedContentView`, `Consent.swift`, the stylers and `CareKitTaskViewModel` are not modelled: they hold no logic beyond framework calls.
- ResearchKit step details (texts, images, HTML, permission sets) are reduced to each step's kind, identifier and title.
- Surveys.Lowercased: lowers ASCII letters only. Swift's `lowercased()` follows full Unicode case mapping; the identifiers involved are ASCII.
- Surveys.Trimmed: uses the Unicode White_Space set for `.whitespacesAndNewlines`.
- CardViewModels.Distinct: keeps each id where it first occurs. `Array(Set(...))` has no defined order, so only membership and uniqueness carry over.
- Profile.ProfileViewModel.SetPatient: requires a non-empty allergy list when allergies are present. The source indexes `[0]` and would trap on an empty list.
- Stores.Missing: its own contract only bounds the length. Membership is stated by Stores.MissingMembers and order by Stores.MissingAppend.
- Profile.ProfileCalls: its own contract only bounds the number of calls. The order of the calls is stated by Profile.ProfileCallsOrder.
- Insights.GraphOf: reads an `OCKTask`'s graph through the corrected getter, TaskMetadata.CareGraphOf, whose fallback is `.bar`. The as-written `.nausea` fallback names no declared graph (see Findings), so the Insights screen is modelled only with the corrected default.
- Tasks.CareTask, Tasks.HealthKitTask: modelled as reference classes, while `OCKTask` and `OCKHealthKitTask` are value types whose `userInfo` setters mutate a copy. Copy-on-assignment is not modelled; no operation of the model mutates a task after storing or sharing it.
- Entities.Address: keeps only street, city, state and postal code. These are the four fields `saveContact` sets and compares (ProfileViewModel.swift:319-323). The other fields of `OCKPostalAddress` are not modelled.
- Profile.ProfileOutcome: its own contract gives one direction. The full case split is Profile.ProfileAlertCases.

## Findings

| source | as written | input that shows it | evidently intended | confidence | as-written member | corrected member |
|---|---|---|---|---|---|---|
| OCKSample/Extensions/OCKTask.swift:55 | The `graph` getter's fallback returns `.nausea`, a case commented out of `GraphCard` (Constants.swift:108). The fallback therefore names no declared graph. | An `OCKTask` whose `userInfo` is nil, or has no "graph" entry, or has one that is not a graph raw value | A declared default. The model uses `.bar`, the default of the `OCKHealthKitTask` getter. | high; not executed | TaskMetadata.CareGraphAsWrittenUndefined | TaskMetadata.CareGraphOf |
| OCKSample/Main/Care/CustomCards/SurveyViewSynchronizer.swift:43 | The range-of-motion case matches "Range of Motion 🦿" exactly. The task the store creates (OCKStore.swift:407) is titled "Range Of Motion 🦿", so its label stays hidden. | The first event, with an outcome, of an `OCKTask` titled "Range Of Motion 🦿" | The label shows the range answer for the range-of-motion task. | high; not executed | SurveyLabel.StoreRangeTaskHiddenAsWritten | SurveyLabel.UpdateView |
