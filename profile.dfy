/**
 * `ProfileViewModel`: the profile form, the projection of a newly assigned
 * patient onto the form, and the change-detecting saves of the patient and
 * of the contact.
 *
 * The store is reduced to the calls the view model makes (`storeCalls`);
 * whether a call throws, the logged-in user's remote clock id, and the
 * current date are parameters of the operations.
 */
module Profile {
  import opened Wrappers
  import opened OutcomeValues
  import opened Entities

  /** The alert text of a save that went through (its spelling is the app's). */
  const SuccessMessage: string := "All changs saved successfully!"

  /** The alert text of a failed save starts with this; the error's description follows. */
  const FailurePrefix: string := "Could not save profile: "

  const NoteTitle: string := "New Note"
  const EmailLabel: string := "Home email"
  const MessagingNumberLabel: string := "Messaging Number"
  const PhoneNumberLabel: string := "Phone Number"
  const OtherContactInfoLabel: string := "Other"

  /** A store call the profile makes. */
  datatype ProfileStoreCall =
    | UpdatePatient(patient: Patient)
    | AddPatient(patient: Patient)
    | UpdateContact(contact: Contact)
    | AddContact(contact: Contact)

  // ---------------------------------------------------------------------------
  // Patient
  // ---------------------------------------------------------------------------

  /** The form fields `savePatient` reads. */
  datatype PatientForm = PatientForm(
    firstName: string, lastName: string, birthday: Date, sex: Sex, allergies: string, note: string)

  /** The one note `savePatient` stores: authored by the first name, with the note field as content. */
  function FormNotes(f: PatientForm, now: Date): (notes: seq<Note>)
    ensures |notes| == 1 && notes[0].author == Some(f.firstName) && notes[0].content == Some(f.note)
    ensures notes[0].title == Some(NoteTitle) && notes[0].date == now
  {
    [Note(Some(f.firstName), Some(NoteTitle), Some(f.note), now)]
  }

  /** Whether `savePatient` finds a field of `p` that differs from the form. */
  predicate PatientDiffers(p: Patient, f: PatientForm, now: Date) {
    || p.name.givenName != Some(f.firstName)
    || p.name.familyName != Some(f.lastName)
    || p.birthday != Some(f.birthday)
    || p.sex != Some(f.sex)
    || p.allergies != Some([f.allergies])
    || p.notes != Some(FormNotes(f, now))
  }

  /** The patient as the form describes it: the form's values in every field the form covers; the id is kept. */
  function PatientWithForm(p: Patient, f: PatientForm, now: Date): (r: Patient)
    ensures r.id == p.id
    ensures r.name == PersonName(Some(f.firstName), Some(f.lastName))
    ensures r.birthday == Some(f.birthday) && r.sex == Some(f.sex)
    ensures r.allergies == Some([f.allergies]) && r.notes == Some(FormNotes(f, now))
  {
    p.(name := PersonName(Some(f.firstName), Some(f.lastName)),
       birthday := Some(f.birthday),
       sex := Some(f.sex),
       allergies := Some([f.allergies]),
       notes := Some(FormNotes(f, now)))
  }

  /** An update is due exactly when the form would change the patient. */
  lemma PatientUpdateIffChanged(p: Patient, f: PatientForm, now: Date)
    ensures PatientDiffers(p, f, now) <==> PatientWithForm(p, f, now) != p
  {
    if !PatientDiffers(p, f, now) {
      assert p.name == PersonName(Some(f.firstName), Some(f.lastName));
    }
  }

  /**
   * The field-by-field comparison of `savePatient`: each form field that
   * differs from the patient's is written into the patient to update, and
   * the flag records that one did.
   */
  method ComparePatient(current: Patient, f: PatientForm, now: Date) returns (patientToUpdate: Patient, patientHasBeenUpdated: bool)
    ensures patientHasBeenUpdated == PatientDiffers(current, f, now)
    ensures patientToUpdate == PatientWithForm(current, f, now)
    ensures !patientHasBeenUpdated ==> patientToUpdate == current
  {
    patientToUpdate := current;
    patientHasBeenUpdated := false;
    if current.name.givenName != Some(f.firstName) {
      patientHasBeenUpdated := true;
      patientToUpdate := patientToUpdate.(name := patientToUpdate.name.(givenName := Some(f.firstName)));
    }
    if current.name.familyName != Some(f.lastName) {
      patientHasBeenUpdated := true;
      patientToUpdate := patientToUpdate.(name := patientToUpdate.name.(familyName := Some(f.lastName)));
    }
    if current.birthday != Some(f.birthday) {
      patientHasBeenUpdated := true;
      patientToUpdate := patientToUpdate.(birthday := Some(f.birthday));
    }
    if current.sex != Some(f.sex) {
      patientHasBeenUpdated := true;
      patientToUpdate := patientToUpdate.(sex := Some(f.sex));
    }
    if current.allergies != Some([f.allergies]) {
      patientHasBeenUpdated := true;
      patientToUpdate := patientToUpdate.(allergies := Some([f.allergies]));
    }
    var notes := [Note(Some(f.firstName), Some(NoteTitle), Some(f.note), now)];
    if current.notes != Some(notes) {
      patientHasBeenUpdated := true;
      patientToUpdate := patientToUpdate.(notes := Some(notes));
    }
  }

  /** The patient `savePatient` creates for a user who has none: the names and birthday, nothing else. */
  function NewPatient(id: string, f: PatientForm): (r: Patient)
    ensures r.id == id && r.name == PersonName(Some(f.firstName), Some(f.lastName))
    ensures r.birthday == Some(f.birthday)
    ensures r.sex == None && r.allergies == None && r.notes == None
  {
    Patient(id, PersonName(Some(f.firstName), Some(f.lastName)), Some(f.birthday), None, None, None)
  }

  /**
   * The store calls `savePatient` makes: an update with the form applied when
   * a field differs, an add of a new patient when there is none and a user is
   * logged in, and nothing otherwise.
   */
  function PatientCalls(p: Option<Patient>, f: PatientForm, remoteUUID: Option<string>, now: Date)
    : (calls: seq<ProfileStoreCall>)
    ensures |calls| <= 1
    ensures p.Some? ==> (calls != [] <==> PatientWithForm(p.value, f, now) != p.value)
    ensures p.Some? && calls != [] ==> calls == [UpdatePatient(PatientWithForm(p.value, f, now))]
    ensures p.None? ==> calls == if remoteUUID.Some? then [AddPatient(NewPatient(remoteUUID.value, f))] else []
  {
    match p
    case Some(q) =>
      PatientUpdateIffChanged(q, f, now);
      if PatientDiffers(q, f, now) then [UpdatePatient(PatientWithForm(q, f, now))] else []
    case None => if remoteUUID.Some? then [AddPatient(NewPatient(remoteUUID.value, f))] else []
  }

  /** A save throws exactly when it makes a store call and that call throws. */
  function SaveOutcome(calls: seq<ProfileStoreCall>, failure: Option<StoreError>): (r: Outcome<StoreError>)
    ensures r.Fail? <==> calls != [] && failure.Some?
    ensures r.Fail? ==> r.error == failure.value
  {
    if calls != [] && failure.Some? then Fail(failure.value) else Pass
  }

  /** The patient after `savePatient`: the one it sent to the store if that call went through, else the old one. */
  function PatientAfterSave(p: Option<Patient>, f: PatientForm, remoteUUID: Option<string>, failure: Option<StoreError>, now: Date)
    : (r: Option<Patient>)
    ensures SaveOutcome(PatientCalls(p, f, remoteUUID, now), failure).Fail? || PatientCalls(p, f, remoteUUID, now) == [] ==> r == p
    ensures PatientCalls(p, f, remoteUUID, now) != [] && failure.None? ==> r == Some(PatientCalls(p, f, remoteUUID, now)[0].patient)
    ensures r != p ==> r.Some? && r.value.name == PersonName(Some(f.firstName), Some(f.lastName))
    ensures p.Some? && r != p ==> r == Some(PatientWithForm(p.value, f, now))
    ensures p.None? && r.Some? ==> remoteUUID.Some? && r == Some(NewPatient(remoteUUID.value, f))
  {
    var calls := PatientCalls(p, f, remoteUUID, now);
    if calls == [] || failure.Some? then p else Some(calls[0].patient)
  }

  /**
   * The patient fields of the form after `savePatient`: assigning the stored
   * patient back copies its names, birthday and first allergy into the form,
   * which reproduces an updated patient's form exactly; a newly added patient
   * has no allergies, so only that field is cleared.
   */
  function FormAfterSave(p: Option<Patient>, f: PatientForm, remoteUUID: Option<string>, failure: Option<StoreError>, now: Date)
    : (r: PatientForm)
    ensures r.(allergies := f.allergies) == f
    ensures PatientAfterSave(p, f, remoteUUID, failure, now) == p ==> r == f
    ensures r != f ==> p.None? && PatientAfterSave(p, f, remoteUUID, failure, now).Some? && r.allergies == ""
  {
    if p.None? && PatientAfterSave(p, f, remoteUUID, failure, now).Some? then f.(allergies := "") else f
  }

  // ---------------------------------------------------------------------------
  // Contact
  // ---------------------------------------------------------------------------

  /** The form fields `saveContact` reads. */
  datatype ContactForm = ContactForm(
    street: string, city: string, state: string, zipcode: string,
    email: string, messagingNumber: string, phoneNumber: string, otherContactInfo: string)

  /** Whether `saveContact` finds something in `c` that differs from the patient's name or the form. */
  predicate ContactDiffers(c: Contact, patientName: Option<PersonName>, f: ContactForm) {
    || (patientName.Some? && c.name != patientName.value)
    || c.address != Some(Address(f.street, f.city, f.state, f.zipcode))
    || c.emailAddresses != Some([LabeledValue(EmailLabel, f.email)])
    || c.messagingNumbers != Some([LabeledValue(MessagingNumberLabel, f.messagingNumber)])
    || c.phoneNumbers != Some([LabeledValue(PhoneNumberLabel, f.phoneNumber)])
    || c.otherContactInfo != Some([LabeledValue(OtherContactInfoLabel, f.otherContactInfo)])
  }

  /**
   * The contact as the patient's name and the form describe it: the name is
   * the patient's when there is a patient, and each piece of contact
   * information is the single labelled value of the form.
   */
  function ContactWithForm(c: Contact, patientName: Option<PersonName>, f: ContactForm): (r: Contact)
    ensures r.id == c.id
    ensures r.name == if patientName.Some? then patientName.value else c.name
    ensures r.address == Some(Address(f.street, f.city, f.state, f.zipcode))
    ensures r.emailAddresses == Some([LabeledValue(EmailLabel, f.email)])
    ensures r.messagingNumbers == Some([LabeledValue(MessagingNumberLabel, f.messagingNumber)])
    ensures r.phoneNumbers == Some([LabeledValue(PhoneNumberLabel, f.phoneNumber)])
    ensures r.otherContactInfo == Some([LabeledValue(OtherContactInfoLabel, f.otherContactInfo)])
  {
    c.(name := if patientName.Some? then patientName.value else c.name,
       address := Some(Address(f.street, f.city, f.state, f.zipcode)),
       emailAddresses := Some([LabeledValue(EmailLabel, f.email)]),
       messagingNumbers := Some([LabeledValue(MessagingNumberLabel, f.messagingNumber)]),
       phoneNumbers := Some([LabeledValue(PhoneNumberLabel, f.phoneNumber)]),
       otherContactInfo := Some([LabeledValue(OtherContactInfoLabel, f.otherContactInfo)]))
  }

  /** An update is due exactly when the name and form would change the contact. */
  lemma ContactUpdateIffChanged(c: Contact, patientName: Option<PersonName>, f: ContactForm)
    ensures ContactDiffers(c, patientName, f) <==> ContactWithForm(c, patientName, f) != c
  {
  }

  /**
   * The comparison of `saveContact`: the patient's name and each piece of
   * contact information that differs from the contact's is written into the
   * contact to update, and the flag records that one did.
   */
  method CompareContact(current: Contact, patientName: Option<PersonName>, f: ContactForm)
    returns (contactToUpdate: Contact, contactHasBeenUpdated: bool)
    ensures contactHasBeenUpdated == ContactDiffers(current, patientName, f)
    ensures contactToUpdate == ContactWithForm(current, patientName, f)
    ensures !contactHasBeenUpdated ==> contactToUpdate == current
  {
    contactToUpdate := current;
    contactHasBeenUpdated := false;
    if patientName.Some? && current.name != patientName.value {
      contactHasBeenUpdated := true;
      contactToUpdate := contactToUpdate.(name := patientName.value);
    }
    var potentialAddress := Address(f.street, f.city, f.state, f.zipcode);
    if current.address != Some(potentialAddress) {
      contactHasBeenUpdated := true;
      contactToUpdate := contactToUpdate.(address := Some(potentialAddress));
    }
    var potentialEmail := LabeledValue(EmailLabel, f.email);
    if current.emailAddresses != Some([potentialEmail]) {
      contactHasBeenUpdated := true;
      contactToUpdate := contactToUpdate.(emailAddresses := Some([potentialEmail]));
    }
    var potentialMessagingNumber := LabeledValue(MessagingNumberLabel, f.messagingNumber);
    if current.messagingNumbers != Some([potentialMessagingNumber]) {
      contactHasBeenUpdated := true;
      contactToUpdate := contactToUpdate.(messagingNumbers := Some([potentialMessagingNumber]));
    }
    var potentialPhoneNumber := LabeledValue(PhoneNumberLabel, f.phoneNumber);
    if current.phoneNumbers != Some([potentialPhoneNumber]) {
      contactHasBeenUpdated := true;
      contactToUpdate := contactToUpdate.(phoneNumbers := Some([potentialPhoneNumber]));
    }
    var potentialOther := LabeledValue(OtherContactInfoLabel, f.otherContactInfo);
    if current.otherContactInfo != Some([potentialOther]) {
      contactHasBeenUpdated := true;
      contactToUpdate := contactToUpdate.(otherContactInfo := Some([potentialOther]));
    }
  }

  /** The contact `saveContact` creates: the remote id and the patient's name, nothing else. */
  function NewContact(id: string, name: PersonName): (r: Contact)
    ensures r.id == id && r.name == name && r.address == None
    ensures r.emailAddresses == None && r.messagingNumbers == None
    ensures r.phoneNumbers == None && r.otherContactInfo == None
  {
    Contact(id, name, None, None, None, None, None)
  }

  /**
   * The store calls `saveContact` makes: an update when something differs;
   * without a contact, an add when a user is logged in and the patient has a
   * name; nothing otherwise.
   */
  function ContactCalls(c: Option<Contact>, patientName: Option<PersonName>, f: ContactForm, remoteUUID: Option<string>)
    : (calls: seq<ProfileStoreCall>)
    ensures |calls| <= 1
    ensures c.Some? ==> (calls != [] <==> ContactWithForm(c.value, patientName, f) != c.value)
    ensures c.Some? && calls != [] ==> calls == [UpdateContact(ContactWithForm(c.value, patientName, f))]
    ensures c.None? ==> (calls ==
      if remoteUUID.Some? && patientName.Some? then [AddContact(NewContact(remoteUUID.value, patientName.value))] else [])
  {
    match c
    case Some(d) =>
      ContactUpdateIffChanged(d, patientName, f);
      if ContactDiffers(d, patientName, f) then [UpdateContact(ContactWithForm(d, patientName, f))] else []
    case None =>
      if remoteUUID.Some? && patientName.Some? then [AddContact(NewContact(remoteUUID.value, patientName.value))] else []
  }

  /** The contact after `saveContact`: the one it sent to the store if that call went through, else the old one. */
  function ContactAfterSave(c: Option<Contact>, patientName: Option<PersonName>, f: ContactForm,
                            remoteUUID: Option<string>, failure: Option<StoreError>)
    : (r: Option<Contact>)
    ensures SaveOutcome(ContactCalls(c, patientName, f, remoteUUID), failure).Fail? || ContactCalls(c, patientName, f, remoteUUID) == [] ==> r == c
    ensures ContactCalls(c, patientName, f, remoteUUID) != [] && failure.None? ==> r == Some(ContactCalls(c, patientName, f, remoteUUID)[0].contact)
    ensures c.Some? && r != c ==> r == Some(ContactWithForm(c.value, patientName, f))
    ensures c.None? && r.Some? ==> remoteUUID.Some? && patientName.Some? && r == Some(NewContact(remoteUUID.value, patientName.value))
  {
    var calls := ContactCalls(c, patientName, f, remoteUUID);
    if calls == [] || failure.Some? then c else Some(calls[0].contact)
  }

  /** The name of the patient, if there is one. */
  function NameOf(p: Option<Patient>): (r: Option<PersonName>)
    ensures r.Some? <==> p.Some?
    ensures r.Some? ==> r.value == p.value.name
  {
    if p.Some? then Some(p.value.name) else None
  }

  // ---------------------------------------------------------------------------
  // saveProfile
  // ---------------------------------------------------------------------------

  /**
   * The store calls of `saveProfile`: the patient's calls, then, unless the
   * patient save threw, the contact's calls, made with the name of the
   * patient as the patient save left it.
   */
  function ProfileCalls(p: Option<Patient>, f: PatientForm, c: Option<Contact>, cf: ContactForm,
                        remoteUUID: Option<string>, patientFailure: Option<StoreError>, now: Date)
    : (calls: seq<ProfileStoreCall>)
    ensures |calls| <= 2
  {
    var patientCalls := PatientCalls(p, f, remoteUUID, now);
    if SaveOutcome(patientCalls, patientFailure).Fail? then patientCalls
    else patientCalls + ContactCalls(c, NameOf(PatientAfterSave(p, f, remoteUUID, patientFailure, now)), cf, remoteUUID)
  }

  /**
   * The patient is saved before the contact: the patient's calls come first,
   * every later call is a contact call, a failing patient save makes no
   * contact call, and with nothing stored and no user logged in nothing is
   * called.
   */
  lemma ProfileCallsOrder(p: Option<Patient>, f: PatientForm, c: Option<Contact>, cf: ContactForm,
                          remoteUUID: Option<string>, patientFailure: Option<StoreError>, now: Date)
    ensures var calls := ProfileCalls(p, f, c, cf, remoteUUID, patientFailure, now);
      var patientCalls := PatientCalls(p, f, remoteUUID, now);
      && patientCalls <= calls
      && (SaveOutcome(patientCalls, patientFailure).Fail? ==> |calls| == 1)
      && (forall i :: 0 <= i < |calls| ==> ((calls[i].UpdatePatient? || calls[i].AddPatient?) <==> i < |patientCalls|))
      && (p.None? && c.None? && remoteUUID.None? ==> calls == [])
  {
    var calls := ProfileCalls(p, f, c, cf, remoteUUID, patientFailure, now);
    var patientCalls := PatientCalls(p, f, remoteUUID, now);
    if !SaveOutcome(patientCalls, patientFailure).Fail? {
      var contactCalls := ContactCalls(c, NameOf(PatientAfterSave(p, f, remoteUUID, patientFailure, now)), cf, remoteUUID);
      assert calls == patientCalls + contactCalls;
      forall i | 0 <= i < |calls|
        ensures (calls[i].UpdatePatient? || calls[i].AddPatient?) <==> i < |patientCalls|
      {
        if i >= |patientCalls| {
          assert calls[i] == contactCalls[i - |patientCalls|];
        }
      }
    }
  }

  /**
   * The outcome of the `do` block of `saveProfile`: the patient save's error
   * if it threw, else the contact save's error if that threw, else success.
   */
  function ProfileOutcome(p: Option<Patient>, f: PatientForm, c: Option<Contact>, cf: ContactForm,
                          remoteUUID: Option<string>, patientFailure: Option<StoreError>,
                          contactFailure: Option<StoreError>, now: Date)
    : (r: Outcome<StoreError>)
    ensures r.Fail? ==> patientFailure == Some(r.error) || contactFailure == Some(r.error)
  {
    var patientOutcome := SaveOutcome(PatientCalls(p, f, remoteUUID, now), patientFailure);
    if patientOutcome.Fail? then patientOutcome
    else SaveOutcome(ContactCalls(c, NameOf(PatientAfterSave(p, f, remoteUUID, patientFailure, now)), cf, remoteUUID),
                     contactFailure)
  }

  /** The alert of `saveProfile`: the success text, or the failure text followed by the error's description. */
  function ProfileAlert(outcome: Outcome<StoreError>): (alert: string)
    ensures alert == SuccessMessage || FailurePrefix <= alert
  {
    if outcome.Fail? then FailurePrefix + outcome.error.description else SuccessMessage
  }

  /**
   * The alert reads as a success exactly when neither the patient's nor the
   * contact's store call threw; otherwise it names the first error thrown.
   */
  lemma ProfileAlertCases(p: Option<Patient>, f: PatientForm, c: Option<Contact>, cf: ContactForm,
                          remoteUUID: Option<string>, patientFailure: Option<StoreError>,
                          contactFailure: Option<StoreError>, now: Date)
    ensures var alert := ProfileAlert(ProfileOutcome(p, f, c, cf, remoteUUID, patientFailure, contactFailure, now));
      var patientCalls := PatientCalls(p, f, remoteUUID, now);
      var contactCalls := ContactCalls(c, NameOf(PatientAfterSave(p, f, remoteUUID, patientFailure, now)), cf, remoteUUID);
      && (alert == SuccessMessage <==>
            !SaveOutcome(patientCalls, patientFailure).Fail? && !SaveOutcome(contactCalls, contactFailure).Fail?)
      && (SaveOutcome(patientCalls, patientFailure).Fail? ==> alert == FailurePrefix + patientFailure.value.description)
      && (!SaveOutcome(patientCalls, patientFailure).Fail? && SaveOutcome(contactCalls, contactFailure).Fail? ==>
            alert == FailurePrefix + contactFailure.value.description)
  {
    FailureIsNotSuccess(if patientFailure.Some? then patientFailure.value.description else "");
    FailureIsNotSuccess(if contactFailure.Some? then contactFailure.value.description else "");
  }

  /** No failure text reads as the success text. */
  lemma FailureIsNotSuccess(description: string)
    ensures FailurePrefix + description != SuccessMessage
  {
    assert (FailurePrefix + description)[0] == 'C' != SuccessMessage[0];
  }

  // ---------------------------------------------------------------------------
  // ProfileViewModel
  // ---------------------------------------------------------------------------

  /** `ProfileViewModel`, without the profile picture. */
  class ProfileViewModel {
    var firstName: string
    var lastName: string
    var birthday: Date
    var sex: Sex
    var allergies: string
    var note: string
    var email: string
    var messagingNumber: string
    var phoneNumber: string
    var otherContactInfo: string
    var street: string
    var city: string
    var state: string
    var zipcode: string
    var isShowingSaveAlert: bool
    var patient: Option<Patient>
    var contact: Option<Contact>
    var alertMessage: string
    var storeCalls: seq<ProfileStoreCall>

    /** A view model with the app's initial field values, before any patient is observed. */
    constructor (now: Date)
      ensures firstName == "" && lastName == "" && birthday == now && sex == OtherSex("other")
      ensures allergies == "" && note == "" && email == "" && messagingNumber == ""
      ensures phoneNumber == "" && otherContactInfo == ""
      ensures street == "" && city == "" && state == "" && zipcode == ""
      ensures !isShowingSaveAlert && patient == None && contact == None
      ensures alertMessage == SuccessMessage && storeCalls == []
    {
      firstName, lastName, birthday, sex := "", "", now, OtherSex("other");
      allergies, note := "", "";
      email, messagingNumber, phoneNumber, otherContactInfo := "", "", "", "";
      street, city, state, zipcode := "", "", "", "";
      isShowingSaveAlert := false;
      patient, contact := None, None;
      alertMessage := SuccessMessage;
      storeCalls := [];
    }

    /** The patient fields of the form. */
    function Form(): PatientForm
      reads this`firstName, this`lastName, this`birthday, this`sex, this`allergies, this`note
    {
      PatientForm(firstName, lastName, birthday, sex, allergies, note)
    }

    /** The contact fields of the form. */
    function ContactFormFields(): ContactForm
      reads this`street, this`city, this`state, this`zipcode
      reads this`email, this`messagingNumber, this`phoneNumber, this`otherContactInfo
    {
      ContactForm(street, city, state, zipcode, email, messagingNumber, phoneNumber, otherContactInfo)
    }

    /**
     * Assigning `patient` (its `willSet`): the names, the birthday and the
     * first allergy are copied into the form, with "" and the current date for
     * what is missing. An empty allergy list would trap at index 0, so it is
     * excluded.
     */
    method SetPatient(newValue: Option<Patient>, now: Date)
      requires newValue.Some? && newValue.value.allergies.Some? ==> |newValue.value.allergies.value| > 0
      modifies this`firstName, this`lastName, this`birthday, this`allergies, this`patient
      ensures patient == newValue
      ensures firstName == if newValue.Some? && newValue.value.name.givenName.Some? then newValue.value.name.givenName.value else ""
      ensures lastName == if newValue.Some? && newValue.value.name.familyName.Some? then newValue.value.name.familyName.value else ""
      ensures birthday == if newValue.Some? && newValue.value.birthday.Some? then newValue.value.birthday.value else now
      ensures allergies == if newValue.Some? && newValue.value.allergies.Some? then newValue.value.allergies.value[0] else ""
    {
      if newValue.Some? && newValue.value.name.givenName.Some? {
        firstName := newValue.value.name.givenName.value;
      } else {
        firstName := "";
      }
      if newValue.Some? && newValue.value.name.familyName.Some? {
        lastName := newValue.value.name.familyName.value;
      } else {
        lastName := "";
      }
      if newValue.Some? && newValue.value.birthday.Some? {
        birthday := newValue.value.birthday.value;
      } else {
        birthday := now;
      }
      if newValue.Some? && newValue.value.allergies.Some? {
        allergies := newValue.value.allergies.value[0];
      } else {
        allergies := "";
      }
      patient := newValue;
    }

    /**
     * `savePatient`: with a patient, compare each form field and send one
     * update with the differing fields overwritten, only when one differs;
     * without a patient, add a new one for the logged-in user. A stored
     * patient is assigned back, so an update leaves the form as it was.
     */
    method SavePatient(remoteUUID: Option<string>, failure: Option<StoreError>, now: Date)
      returns (r: Outcome<StoreError>)
      modifies this`firstName, this`lastName, this`birthday, this`allergies, this`patient, this`storeCalls
      ensures var calls := PatientCalls(old(patient), old(Form()), remoteUUID, now);
        && storeCalls == old(storeCalls) + calls
        && r == SaveOutcome(calls, failure)
        && patient == PatientAfterSave(old(patient), old(Form()), remoteUUID, failure, now)
      ensures Form() == FormAfterSave(old(patient), old(Form()), remoteUUID, failure, now)
      ensures patient == old(patient) ==> Form() == old(Form())
      ensures old(patient).Some? ==> Form() == old(Form())
      ensures old(patient).None? && patient.Some? ==>
        && firstName == old(firstName) && lastName == old(lastName) && birthday == old(birthday)
        && allergies == ""
    {
      var form := Form();
      if patient.Some? {
        var current := patient.value;
        var patientToUpdate, patientHasBeenUpdated := ComparePatient(current, form, now);
        if patientHasBeenUpdated {
          storeCalls := storeCalls + [UpdatePatient(patientToUpdate)];
          if failure.Some? {
            return Fail(failure.value);
          }
          SetPatient(Some(patientToUpdate), now);
        }
        return Pass;
      } else {
        if remoteUUID.None? {
          return Pass;
        }
        var newPatient := NewPatient(remoteUUID.value, form);
        storeCalls := storeCalls + [AddPatient(newPatient)];
        if failure.Some? {
          return Fail(failure.value);
        }
        SetPatient(Some(newPatient), now);
        return Pass;
      }
    }

    /**
     * `saveContact`: with a contact, take the patient's name and the form's
     * contact information and send one update, only when something differs;
     * without a contact, add one for the logged-in user named like the patient.
     */
    method SaveContact(remoteUUID: Option<string>, failure: Option<StoreError>)
      returns (r: Outcome<StoreError>)
      modifies this`contact, this`storeCalls
      ensures var calls := ContactCalls(old(contact), old(NameOf(patient)), old(ContactFormFields()), remoteUUID);
        && storeCalls == old(storeCalls) + calls
        && r == SaveOutcome(calls, failure)
        && contact == ContactAfterSave(old(contact), old(NameOf(patient)), old(ContactFormFields()), remoteUUID, failure)
    {
      var form := ContactFormFields();
      if contact.Some? {
        var current := contact.value;
        var contactToUpdate, contactHasBeenUpdated := CompareContact(current, NameOf(patient), form);
        if contactHasBeenUpdated {
          storeCalls := storeCalls + [UpdateContact(contactToUpdate)];
          if failure.Some? {
            return Fail(failure.value);
          }
          contact := Some(contactToUpdate);
        }
        return Pass;
      } else {
        if remoteUUID.None? {
          return Pass;
        }
        if patient.None? {
          return Pass;
        }
        var newContact := NewContact(remoteUUID.value, patient.value.name);
        storeCalls := storeCalls + [AddContact(newContact)];
        if failure.Some? {
          return Fail(failure.value);
        }
        contact := Some(newContact);
        return Pass;
      }
    }

    /**
     * The `do` block of `saveProfile`: save the patient, then, unless that
     * threw, the contact; the first error thrown is the outcome.
     */
    method SavePatientThenContact(remoteUUID: Option<string>, patientFailure: Option<StoreError>,
                                  contactFailure: Option<StoreError>, now: Date)
      returns (r: Outcome<StoreError>)
      modifies this`firstName, this`lastName, this`birthday, this`allergies, this`patient
      modifies this`contact, this`storeCalls
      ensures storeCalls == old(storeCalls) + ProfileCalls(old(patient), old(Form()), old(contact),
                                                           old(ContactFormFields()), remoteUUID, patientFailure, now)
      ensures r == ProfileOutcome(old(patient), old(Form()), old(contact), old(ContactFormFields()),
                                  remoteUUID, patientFailure, contactFailure, now)
      ensures patient == PatientAfterSave(old(patient), old(Form()), remoteUUID, patientFailure, now)
      ensures Form() == FormAfterSave(old(patient), old(Form()), remoteUUID, patientFailure, now)
      ensures contact == if SaveOutcome(PatientCalls(old(patient), old(Form()), remoteUUID, now), patientFailure).Fail?
        then old(contact)
        else ContactAfterSave(old(contact), NameOf(patient), old(ContactFormFields()), remoteUUID, contactFailure)
    {
      ghost var p, f, c, cf := patient, Form(), contact, ContactFormFields();
      ghost var patientCalls := PatientCalls(p, f, remoteUUID, now);
      r := SavePatient(remoteUUID, patientFailure, now);
      if r.Pass? {
        ghost var q := patient;
        assert q == PatientAfterSave(p, f, remoteUUID, patientFailure, now);
        assert ContactFormFields() == cf;
        r := SaveContact(remoteUUID, contactFailure);
        assert storeCalls == old(storeCalls) + patientCalls + ContactCalls(c, NameOf(q), cf, remoteUUID);
      }
    }

    /**
     * `saveProfile`: save the patient, then the contact; the first failure
     * ends the save and its description follows the failure text in the
     * alert. The alert is raised in every case.
     */
    method SaveProfile(remoteUUID: Option<string>, patientFailure: Option<StoreError>,
                       contactFailure: Option<StoreError>, now: Date)
      modifies this`firstName, this`lastName, this`birthday, this`allergies, this`patient
      modifies this`contact, this`storeCalls, this`alertMessage, this`isShowingSaveAlert
      ensures isShowingSaveAlert
      ensures storeCalls == old(storeCalls) + ProfileCalls(old(patient), old(Form()), old(contact),
                                                           old(ContactFormFields()), remoteUUID, patientFailure, now)
      ensures alertMessage == ProfileAlert(ProfileOutcome(old(patient), old(Form()), old(contact),
                                                          old(ContactFormFields()), remoteUUID, patientFailure,
                                                          contactFailure, now))
      ensures patient == PatientAfterSave(old(patient), old(Form()), remoteUUID, patientFailure, now)
      ensures Form() == FormAfterSave(old(patient), old(Form()), remoteUUID, patientFailure, now)
      ensures contact == if SaveOutcome(PatientCalls(old(patient), old(Form()), remoteUUID, now), patientFailure).Fail?
        then old(contact)
        else ContactAfterSave(old(contact), NameOf(patient), old(ContactFormFields()), remoteUUID, contactFailure)
    {
      alertMessage := SuccessMessage;
      var r := SavePatientThenContact(remoteUUID, patientFailure, contactFailure, now);
      if r.Fail? {
        alertMessage := FailurePrefix + r.error.description;
      }
      isShowingSaveAlert := true;
    }
  }
}
