/**
 * The CareKit store entities the modelled code reads and writes, reduced to
 * the fields it touches: patients, contacts, care plans and the error a
 * failing store call reports.
 */
module Entities {
  import opened Wrappers
  import opened OutcomeValues

  /** A `UUID`, as an opaque number. */
  type UUID = nat

  /** The error a store call throws, with the text its interpolation shows. */
  datatype StoreError = StoreError(description: string)

  /** `PersonNameComponents`, reduced to the given and family names. */
  datatype PersonName = PersonName(givenName: Option<string>, familyName: Option<string>)

  /** `OCKBiologicalSex`. */
  datatype Sex = Male | Female | OtherSex(otherName: string)

  /** `OCKNote`; CareKit stamps each note with the date it was created. */
  datatype Note = Note(author: Option<string>, title: Option<string>, content: Option<string>, date: Date)

  /** `OCKPatient`. */
  datatype Patient = Patient(
    id: string,
    name: PersonName,
    birthday: Option<Date>,
    sex: Option<Sex>,
    allergies: Option<seq<string>>,
    notes: Option<seq<Note>>)

  /** `OCKPostalAddress`. */
  datatype Address = Address(street: string, city: string, state: string, postalCode: string)

  /** `OCKLabeledValue`. */
  datatype LabeledValue = LabeledValue(labelText: string, value: string)

  /** `OCKContact`. */
  datatype Contact = Contact(
    id: string,
    name: PersonName,
    address: Option<Address>,
    emailAddresses: Option<seq<LabeledValue>>,
    messagingNumbers: Option<seq<LabeledValue>>,
    phoneNumbers: Option<seq<LabeledValue>>,
    otherContactInfo: Option<seq<LabeledValue>>)

  /** `OCKCarePlan`. */
  datatype CarePlan = CarePlan(id: string, title: string, uuid: UUID)
}
