/** The records the screens keep, the values they write to the device's
    key-value storage, and the keys they write them under. */
module Entities {

  /** A saved list record: `{ id, ...formData, createdAt }`, the id either
      the one being edited or a fresh timestamp, `createdAt` the moment of
      the save. */
  datatype Entry<F> = Entry(id: string, fields: F, createdAt: string)

  datatype Frequency = Daily | TwiceDaily | ThreeTimesDaily

  datatype MedicationForm = MedicationForm(name: string, dosage: string, time: string, frequency: Frequency)
  type Medication = Entry<MedicationForm>

  datatype ContactForm = ContactForm(name: string, phone: string, relationship: string)
  type Contact = Entry<ContactForm>

  datatype AppointmentForm = AppointmentForm(doctorName: string, hospital: string, date: string, time: string, notes: string)
  type Appointment = Entry<AppointmentForm>

  datatype ProfileData = ProfileData(
    fullName: string, age: string, bloodGroup: string, address: string,
    emergencyNote: string, medicalConditions: string, allergies: string)

  /** What a key of the storage holds. */
  datatype Value =
    | MedicationList(medications: seq<Medication>)
    | ContactList(contacts: seq<Contact>)
    | AppointmentList(appointments: seq<Appointment>)
    | UserProfile(profile: ProfileData)

  /** The device's key-value storage. */
  type Storage = map<string, Value>

  const MedicationsKey: string := "medications"
  const ContactsKey: string := "emergencyContacts"
  const AppointmentsKey: string := "appointments"
  const ProfileKey: string := "userProfile"

  /** How a press of a form's Save button ends. */
  datatype SaveOutcome =
    | Saved            // written, list updated, form reset
    | MissingRequired  // "Required" alert; nothing written
    | InvalidPhone     // "Invalid Phone" alert; nothing written
    | ScheduleFailed   // written, but the reminder call threw before the form was reset
}
