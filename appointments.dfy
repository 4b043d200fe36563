/** The appointments screen: a list of appointments kept in step with the
    `appointments` storage key and an add/edit form. A save needs the
    doctor's name, the date and the time; hospital and notes are optional. */
module Appointments {
  import opened Wrappers
  import opened Entities
  import opened RecordList

  const EmptyForm: AppointmentForm := AppointmentForm("", "", "", "", "")

  /** What mounting reads from storage: `if (saved) setAppointments(saved)`. */
  function StoredAppointments(storage: Storage): seq<Appointment>
  {
    if AppointmentsKey in storage && storage[AppointmentsKey].AppointmentList?
    then storage[AppointmentsKey].appointments else []
  }

  class AppointmentsScreen {
    var appointments: seq<Appointment>
    var form: AppointmentForm
    var editingId: Option<string>
    var showModal: bool
    var storage: Storage

    /** The list on screen is the list in storage. */
    ghost predicate Valid()
      reads this
    {
      appointments == StoredAppointments(storage)
    }

    constructor Mount(storage: Storage)
      ensures Valid()
      ensures this.storage == storage && appointments == StoredAppointments(storage)
      ensures form == EmptyForm && editingId == None && !showModal
    {
      this.storage := storage;
      appointments := StoredAppointments(storage);
      form := EmptyForm;
      editingId := None;
      showModal := false;
    }

    /** The add button opens the form. */
    method OpenForm()
      modifies this
      ensures showModal
      ensures appointments == old(appointments) && storage == old(storage)
      ensures form == old(form) && editingId == old(editingId)
    {
      showModal := true;
    }

    /** The five text inputs, each replacing one field of the form. */
    method ChangeForm(f: AppointmentForm)
      modifies this
      ensures form == f
      ensures appointments == old(appointments) && storage == old(storage)
      ensures editingId == old(editingId) && showModal == old(showModal)
    {
      form := f;
    }

    /** `handleSave`. `freshId` stands for `Date.now().toString()`, `now` for
        `new Date().toISOString()`. */
    method HandleSave(freshId: string, now: string) returns (outcome: SaveOutcome)
      requires Valid()
      modifies this
      ensures Valid()
      ensures old(form.doctorName) == "" || old(form.date) == "" || old(form.time) == "" ==>
        outcome == MissingRequired && unchanged(this)
      ensures old(form.doctorName) != "" && old(form.date) != "" && old(form.time) != "" ==>
        && outcome == Saved
        && appointments == Upsert(old(appointments), old(editingId), Entry(SavedId(old(editingId), freshId), old(form), now))
        && storage == old(storage)[AppointmentsKey := AppointmentList(appointments)]
        && form == EmptyForm && editingId == None && !showModal
    {
      if form.doctorName == "" || form.date == "" || form.time == "" {
        return MissingRequired;
      }
      var saved := Entry(SavedId(editingId, freshId), form, now);
      var updated := Upsert(appointments, editingId, saved);
      storage := storage[AppointmentsKey := AppointmentList(updated)];
      appointments := updated;
      ResetForm();
      outcome := Saved;
    }

    /** `handleDelete`: on confirmation, every appointment with the id is
        dropped and the list written. */
    method HandleDelete(id: string, confirmed: bool)
      requires Valid()
      modifies this
      ensures Valid()
      ensures confirmed ==>
        && appointments == RemoveById(old(appointments), id)
        && storage == old(storage)[AppointmentsKey := AppointmentList(appointments)]
      ensures !confirmed ==> appointments == old(appointments) && storage == old(storage)
      ensures form == old(form) && editingId == old(editingId) && showModal == old(showModal)
    {
      if confirmed {
        var updated := RemoveById(appointments, id);
        storage := storage[AppointmentsKey := AppointmentList(updated)];
        appointments := updated;
      }
    }

    /** `handleEdit`: load the five fields and the id, open the form. */
    method HandleEdit(appointment: Appointment)
      modifies this
      ensures form == appointment.fields && editingId == Some(appointment.id) && showModal
      ensures appointments == old(appointments) && storage == old(storage)
    {
      form := appointment.fields;
      editingId := Some(appointment.id);
      showModal := true;
    }

    /** `resetForm`: clear the five fields, forget the edited id, close. */
    method ResetForm()
      modifies this
      ensures form == EmptyForm && editingId == None && !showModal
      ensures appointments == old(appointments) && storage == old(storage)
    {
      form := EmptyForm;
      editingId := None;
      showModal := false;
    }
  }
}
