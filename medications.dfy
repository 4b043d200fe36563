/** The medications screen: a list of medication records kept in step with
    the `medications` storage key, an add/edit form in a modal, and a daily
    reminder scheduled straight through the notification platform on every
    successful save. That reminder carries no `data`, so no cancellation by
    medication id can reach it and only cancel-all removes it: editing a
    medication adds another one, and deleting a medication leaves its
    reminders in place. */
module Medications {
  import opened Wrappers
  import opened Entities
  import opened RecordList
  import opened NotificationPlatform

  const EmptyForm: MedicationForm := MedicationForm("", "", "", Daily)

  /** What mounting reads from storage: `if (saved) setMedications(saved)`. */
  function StoredMedications(storage: Storage): seq<Medication>
  {
    if MedicationsKey in storage && storage[MedicationsKey].MedicationList?
    then storage[MedicationsKey].medications else []
  }

  /** The entry `scheduleNotification(med)` adds: no `data`, a repeating
      daily trigger at the parsed hour and minute. Carrying no medication
      id, it is tagged for no medication. */
  function ScreenReminder(identifier: nat, time: string): (r: Scheduled)
    ensures r.identifier == identifier
    ensures r.trigger.Calendar? && r.trigger.repeats
    ensures forall medicationId :: !TaggedFor(r, medicationId)
  {
    Scheduled(identifier, None, ReminderTrigger(time))
  }

  /** No cancellation by medication id reaches a screen reminder: cancelling
      any medication's reminders keeps it, at the end of the registry. Only
      cancelling everything removes it. */
  lemma ScreenReminderOutlivesCancel(s: seq<Scheduled>, identifier: nat, time: string, medicationId: string)
    ensures WithoutMedication(s + [ScreenReminder(identifier, time)], medicationId)
         == WithoutMedication(s, medicationId) + [ScreenReminder(identifier, time)]
  {
    var x := ScreenReminder(identifier, time);
    WithoutMedicationAppend(s, [x], medicationId);
    assert [x][1..] == [];
  }

  class MedicationsScreen {
    var medications: seq<Medication>
    var form: MedicationForm
    var editingId: Option<string>
    var showModal: bool
    var storage: Storage
    const notifications: Platform

    /** The list on screen is the list in storage. */
    ghost predicate Valid()
      reads this, notifications
    {
      medications == StoredMedications(storage) && notifications.Valid()
    }

    /** Mounting the screen: empty form, closed modal, and the stored list
        loaded. */
    constructor Mount(storage: Storage, notifications: Platform)
      requires notifications.Valid()
      ensures Valid()
      ensures this.storage == storage && this.notifications == notifications
      ensures medications == StoredMedications(storage)
      ensures form == EmptyForm && editingId == None && !showModal
    {
      this.storage := storage;
      this.notifications := notifications;
      medications := StoredMedications(storage);
      form := EmptyForm;
      editingId := None;
      showModal := false;
    }

    /** The add button opens the empty form. */
    method OpenForm()
      modifies this
      ensures showModal
      ensures medications == old(medications) && storage == old(storage)
      ensures form == old(form) && editingId == old(editingId)
    {
      showModal := true;
    }

    /** The text inputs and frequency buttons: each replaces one field of
        the form, so any form can be reached. */
    method ChangeForm(f: MedicationForm)
      modifies this
      ensures form == f
      ensures medications == old(medications) && storage == old(storage)
      ensures editingId == old(editingId) && showModal == old(showModal)
    {
      form := f;
    }

    /** `handleSave`. `freshId` stands for `Date.now().toString()`, `now`
        for `new Date().toISOString()`, `accepted` for whether the platform
        accepts the reminder. A rejected form changes nothing. Otherwise the
        saved record is written and shown, and one more daily reminder is
        added without cancelling any; if the reminder call throws, the
        handler stops before resetting the form. */
    method HandleSave(freshId: string, now: string, accepted: bool) returns (outcome: SaveOutcome)
      requires Valid()
      modifies this, notifications
      ensures Valid()
      ensures old(form.name) == "" || old(form.time) == "" ==>
        outcome == MissingRequired && unchanged(this) && unchanged(notifications)
      ensures old(form.name) != "" && old(form.time) != "" ==>
        && medications == Upsert(old(medications), old(editingId), Entry(SavedId(old(editingId), freshId), old(form), now))
        && storage == old(storage)[MedicationsKey := MedicationList(medications)]
      ensures old(form.name) != "" && old(form.time) != "" ==>
        notifications.scheduled
        == old(notifications.scheduled)
           + (if accepted then [ScreenReminder(old(notifications.nextIdentifier), old(form.time))] else [])
        && notifications.nextIdentifier == old(notifications.nextIdentifier) + (if accepted then 1 else 0)
      ensures old(form.name) != "" && old(form.time) != "" && accepted ==>
        outcome == Saved && form == EmptyForm && editingId == None && !showModal
      ensures old(form.name) != "" && old(form.time) != "" && !accepted ==>
        && outcome == ScheduleFailed
        && form == old(form) && editingId == old(editingId) && showModal == old(showModal)
    {
      if form.name == "" || form.time == "" {
        return MissingRequired;
      }
      Store(Upsert(medications, editingId, Entry(SavedId(editingId, freshId), form, now)));
      var identifier := ScheduleReminder(form.time, accepted);
      if identifier.None? {
        // the awaited call threw: the handler ends before `resetForm()`
        outcome := ScheduleFailed;
      } else {
        ResetForm();
        outcome := Saved;
      }
    }

    /** `handleDelete`: on confirmation, every record with the id is dropped
        and the list written; the reminders are left alone. */
    method HandleDelete(id: string, confirmed: bool)
      requires Valid()
      modifies this
      ensures Valid()
      ensures confirmed ==>
        && medications == RemoveById(old(medications), id)
        && storage == old(storage)[MedicationsKey := MedicationList(medications)]
      ensures !confirmed ==> medications == old(medications) && storage == old(storage)
      ensures form == old(form) && editingId == old(editingId) && showModal == old(showModal)
    {
      if confirmed {
        Store(RemoveById(medications, id));
      }
    }

    /** `setMedications(updated)` with `saveData('medications', updated)`:
        the list on screen and the list in storage both become `updated`. */
    method Store(updated: seq<Medication>)
      requires notifications.Valid()
      modifies this
      ensures Valid()
      ensures medications == updated && storage == old(storage)[MedicationsKey := MedicationList(updated)]
      ensures form == old(form) && editingId == old(editingId) && showModal == old(showModal)
    {
      storage := storage[MedicationsKey := MedicationList(updated)];
      medications := updated;
    }

    /** `scheduleNotification(med)`: one untagged daily reminder at `time`
        is added, and none is cancelled. */
    method ScheduleReminder(time: string, accepted: bool) returns (identifier: Option<nat>)
      requires notifications.Valid()
      modifies notifications
      ensures notifications.Valid()
      ensures identifier.Some? <==> accepted
      ensures notifications.scheduled
        == old(notifications.scheduled)
           + (if accepted then [ScreenReminder(old(notifications.nextIdentifier), time)] else [])
      ensures notifications.nextIdentifier == old(notifications.nextIdentifier) + (if accepted then 1 else 0)
    {
      identifier := notifications.Schedule(None, ReminderTrigger(time), accepted);
    }

    /** `handleEdit`: load the record's four fields and id, open the form. */
    method HandleEdit(med: Medication)
      modifies this
      ensures form == med.fields && editingId == Some(med.id) && showModal
      ensures medications == old(medications) && storage == old(storage)
    {
      form := med.fields;
      editingId := Some(med.id);
      showModal := true;
    }

    /** `resetForm`: empty form, no record being edited, modal closed. */
    method ResetForm()
      modifies this
      ensures form == EmptyForm && editingId == None && !showModal
      ensures medications == old(medications) && storage == old(storage)
    {
      form := EmptyForm;
      editingId := None;
      showModal := false;
    }
  }

  /** Opening the edit form of the only listed medication and saving it
      unchanged: the record is replaced by itself with a new `createdAt`, and
      one more daily reminder is registered. */
  method EditAndSave(screen: MedicationsScreen, med: Medication, freshId: string, now: string)
    requires screen.Valid() && screen.medications == [med]
    requires med.id != "" && med.fields.name != "" && med.fields.time != ""
    modifies screen, screen.notifications
    ensures screen.Valid()
    ensures screen.medications == [Entry(med.id, med.fields, now)]
    ensures screen.notifications.scheduled
      == old(screen.notifications.scheduled) + [ScreenReminder(old(screen.notifications.nextIdentifier), med.fields.time)]
    ensures screen.notifications.nextIdentifier == old(screen.notifications.nextIdentifier) + 1
  {
    screen.HandleEdit(med);
    var outcome := screen.HandleSave(freshId, now, true);
  }

  /** A screen mounted over a stored list holding just `med`, whose edit
      form is then opened and saved twice: the list holds the record of the
      second save, and two reminders are registered. */
  method SaveTwice(med: Medication, freshId: string) returns (screen: MedicationsScreen)
    requires med.id != "" && med.fields.name != "" && med.fields.time != ""
    ensures fresh(screen)
    ensures screen.Valid()
    ensures screen.medications == [Entry(med.id, med.fields, "second save")]
    ensures screen.notifications.scheduled == [ScreenReminder(0, med.fields.time), ScreenReminder(1, med.fields.time)]
  {
    screen := MountOver(med);
    EditAndSave(screen, med, freshId, "first save");
    EditAndSave(screen, Entry(med.id, med.fields, "first save"), freshId, "second save");
    assert screen.notifications.scheduled == [ScreenReminder(0, med.fields.time)] + [ScreenReminder(1, med.fields.time)];
  }

  /** A fresh screen over a fresh platform, mounted over a stored list
      holding just `med`. */
  method MountOver(med: Medication) returns (screen: MedicationsScreen)
    ensures fresh(screen) && fresh(screen.notifications)
    ensures screen.Valid() && screen.medications == [med]
    ensures screen.notifications.scheduled == [] && screen.notifications.nextIdentifier == 0
  {
    var platform := new Platform();
    screen := new MedicationsScreen.Mount(map[MedicationsKey := MedicationList([med])], platform);
  }

  /** A medication saved twice through its edit form and then deleted: the
      list ends empty, yet both daily reminders the two saves scheduled are
      still registered, since this screen neither cancels nor tags them. */
  method EditTwiceThenDelete(med: Medication, freshId: string) returns (remaining: seq<Medication>, registry: seq<Scheduled>)
    requires med.id != "" && med.fields.name != "" && med.fields.time != ""
    ensures remaining == []
    ensures registry == [ScreenReminder(0, med.fields.time), ScreenReminder(1, med.fields.time)]
  {
    var screen := SaveTwice(med, freshId);
    screen.HandleDelete(med.id, true);
    remaining, registry := screen.medications, screen.notifications.scheduled;
  }
}
