/** The emergency-contacts screen: a list of contacts kept in step with the
    `emergencyContacts` storage key and an add/edit form. A save needs a
    name and a phone, and the phone must be at least ten characters long;
    the relationship is optional. */
module Contacts {
  import opened Wrappers
  import opened Entities
  import opened RecordList

  const EmptyForm: ContactForm := ContactForm("", "", "")

  /** The shortest phone number a save accepts. */
  const MinPhoneLength: nat := 10

  /** The phone input holds at most this many characters. */
  const MaxPhoneLength: nat := 10

  /** What mounting reads from storage: `if (saved) setContacts(saved)`. */
  function StoredContacts(storage: Storage): seq<Contact>
  {
    if ContactsKey in storage && storage[ContactsKey].ContactList?
    then storage[ContactsKey].contacts else []
  }

  class ContactsScreen {
    var contacts: seq<Contact>
    var form: ContactForm
    var editingId: Option<string>
    var showModal: bool
    var storage: Storage

    /** The list on screen is the list in storage. */
    ghost predicate Valid()
      reads this
    {
      contacts == StoredContacts(storage)
    }

    constructor Mount(storage: Storage)
      ensures Valid()
      ensures this.storage == storage && contacts == StoredContacts(storage)
      ensures form == EmptyForm && editingId == None && !showModal
    {
      this.storage := storage;
      contacts := StoredContacts(storage);
      form := EmptyForm;
      editingId := None;
      showModal := false;
    }

    /** The add button opens the form. */
    method OpenForm()
      modifies this
      ensures showModal
      ensures contacts == old(contacts) && storage == old(storage)
      ensures form == old(form) && editingId == old(editingId)
    {
      showModal := true;
    }

    /** The three text inputs, each replacing one field of the form; the
        phone input stops at ten characters. */
    method ChangeForm(f: ContactForm)
      requires |f.phone| <= MaxPhoneLength
      modifies this
      ensures form == f
      ensures contacts == old(contacts) && storage == old(storage)
      ensures editingId == old(editingId) && showModal == old(showModal)
    {
      form := f;
    }

    /** `handleSave`. The required-field check comes first, then the phone
        length; a rejection writes nothing. `freshId` stands for
        `Date.now().toString()`, `now` for `new Date().toISOString()`. */
    method HandleSave(freshId: string, now: string) returns (outcome: SaveOutcome)
      requires Valid()
      modifies this
      ensures Valid()
      ensures old(form.name) == "" || old(form.phone) == "" ==>
        outcome == MissingRequired && unchanged(this)
      ensures old(form.name) != "" && old(form.phone) != "" && |old(form.phone)| < MinPhoneLength ==>
        outcome == InvalidPhone && unchanged(this)
      ensures old(form.name) != "" && |old(form.phone)| >= MinPhoneLength ==>
        && outcome == Saved
        && contacts == Upsert(old(contacts), old(editingId), Entry(SavedId(old(editingId), freshId), old(form), now))
        && storage == old(storage)[ContactsKey := ContactList(contacts)]
        && form == EmptyForm && editingId == None && !showModal
    {
      if form.name == "" || form.phone == "" {
        return MissingRequired;
      }
      if |form.phone| < MinPhoneLength {
        return InvalidPhone;
      }
      var saved := Entry(SavedId(editingId, freshId), form, now);
      var updated := Upsert(contacts, editingId, saved);
      storage := storage[ContactsKey := ContactList(updated)];
      contacts := updated;
      ResetForm();
      outcome := Saved;
    }

    /** `handleDelete`: on confirmation, every contact with the id is
        dropped and the list written. */
    method HandleDelete(id: string, confirmed: bool)
      requires Valid()
      modifies this
      ensures Valid()
      ensures confirmed ==>
        && contacts == RemoveById(old(contacts), id)
        && storage == old(storage)[ContactsKey := ContactList(contacts)]
      ensures !confirmed ==> contacts == old(contacts) && storage == old(storage)
      ensures form == old(form) && editingId == old(editingId) && showModal == old(showModal)
    {
      if confirmed {
        var updated := RemoveById(contacts, id);
        storage := storage[ContactsKey := ContactList(updated)];
        contacts := updated;
      }
    }

    /** `handleEdit`: load the contact's three fields and id, open the form. */
    method HandleEdit(contact: Contact)
      modifies this
      ensures form == contact.fields && editingId == Some(contact.id) && showModal
      ensures contacts == old(contacts) && storage == old(storage)
    {
      form := contact.fields;
      editingId := Some(contact.id);
      showModal := true;
    }

    /** `resetForm`: clear the three fields, forget the edited id, close. */
    method ResetForm()
      modifies this
      ensures form == EmptyForm && editingId == None && !showModal
      ensures contacts == old(contacts) && storage == old(storage)
    {
      form := EmptyForm;
      editingId := None;
      showModal := false;
    }
  }
}
