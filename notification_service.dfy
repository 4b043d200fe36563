/** The medication reminder service: permission negotiation, one repeating
    daily reminder per medication (re-scheduling cancels the old one first),
    cancellation by medication id or wholesale, and a one-shot snooze ten
    minutes ahead. Every platform call works on the registry `p`. */
module NotificationService {
  import opened Wrappers
  import opened Sequences
  import opened Entities
  import opened NotificationPlatform

  // ---------------------------------------------------------- permissions

  datatype PermissionStatus = Granted | Denied | Undetermined

  /** What a platform permission call gave back: a status, or an exception. */
  datatype Reply = Status(status: PermissionStatus) | Threw

  /** Whether the user was asked, and what the service answers. */
  datatype PermissionFlow = PermissionFlow(requested: bool, granted: bool)

  /** `requestNotificationPermissions`: read the current status, ask only
      when it is not already granted, and answer true only when the final
      status is granted and no call threw. `existing` is the answer of
      `getPermissionsAsync`, `request` that of `requestPermissionsAsync`
      (consulted only when asked), `channelThrew` whether the Android
      channel set-up, made once permission is granted, threw. */
  function RequestNotificationPermissions(existing: Reply, request: Reply, channelThrew: bool): (r: PermissionFlow)
    ensures r.requested <==> existing.Status? && existing.status != Granted
    ensures r.granted <==>
      && !channelThrew
      && existing.Status?
      && (existing.status == Granted || request == Status(Granted))
    ensures existing == Threw ==> !r.granted
  {
    match existing
    case Threw => PermissionFlow(false, false)
    case Status(status) =>
      var requested := status != Granted;
      var final := if requested then request else Status(status);
      match final
      case Threw => PermissionFlow(requested, false)
      case Status(finalStatus) =>
        if finalStatus != Granted then PermissionFlow(requested, false)
        else PermissionFlow(requested, !channelThrew)
  }

  // ------------------------------------------------------------ entries

  /** The minutes a snooze postpones a reminder by. */
  const SnoozeMinutes: int := 10

  /** The repeating daily entry `scheduleMedicationReminder` creates. */
  function ReminderEntry(identifier: nat, medication: Medication): Scheduled
  {
    Scheduled(identifier,
              Some(Data(medication.id, medication.fields.name, MedicationReminder)),
              ReminderTrigger(medication.fields.time))
  }

  /** The one-shot entry `snoozeNotification` creates. */
  function SnoozeEntry(identifier: nat, medication: Medication, now: int): Scheduled
  {
    Scheduled(identifier,
              Some(Data(medication.id, medication.fields.name, MedicationSnooze)),
              Once(now + SnoozeMinutes))
  }

  // ------------------------------------------------ cancel by medication

  /** With unique identifiers, no entry before or after position `i` shares
      its identifier. */
  lemma OtherIdentifiers(all: seq<Scheduled>, i: nat)
    requires i < |all| && UniqueIdentifiers(all)
    ensures forall e :: e in all[..i] ==> e.identifier != all[i].identifier
    ensures forall e :: e in all[i + 1..] ==> e.identifier != all[i].identifier
  {
    forall e | e in all[..i] ensures e.identifier != all[i].identifier {
      var k :| 0 <= k < i && all[k] == e;
    }
    forall e | e in all[i + 1..] ensures e.identifier != all[i].identifier {
      var k :| 0 <= k < |all[i + 1..]| && all[i + 1..][k] == e;
      assert all[i + 1 + k] == e;
    }
  }

  /** One pass of the cancelling loop over a tagged entry. */
  lemma CancelTaggedStep(all: seq<Scheduled>, i: nat, medicationId: string)
    requires i < |all| && UniqueIdentifiers(all) && TaggedFor(all[i], medicationId)
    ensures WithoutIdentifier(WithoutMedication(all[..i], medicationId) + all[i..], all[i].identifier)
         == WithoutMedication(all[..i + 1], medicationId) + all[i + 1..]
  {
    var x := all[i].identifier;
    var done := WithoutMedication(all[..i], medicationId);
    var rest := all[i + 1..];
    assert all[i..] == [all[i]] + rest;
    assert done + all[i..] == (done + [all[i]]) + rest;
    WithoutIdentifierAppend(done + [all[i]], rest, x);
    WithoutIdentifierAppend(done, [all[i]], x);
    assert WithoutIdentifier([all[i]], x) == [];
    OtherIdentifiers(all, i);
    WithoutIdentifierAbsent(done, x);
    WithoutIdentifierAbsent(rest, x);
    assert all[..i + 1] == all[..i] + [all[i]];
    WithoutMedicationAppend(all[..i], [all[i]], medicationId);
    assert WithoutMedication([all[i]], medicationId) == [];
  }

  /** One pass of the cancelling loop over an entry of another medication. */
  lemma CancelUntaggedStep(all: seq<Scheduled>, i: nat, medicationId: string)
    requires i < |all| && !TaggedFor(all[i], medicationId)
    ensures WithoutMedication(all[..i], medicationId) + all[i..]
         == WithoutMedication(all[..i + 1], medicationId) + all[i + 1..]
  {
    assert all[..i + 1] == all[..i] + [all[i]];
    WithoutMedicationAppend(all[..i], [all[i]], medicationId);
    assert WithoutMedication([all[i]], medicationId) == [all[i]];
    assert all[i..] == [all[i]] + all[i + 1..];
  }

  /** `cancelMedicationReminder`: walk the registry as it was when listed
      and cancel each entry whose `data.medicationId` is the id. */
  method CancelMedicationReminder(p: Platform, medicationId: string)
    requires p.Valid()
    modifies p
    ensures p.Valid()
    ensures p.scheduled == WithoutMedication(old(p.scheduled), medicationId)
    ensures p.nextIdentifier == old(p.nextIdentifier)
  {
    var all := p.scheduled;
    var i := 0;
    while i < |all|
      invariant 0 <= i <= |all|
      invariant p.Valid()
      invariant p.nextIdentifier == old(p.nextIdentifier)
      invariant p.scheduled == WithoutMedication(all[..i], medicationId) + all[i..]
    {
      if TaggedFor(all[i], medicationId) {
        CancelTaggedStep(all, i, medicationId);
        p.Cancel(all[i].identifier);
      } else {
        CancelUntaggedStep(all, i, medicationId);
      }
      i := i + 1;
    }
    assert all[..i] == all;
  }

  /** `cancelAllMedicationReminders`: the registry ends up empty. */
  method CancelAllMedicationReminders(p: Platform)
    requires p.Valid()
    modifies p
    ensures p.Valid()
    ensures p.scheduled == [] && p.nextIdentifier == old(p.nextIdentifier)
  {
    p.CancelAll();
  }

  // ------------------------------------------------------------ schedule

  /** After the old entries of a medication are cancelled and one new entry
      for it is added, that new entry is its only one. */
  lemma RescheduleLeavesOne(s: seq<Scheduled>, medicationId: string, e: Scheduled)
    requires TaggedFor(e, medicationId)
    ensures ForMedication(WithoutMedication(s, medicationId) + [e], medicationId) == [e]
  {
    var kept := WithoutMedication(s, medicationId);
    var mine := (x: Scheduled) => TaggedFor(x, medicationId);
    FilterAppend(kept, [e], mine);
    FilterDropsAll(kept, mine);
  }

  /** Cancelling one medication's entries leaves every other medication's
      entries as they were, in the same order. */
  lemma {:induction false} CancelLeavesOthers(s: seq<Scheduled>, medicationId: string, other: string)
    requires other != medicationId
    ensures ForMedication(WithoutMedication(s, medicationId), other) == ForMedication(s, other)
  {
    if s != [] {
      CancelLeavesOthers(s[1..], medicationId, other);
      var head := if TaggedFor(s[0], medicationId) then [] else [s[0]];
      assert WithoutMedication(s, medicationId) == head + WithoutMedication(s[1..], medicationId);
      FilterAppend(head, WithoutMedication(s[1..], medicationId), (e: Scheduled) => TaggedFor(e, other));
    }
  }

  /** Appending an entry tagged for another medication does not change a
      medication's entries. */
  lemma ForMedicationAppendOther(s: seq<Scheduled>, e: Scheduled, medicationId: string)
    requires !TaggedFor(e, medicationId)
    ensures ForMedication(s + [e], medicationId) == ForMedication(s, medicationId)
  {
    FilterAppend(s, [e], (x: Scheduled) => TaggedFor(x, medicationId));
  }

  /** `scheduleMedicationReminder`: cancel the medication's entries, then
      schedule one repeating daily entry at the hour and minute parsed from
      its time. Answers the new identifier, or null when scheduling threw
      (the cancellation has happened by then). */
  method ScheduleMedicationReminder(p: Platform, medication: Medication, accepted: bool)
    returns (identifier: Option<nat>)
    requires p.Valid()
    modifies p
    ensures p.Valid()
    ensures accepted ==>
      && identifier == Some(old(p.nextIdentifier))
      && p.scheduled == WithoutMedication(old(p.scheduled), medication.id)
                        + [ReminderEntry(old(p.nextIdentifier), medication)]
      && ForMedication(p.scheduled, medication.id) == [ReminderEntry(old(p.nextIdentifier), medication)]
    ensures !accepted ==>
      && identifier == None
      && p.scheduled == WithoutMedication(old(p.scheduled), medication.id)
      && ForMedication(p.scheduled, medication.id) == []
    ensures forall other :: other != medication.id ==>
      ForMedication(p.scheduled, other) == ForMedication(old(p.scheduled), other)
    ensures p.nextIdentifier == old(p.nextIdentifier) + (if accepted then 1 else 0)
  {
    var trigger := ReminderTrigger(medication.fields.time);
    CancelMedicationReminder(p, medication.id);
    ghost var kept := p.scheduled;
    identifier := p.Schedule(Some(Data(medication.id, medication.fields.name, MedicationReminder)), trigger, accepted);
    if accepted {
      RescheduleLeavesOne(old(p.scheduled), medication.id, ReminderEntry(old(p.nextIdentifier), medication));
    } else {
      FilterDropsAll(kept, (x: Scheduled) => TaggedFor(x, medication.id));
    }
    forall other | other != medication.id
      ensures ForMedication(p.scheduled, other) == ForMedication(old(p.scheduled), other)
    {
      CancelLeavesOthers(old(p.scheduled), medication.id, other);
      if accepted {
        ForMedicationAppendOther(kept, ReminderEntry(old(p.nextIdentifier), medication), other);
      }
    }
  }

  /** `snoozeNotification`: one one-shot entry ten minutes after `now`
      (minutes), typed as a snooze; nothing is cancelled, so the daily
      reminder stays. Answers the identifier, or null when scheduling threw. */
  method SnoozeNotification(p: Platform, medication: Medication, now: int, accepted: bool)
    returns (identifier: Option<nat>)
    requires p.Valid()
    modifies p
    ensures p.Valid()
    ensures accepted ==>
      && identifier == Some(old(p.nextIdentifier))
      && p.scheduled == old(p.scheduled) + [SnoozeEntry(old(p.nextIdentifier), medication, now)]
      && ForMedication(p.scheduled, medication.id)
         == ForMedication(old(p.scheduled), medication.id) + [SnoozeEntry(old(p.nextIdentifier), medication, now)]
    ensures !accepted ==> identifier == None && unchanged(p)
    ensures p.nextIdentifier == old(p.nextIdentifier) + (if accepted then 1 else 0)
  {
    var snoozeTime := now + SnoozeMinutes;
    identifier := p.Schedule(Some(Data(medication.id, medication.fields.name, MedicationSnooze)), Once(snoozeTime), accepted);
    if accepted {
      FilterAppend(old(p.scheduled), [SnoozeEntry(old(p.nextIdentifier), medication, now)],
                   (x: Scheduled) => TaggedFor(x, medication.id));
    }
  }
}
