/** The device's notification scheduler as the app sees it through
    `expo-notifications`: a registry of scheduled entries, each with a
    platform-chosen identifier, the optional `data` payload the app attached
    and its trigger. Identifiers are handed out from a counter, so they are
    unique; whether the native scheduling call succeeds is a parameter. */
module NotificationPlatform {
  import opened Wrappers
  import opened Sequences
  import opened JsText

  datatype Kind = MedicationReminder | MedicationSnooze

  /** `content.data`: `{ medicationId, medicationName, type }`. */
  datatype Data = Data(medicationId: string, medicationName: string, kind: Kind)

  datatype Trigger =
    | Calendar(hour: ParsedInt, minute: ParsedInt, repeats: bool)  // `{ hour, minute, repeats }`
    | Once(at: int)                                                // a `Date`, in minutes

  datatype Scheduled = Scheduled(identifier: nat, data: Option<Data>, trigger: Trigger)

  /** `const [hours, minutes] = time.split(':')` and the trigger
      `{ hour: parseInt(hours), minute: parseInt(minutes), repeats: true }`.
      Without a second part `minutes` is `undefined`, and `parseInt` of it
      is NaN (`ParseIntOfUndefined`). Nothing checks the format. */
  function ReminderTrigger(time: string): (t: Trigger)
    ensures t.Calendar? && t.repeats
  {
    var parts := Split(time, ':');
    Calendar(ParseInt(parts[0]), if |parts| >= 2 then ParseInt(parts[1]) else NaN, true)
  }

  /** `parseInt(undefined)` reads the string "undefined", which has no
      digits. */
  lemma ParseIntOfUndefined()
    ensures ParseInt("undefined") == NaN
  {
    ParseIntNoDigits("undefined");
  }

  /** A well-formed "HH:MM" (any non-empty runs of decimal digits) yields
      its hour and minute. */
  lemma ReminderTriggerOfDigits(hh: string, mm: string)
    requires hh != [] && IsDecimal(hh) && mm != [] && IsDecimal(mm)
    ensures ReminderTrigger(hh + ":" + mm) == Calendar(Num(ValueOf(hh, 10)), Num(ValueOf(mm, 10)), true)
  {
    var parts := [hh, mm];
    assert ':' !in hh && ':' !in mm by {
      assert forall k :: 0 <= k < |hh| ==> hh[k] != ':';
      assert forall k :: 0 <= k < |mm| ==> mm[k] != ':';
    }
    assert Join(parts, ':') == hh + ":" + mm by {
      assert parts[1..] == [mm];
    }
    SplitJoin(parts, ':');
    ParseIntDecimal(hh);
    ParseIntDecimal(mm);
  }

  /** In particular a time of day written "HH:MM" gives exactly that hour
      and minute, so "08:05" gives hour 8, minute 5. */
  lemma ReminderTriggerOfClock(hour: nat, minute: nat)
    requires hour < 24 && minute < 60
    ensures ReminderTrigger(TwoDigits(hour) + ":" + TwoDigits(minute)) == Calendar(Num(hour), Num(minute), true)
  {
    TwoDigitsValue(hour);
    TwoDigitsValue(minute);
    ReminderTriggerOfDigits(TwoDigits(hour), TwoDigits(minute));
  }

  /** A time without a colon has no minute part: the minute is NaN. */
  lemma ReminderTriggerWithoutColon(time: string)
    requires ':' !in time
    ensures ReminderTrigger(time).minute == NaN
  {
    SplitPiece(time, [], ':');
    assert time + [] == time;
  }

  // ------------------------------------------------------- the registry

  predicate TaggedFor(e: Scheduled, medicationId: string)
  {
    e.data.Some? && e.data.value.medicationId == medicationId
  }

  /** The entries whose `data.medicationId` is the given id. */
  function ForMedication(s: seq<Scheduled>, medicationId: string): (r: seq<Scheduled>)
    ensures forall e :: e in r <==> e in s && TaggedFor(e, medicationId)
  {
    Filter(s, (e: Scheduled) => TaggedFor(e, medicationId))
  }

  /** The entries whose `data.medicationId` is not the given id. */
  function WithoutMedication(s: seq<Scheduled>, medicationId: string): (r: seq<Scheduled>)
    ensures forall e :: e in r <==> e in s && !TaggedFor(e, medicationId)
  {
    Filter(s, (e: Scheduled) => !TaggedFor(e, medicationId))
  }

  /** The registry after `cancelScheduledNotificationAsync(identifier)`. */
  function WithoutIdentifier(s: seq<Scheduled>, identifier: nat): (r: seq<Scheduled>)
    ensures forall e :: e in r <==> e in s && e.identifier != identifier
  {
    Filter(s, (e: Scheduled) => e.identifier != identifier)
  }

  lemma WithoutIdentifierAppend(a: seq<Scheduled>, b: seq<Scheduled>, identifier: nat)
    ensures WithoutIdentifier(a + b, identifier) == WithoutIdentifier(a, identifier) + WithoutIdentifier(b, identifier)
  {
    FilterAppend(a, b, (e: Scheduled) => e.identifier != identifier);
  }

  /** Cancelling an identifier no entry carries changes nothing. */
  lemma WithoutIdentifierAbsent(s: seq<Scheduled>, identifier: nat)
    requires forall e :: e in s ==> e.identifier != identifier
    ensures WithoutIdentifier(s, identifier) == s
  {
    FilterKeepsAll(s, (e: Scheduled) => e.identifier != identifier);
  }

  lemma WithoutMedicationAppend(a: seq<Scheduled>, b: seq<Scheduled>, medicationId: string)
    ensures WithoutMedication(a + b, medicationId) == WithoutMedication(a, medicationId) + WithoutMedication(b, medicationId)
  {
    FilterAppend(a, b, (e: Scheduled) => !TaggedFor(e, medicationId));
  }

  predicate UniqueIdentifiers(s: seq<Scheduled>)
  {
    forall i, j :: 0 <= i < j < |s| ==> s[i].identifier != s[j].identifier
  }

  /** Dropping entries never makes two identifiers collide. */
  lemma {:induction false} FilterKeepsUnique(s: seq<Scheduled>, keep: Scheduled -> bool)
    requires UniqueIdentifiers(s)
    ensures UniqueIdentifiers(Filter(s, keep))
  {
    if s != [] {
      var tail := s[1..];
      assert UniqueIdentifiers(tail) by {
        forall i, j | 0 <= i < j < |tail| ensures tail[i].identifier != tail[j].identifier {
          assert tail[i] == s[i + 1] && tail[j] == s[j + 1];
        }
      }
      FilterKeepsUnique(tail, keep);
      var rest := Filter(tail, keep);
      if keep(s[0]) {
        var r := [s[0]] + rest;
        forall i, j | 0 <= i < j < |r| ensures r[i].identifier != r[j].identifier {
          if i == 0 {
            assert r[j] in tail;
            var k :| 0 <= k < |tail| && tail[k] == r[j];
            assert s[k + 1] == r[j];
          } else {
            assert r[i] == rest[i - 1] && r[j] == rest[j - 1];
          }
        }
      }
    }
  }

  class Platform {
    var scheduled: seq<Scheduled>
    var nextIdentifier: nat

    ghost predicate Valid()
      reads this
    {
      && (forall e :: e in scheduled ==> e.identifier < nextIdentifier)
      && UniqueIdentifiers(scheduled)
    }

    constructor ()
      ensures Valid() && scheduled == [] && nextIdentifier == 0
    {
      scheduled := [];
      nextIdentifier := 0;
    }

    /** `scheduleNotificationAsync`: on success the entry is added and its
        identifier returned; a rejected call changes nothing. */
    method Schedule(data: Option<Data>, trigger: Trigger, accepted: bool) returns (identifier: Option<nat>)
      requires Valid()
      modifies this
      ensures Valid()
      ensures accepted ==>
        && identifier == Some(old(nextIdentifier))
        && scheduled == old(scheduled) + [Scheduled(old(nextIdentifier), data, trigger)]
        && nextIdentifier == old(nextIdentifier) + 1
      ensures !accepted ==> identifier == None && unchanged(this)
    {
      if !accepted {
        return None;
      }
      var e := Scheduled(nextIdentifier, data, trigger);
      assert UniqueIdentifiers(scheduled + [e]) by {
        var s := scheduled + [e];
        forall i, j | 0 <= i < j < |s| ensures s[i].identifier != s[j].identifier {
          if j == |s| - 1 {
            assert s[i] in scheduled;
          } else {
            assert s[i] == scheduled[i] && s[j] == scheduled[j];
          }
        }
      }
      scheduled := scheduled + [e];
      identifier := Some(nextIdentifier);
      nextIdentifier := nextIdentifier + 1;
    }

    /** `cancelScheduledNotificationAsync(identifier)`. */
    method Cancel(identifier: nat)
      requires Valid()
      modifies this
      ensures Valid()
      ensures scheduled == WithoutIdentifier(old(scheduled), identifier)
      ensures nextIdentifier == old(nextIdentifier)
    {
      FilterKeepsUnique(scheduled, (e: Scheduled) => e.identifier != identifier);
      scheduled := WithoutIdentifier(scheduled, identifier);
    }

    /** `cancelAllScheduledNotificationsAsync()`. */
    method CancelAll()
      requires Valid()
      modifies this
      ensures Valid()
      ensures scheduled == [] && nextIdentifier == old(nextIdentifier)
    {
      scheduled := [];
    }
  }
}
