/** The changelog search (src/pest-routes/log-search.service.ts): every
    quarter hour, list today's appointment changelog ids, process those
    above the persisted "last id seen" cursor, and advance the cursor to
    the largest of them. A changelog whose appointment was dragged to
    today triggers the reschedule handling. The clock, the listing and each
    fetched changelog are parameters. */
module ChangelogSearch {
  import opened Wrappers
  import opened Strings
  import opened Decimal
  import opened PestRoutesTypes

  const LAST_SEEN_KEY := "PESTROUTES_LAST_CHANGELOG_ID_SEEN"
  /** The class id of appointments in the field-service system. */
  const CLASS_ID := 4
  const DRAGGED := "Dragged Appointment"
  const TIME_KEY := "Time"

  /** The `globalSettings` table: string values under string keys. */
  class GlobalSettings {
    var values: map<string, string>

    constructor(values: map<string, string>)
      ensures this.values == values
    {
      this.values := values;
    }

    /** `upsert`: create or overwrite the value under `key`. */
    method Upsert(key: string, value: string)
      modifies this
      ensures values == old(values)[key := value]
    {
      values := values[key := value];
    }
  }

  /** `getLastChangelogIdSeen`: a missing or empty value reads as 0, a
      string of digits as its value, anything else as NaN (`None`). */
  function LastSeen(values: map<string, string>): (r: Option<nat>)
    ensures LAST_SEEN_KEY !in values ==> r == Some(0)
    ensures LAST_SEEN_KEY in values && AllDigits(values[LAST_SEEN_KEY]) ==>
              r == Some(DigitsValue(values[LAST_SEEN_KEY]))
    ensures r.None? <==> LAST_SEEN_KEY in values && values[LAST_SEEN_KEY] != "" && !AllDigits(values[LAST_SEEN_KEY])
  {
    if LAST_SEEN_KEY !in values || values[LAST_SEEN_KEY] == "" then Some(0)
    else JsNumber(values[LAST_SEEN_KEY])
  }

  /** The ids strictly above the cursor, in listing order. Every comparison
      with NaN is false, so an unreadable cursor lets no id through. */
  function NewIds(ids: seq<int>, cursor: Option<nat>): (r: seq<int>)
    ensures forall x :: x in r <==> x in ids && cursor.Some? && x > cursor.value
    ensures |r| > 0 ==> cursor.Some?
    ensures |r| <= |ids|
  {
    if |ids| == 0 then []
    else
      var prefix := NewIds(ids[..|ids| - 1], cursor);
      var x := ids[|ids| - 1];
      assert forall y :: y in ids <==> y in ids[..|ids| - 1] || y == x;
      if cursor.Some? && x > cursor.value then prefix + [x] else prefix
  }

  /** `Math.max` of a non-empty list. */
  function Max(s: seq<int>): (m: int)
    requires |s| > 0
    ensures m in s
    ensures forall x :: x in s ==> x <= m
  {
    if |s| == 1 then s[0]
    else
      var m := Max(s[..|s| - 1]);
      assert forall x :: x in s ==> x in s[..|s| - 1] || x == s[|s| - 1];
      if s[|s| - 1] > m then s[|s| - 1] else m
  }

  /** The quarter hour after 2 AM is skipped: the bulk greeting runs then. */
  predicate SkipWindow(now: Now)
  {
    now.hour == 2 && now.minute < 15
  }

  // ---------------------------------------------------------------------
  // findDraggedAppointmentsAndReschedule

  /** What happens to one changelog id: an exception that is captured, a
      change outside 2 AM to 5 PM, no dragged note, a drag to another day,
      or the reschedule handling of the appointment. */
  datatype EntryOutcome = Captured | OutsideHours | NotDragged | OtherDay | Rescheduled(appointmentId: string)

  /** The first note with key "Time", as `notes.find` returns it. */
  function TimeNote(notes: seq<ChangelogNote>): (r: Option<ChangelogNote>)
    ensures r.Some? ==> r.value in notes && r.value.key == Some(TIME_KEY)
    ensures r.None? ==> forall n :: n in notes ==> n.key != Some(TIME_KEY)
  {
    if |notes| == 0 then None
    else if notes[0].key == Some(TIME_KEY) then Some(notes[0])
    else
      assert forall n :: n in notes ==> n == notes[0] || n in notes[1..];
      TimeNote(notes[1..])
  }

  /** A note is returned exactly when it is the first one keyed "Time":
      notes before it carry other keys. */
  lemma {:induction false} TimeNoteIsFirst(notes: seq<ChangelogNote>, i: int)
    requires 0 <= i < |notes| && notes[i].key == Some(TIME_KEY)
    requires forall j :: 0 <= j < i ==> notes[j].key != Some(TIME_KEY)
    ensures TimeNote(notes) == Some(notes[i])
    decreases i
  {
    if i > 0 {
      assert notes[0].key != Some(TIME_KEY);
      TimeNoteIsFirst(notes[1..], i - 1);
    }
  }

  /** The body of the loop for one changelog. `entry` is `None` when the
      fetch fails; `notes` is `None` when parsing them throws, which
      happens before the hour is looked at; an unparsable change time has
      hour NaN and passes the hour test. Reading `new` of a missing "Time"
      note, or splitting a missing value, throws. */
  function ClassifyChangelog(entry: Option<Changelog>, today: string): (r: EntryOutcome)
    ensures entry.None? || entry.value.notes.None? ==> r == Captured
    ensures r == OutsideHours ==> entry.Some? && entry.value.changedHour.Some? &&
                                  !(2 <= entry.value.changedHour.value < 17)
    ensures r == NotDragged ==> entry.Some? && entry.value.notes.Some? &&
                                forall n :: n in entry.value.notes.value ==> n.newValue != Some(DRAGGED)
  {
    match entry
    case None => Captured
    case Some(cl) =>
      match cl.notes
      case None => Captured
      case Some(notes) =>
        if cl.changedHour.Some? && (cl.changedHour.value < 2 || cl.changedHour.value >= 17) then OutsideHours
        else if !(exists n :: n in notes && n.newValue == Some(DRAGGED)) then NotDragged
        else match TimeNote(notes)
          case None => Captured
          case Some(t) =>
            match t.newValue
            case None => Captured
            case Some(changedTo) => if Split(changedTo, ' ')[0] == today then Rescheduled(cl.referenceID) else OtherDay
  }

  /** A reschedule is triggered exactly when the changelog was read, its
      hour is in [2, 17) (or unreadable), some note says the appointment
      was dragged, and the date before the first space of the "Time"
      note's new value is today. */
  lemma RescheduledIff(entry: Option<Changelog>, today: string, appointmentId: string)
    ensures ClassifyChangelog(entry, today) == Rescheduled(appointmentId) <==>
              && entry.Some? && entry.value.referenceID == appointmentId
              && entry.value.notes.Some?
              && (entry.value.changedHour.Some? ==> 2 <= entry.value.changedHour.value < 17)
              && (exists n :: n in entry.value.notes.value && n.newValue == Some(DRAGGED))
              && TimeNote(entry.value.notes.value).Some?
              && TimeNote(entry.value.notes.value).value.newValue.Some?
              && Split(TimeNote(entry.value.notes.value).value.newValue.value, ' ')[0] == today
  {
  }

  /** The date token of "yyyy-MM-dd HH:mm:ss" is the part before the space. */
  lemma {:induction false} DateToken(date: string, time: string)
    requires ' ' !in date
    ensures Split(date + " " + time, ' ')[0] == date
  {
    SplitAfterPrefix(date, time, ' ');
  }

  /** The loop: each id is classified on its own, so an exception on one
      changelog is captured and the rest are still processed, in order. */
  method FindDraggedAppointments(ids: seq<int>, fetch: int -> Option<Changelog>, today: string)
    returns (outcomes: seq<EntryOutcome>)
    ensures |outcomes| == |ids|
    ensures forall k :: 0 <= k < |ids| ==> outcomes[k] == ClassifyChangelog(fetch(ids[k]), today)
  {
    outcomes := [];
    for i := 0 to |ids|
      invariant |outcomes| == i
      invariant forall k :: 0 <= k < i ==> outcomes[k] == ClassifyChangelog(fetch(ids[k]), today)
    {
      outcomes := outcomes + [ClassifyChangelog(fetch(ids[i]), today)];
    }
  }

  // ---------------------------------------------------------------------
  // searchChangelog

  /** The listing request: changelogs of this class changed on this date. */
  datatype ChangelogQuery = ChangelogQuery(classId: int, date: string)

  /** The value the cursor is advanced to after processing `unseen`. */
  function NextCursor(unseen: seq<int>): (value: string)
    requires |unseen| > 0
    requires forall x :: x in unseen ==> x >= 0
  {
    NatToString(Max(unseen))
  }

  /** One run of the job: outside the skipped window, list today's ids,
      process those above the cursor and, when there were any, store their
      maximum as the new cursor. */
  method SearchChangelog(settings: GlobalSettings, now: Now, changelogIds: seq<int>,
                         fetch: int -> Option<Changelog>)
    returns (query: Option<ChangelogQuery>, outcomes: seq<EntryOutcome>)
    modifies settings
    ensures SkipWindow(now) ==> query.None? && outcomes == [] && settings.values == old(settings.values)
    ensures !SkipWindow(now) ==> query == Some(ChangelogQuery(CLASS_ID, now.date))
    ensures var unseen := NewIds(changelogIds, LastSeen(old(settings.values)));
            !SkipWindow(now) ==>
              && |outcomes| == |unseen|
              && (forall k :: 0 <= k < |unseen| ==> outcomes[k] == ClassifyChangelog(fetch(unseen[k]), now.date))
              && (|unseen| == 0 ==> settings.values == old(settings.values))
              && (|unseen| > 0 ==> settings.values ==
                                    old(settings.values)[LAST_SEEN_KEY := NextCursor(unseen)])
  {
    if SkipWindow(now) {
      return None, [];
    }
    query := Some(ChangelogQuery(CLASS_ID, now.date));
    var cursor := LastSeen(settings.values);
    var unseen := NewIds(changelogIds, cursor);
    outcomes := [];
    if |unseen| > 0 {
      outcomes := FindDraggedAppointments(unseen, fetch, now.date);
      settings.Upsert(LAST_SEEN_KEY, NextCursor(unseen));
    }
  }

  /** Once written, the cursor reads back as the largest processed id,
      which is above the previous cursor and every other processed id: the
      cursor strictly increases and no id is processed twice. */
  lemma {:induction false} CursorAdvances(values: map<string, string>, changelogIds: seq<int>)
    requires |NewIds(changelogIds, LastSeen(values))| > 0
    ensures var unseen := NewIds(changelogIds, LastSeen(values));
            var next := LastSeen(values[LAST_SEEN_KEY := NextCursor(unseen)]);
            && next.Some? && next.value > LastSeen(values).value
            && next.value in changelogIds
            && (forall x :: x in unseen ==> x <= next.value)
            && NewIds(unseen, next) == []
  {
    var unseen := NewIds(changelogIds, LastSeen(values));
    var m := Max(unseen);
    ParseNatToString(m);
    var next := LastSeen(values[LAST_SEEN_KEY := NatToString(m)]);
    assert next == Some(m);
    var rest := NewIds(unseen, next);
    if |rest| > 0 {
      assert rest[0] in rest;
    }
  }
}
