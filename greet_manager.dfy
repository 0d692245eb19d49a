/** The reschedule handling (src/pest-routes/greet-manager.service.ts): an
    appointment moved off today loses its greet; one moved within today,
    once the greeting window is open, has its single open greet reassigned
    to the appointment's technician. The clock, the greet search result and
    the Bonjoro users are parameters. */
module GreetManager {
  import opened Wrappers
  import opened Strings
  import opened PestRoutesTypes
  import opened BonjoroTypes
  import opened BonjoroService

  const AUTOMATION_PREFIX := "automation+"

  /** The effects of the handler, in order. `Notify` carries the warning
      `findUserByEmail` sends. */
  datatype RescheduleEffect =
    | CancelAppointment(appointmentId: string)
    | SearchOpenGreets(search: string)
    | LogError(message: string)
    | Notify(warning: Call)
    | PutGreet(greetId: string, assigneeId: Option<string>)

  /** The search term: the automation e-mail without its first
      "automation+". */
  function SearchTerm(automationEmail: string): string
  {
    ReplaceFirst(automationEmail, AUTOMATION_PREFIX, "")
  }

  /** `appointmentRescheduled`. `automationEmail` is the customer's
      automation address, `greets` the open greets the search returns,
      `techEmail` the e-mail of the route's technician. */
  function AppointmentRescheduled(appointmentId: string, now: Now, appointment: Appointment, automationEmail: string,
                                  greets: seq<Greet>, techEmail: string, users: seq<User>,
                                  fallback: Option<string>): (effects: seq<RescheduleEffect>)
    ensures |effects| <= 3
    ensures CancelAppointment(appointmentId) in effects <==> now.date != appointment.date
    ensures forall k :: 0 <= k < |effects| && effects[k].PutGreet? ==>
              |greets| == 1 && effects[k].greetId == greets[0].id && k == |effects| - 1
  {
    if now.date != appointment.date then [CancelAppointment(appointmentId)]
    else if now.hour >= 2 && now.minute > 0 then
      [SearchOpenGreets(SearchTerm(automationEmail))] +
      if |greets| > 1 then
        [LogError("Found more than 1 greets for appointment '" + appointmentId + "' and email " + automationEmail)]
      else if |greets| == 0 then
        [LogError("Found 0 greets for appointment '" + appointmentId + "' and email " + automationEmail)]
      else
        var found := FindUserByEmail(techEmail, users, fallback);
        (if found.NotFound? then [Notify(WarningCall(techEmail))] else []) + [PutGreet(greets[0].id, found.Id())]
    else []
  }

  /** Removing the prefix from an automation address leaves the rest. */
  lemma SearchTermDropsPrefix(rest: string)
    ensures SearchTerm(AUTOMATION_PREFIX + rest) == rest
  {
    var s := AUTOMATION_PREFIX + rest;
    assert OccursAt(s, AUTOMATION_PREFIX, 0);
    assert FirstOccurrence(s, AUTOMATION_PREFIX, 0);
    assert s[|AUTOMATION_PREFIX|..] == rest;
  }

  /** An appointment no longer dated today only loses its greet. */
  lemma NotTodayCancelsOnly(appointmentId: string, now: Now, appointment: Appointment, automationEmail: string,
                            greets: seq<Greet>, techEmail: string, users: seq<User>, fallback: Option<string>)
    requires now.date != appointment.date
    ensures AppointmentRescheduled(appointmentId, now, appointment, automationEmail, greets, techEmail, users, fallback)
            == [CancelAppointment(appointmentId)]
  {
  }

  /** Today, before 2 AM or on the hour: nothing at all. */
  lemma OutsideWindowNothing(appointmentId: string, now: Now, appointment: Appointment, automationEmail: string,
                             greets: seq<Greet>, techEmail: string, users: seq<User>, fallback: Option<string>)
    requires now.date == appointment.date && (now.hour < 2 || now.minute == 0)
    ensures AppointmentRescheduled(appointmentId, now, appointment, automationEmail, greets, techEmail, users, fallback) == []
  {
  }

  /** In the window, the open greets are searched first. With zero or
      several greets found, one error is logged and nothing is reassigned
      or cancelled. */
  lemma NotOneGreetLogsError(appointmentId: string, now: Now, appointment: Appointment, automationEmail: string,
                             greets: seq<Greet>, techEmail: string, users: seq<User>, fallback: Option<string>)
    requires now.date == appointment.date && now.hour >= 2 && now.minute > 0
    requires |greets| != 1
    ensures var effects := AppointmentRescheduled(appointmentId, now, appointment, automationEmail, greets, techEmail,
                                                  users, fallback);
            && |effects| == 2
            && effects[0] == SearchOpenGreets(SearchTerm(automationEmail))
            && effects[1].LogError?
            && forall k :: 0 <= k < |effects| ==> !effects[k].PutGreet? && !effects[k].CancelAppointment?
  {
  }

  /** With exactly one greet, it is reassigned to the first Bonjoro user
      with the technician's e-mail, or else, after a warning, to the
      fallback; nothing is cancelled. */
  lemma {:induction false} OneGreetReassigned(appointmentId: string, now: Now, appointment: Appointment,
                                              automationEmail: string, greets: seq<Greet>, techEmail: string,
                                              users: seq<User>, fallback: Option<string>)
    requires now.date == appointment.date && now.hour >= 2 && now.minute > 0
    requires |greets| == 1
    ensures var effects := AppointmentRescheduled(appointmentId, now, appointment, automationEmail, greets, techEmail,
                                                  users, fallback);
            && effects[0] == SearchOpenGreets(SearchTerm(automationEmail))
            && effects[|effects| - 1].PutGreet?
            && effects[|effects| - 1].greetId == greets[0].id
            && (forall k :: 0 <= k < |effects| ==> !effects[k].CancelAppointment? && !effects[k].LogError?)
            && (|effects| == 3 <==> forall u :: u in users ==> u.email != techEmail)
            && (|effects| == 3 ==> effects[1] == Notify(WarningCall(techEmail)) &&
                                   effects[2].assigneeId == fallback)
            && (|effects| == 2 ==> exists i :: 0 <= i < |users| && users[i].email == techEmail &&
                                             effects[1].assigneeId == Some(users[i].id))
  {
    var found := FindUserByEmail(techEmail, users, fallback);
    var effects := AppointmentRescheduled(appointmentId, now, appointment, automationEmail, greets, techEmail,
                                          users, fallback);
    var put := PutGreet(greets[0].id, found.Id());
    var search := SearchOpenGreets(SearchTerm(automationEmail));
    if found.NotFound? {
      assert effects == [search, Notify(WarningCall(techEmail)), put];
    } else {
      assert effects == [search, put];
    }
  }
}
