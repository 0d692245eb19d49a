/** The field-service webhooks (src/pest-routes/pest-routes.controller.ts):
    a greet for an appointment scheduled for today, the promotion of the
    customer's sold deal once an appointment is completed, and the dispatch
    of reminder bodies. The clock, every fetched record and every response
    are parameters. */
module PestRoutesController {
  import opened Wrappers
  import opened Decimal
  import opened PestRoutesTypes
  import opened BonjoroTypes
  import opened BonjoroService
  import opened CommercialSales
  import opened PestRoutesReminders

  // ---------------------------------------------------------------------
  // appointmentScheduled

  /** The greeting window: the appointment is today (Denver time), it is
      2 o'clock or later, and the minute is not `:00`. */
  predicate GreetWindow(now: Now, date: string)
  {
    now.date == date && now.hour >= 2 && now.minute > 0
  }

  /** The calls `appointmentScheduled` makes. `techEmail` is the e-mail of
      the route's technician, `users` the Bonjoro users, `fallback` the
      configured fallback user id, `automationEmail` the customer's
      automation address. */
  function ScheduledGreet(now: Now, appointment: Appointment, customer: Customer, techEmail: string,
                          users: seq<User>, fallback: Option<string>, campaignId: Option<string>,
                          automationEmail: string): (calls: seq<Call>)
    ensures calls != [] <==> GreetWindow(now, appointment.date)
  {
    if GreetWindow(now, appointment.date) then
      var found := FindUserByEmail(techEmail, users, fallback);
      var line := GreetLine(automationEmail, customer.fname, customer.lname, GreetReason(customer));
      (if found.NotFound? then [WarningCall(techEmail)] else [])
      + [CreateBulkGreets(BulkGreetRequest(found.Id(), campaignId, 0, [line]))]
    else []
  }

  /** Nothing happens on the hour, whatever the date. */
  lemma NothingOnTheHour(now: Now, appointment: Appointment, customer: Customer, techEmail: string,
                         users: seq<User>, fallback: Option<string>, campaignId: Option<string>,
                         automationEmail: string)
    requires now.minute == 0
    ensures ScheduledGreet(now, appointment, customer, techEmail, users, fallback, campaignId, automationEmail) == []
  {
  }

  /** Inside the window exactly one request is created, last, with one
      line for the customer's automation address and the service address
      as reason, assigned to the first user with the technician's e-mail or
      else to the fallback; a warning precedes it exactly when nobody
      matches. */
  lemma {:induction false} ScheduledGreetRequest(now: Now, appointment: Appointment, customer: Customer, techEmail: string,
                                                 users: seq<User>, fallback: Option<string>, campaignId: Option<string>,
                                                 automationEmail: string)
    requires GreetWindow(now, appointment.date)
    ensures var calls := ScheduledGreet(now, appointment, customer, techEmail, users, fallback, campaignId, automationEmail);
            && |Creations(calls)| == 1
            && Deletions(calls) == []
            && calls[|calls| - 1] == CreateBulkGreets(Creations(calls)[0])
            && Creations(calls)[0].lines == [GreetLine(automationEmail, customer.fname, customer.lname,
                                                       "Service at " + customer.address + ", " + customer.city + ", " +
                                                       customer.state + " " + customer.zip)]
            && Creations(calls)[0].campaignId == campaignId && Creations(calls)[0].sync == 0
            && (|calls| == 2 <==> forall u :: u in users ==> u.email != techEmail)
            && (|calls| == 2 ==> calls[0] == WarningCall(techEmail) && Creations(calls)[0].assigneeId == fallback)
            && (|calls| == 1 ==> exists i :: 0 <= i < |users| && users[i].email == techEmail &&
                                           Creations(calls)[0].assigneeId == Some(users[i].id))
  {
    var calls := ScheduledGreet(now, appointment, customer, techEmail, users, fallback, campaignId, automationEmail);
    var found := FindUserByEmail(techEmail, users, fallback);
    var req := BulkGreetRequest(found.Id(), campaignId, 0,
                                [GreetLine(automationEmail, customer.fname, customer.lname, GreetReason(customer))]);
    var last := [CreateBulkGreets(req)];
    assert Creations(last) == [req] && Deletions(last) == [] by {
      assert last[..0] == [];
    }
    if found.NotFound? {
      var warn := [WarningCall(techEmail)];
      assert calls == warn + last;
      assert Creations(warn) == [] && Deletions(warn) == [] by {
        assert warn[..0] == [];
      }
      FiltersAppend(warn, last);
    } else {
      assert calls == last;
    }
  }

  // ---------------------------------------------------------------------
  // appointmentCompleted

  /** A deal of the sales system, as `getZohoDeal` returns it. */
  datatype ZohoDeal = ZohoDeal(id: string, stage: string)

  const SOLD := "Sold"
  const SOLD_SERVICED := "Sold - Serviced"

  /** What `appointmentCompleted` does: one alert e-mail, or one stage
      update of a deal. */
  datatype CompletedEffect = SendAlert(subject: string, text: string) | UpdateDealStage(dealId: string, stage: string)

  /** Whether the deal linked to a row is in the "Sold" stage; `lookup`
      is `getZohoDeal`, which answers the same deal for the same id both
      times the handler asks. */
  predicate IsSold(s: Sale, lookup: Option<string> -> ZohoDeal)
  {
    lookup(s.zohoDealId).stage == SOLD
  }

  function CountSold(sales: seq<Sale>, lookup: Option<string> -> ZohoDeal): nat
  {
    if |sales| == 0 then 0
    else CountSold(sales[..|sales| - 1], lookup) + (if IsSold(sales[|sales| - 1], lookup) then 1 else 0)
  }

  /** The index of the first row whose deal is sold. */
  function FirstSold(sales: seq<Sale>, lookup: Option<string> -> ZohoDeal): (r: Option<nat>)
    ensures r.Some? ==> r.value < |sales| && IsSold(sales[r.value], lookup)
    ensures r.Some? ==> forall k :: 0 <= k < r.value ==> !IsSold(sales[k], lookup)
    ensures r.None? ==> forall k :: 0 <= k < |sales| ==> !IsSold(sales[k], lookup)
  {
    if |sales| == 0 then None
    else if IsSold(sales[0], lookup) then Some(0)
    else match FirstSold(sales[1..], lookup)
      case None => None
      case Some(j) => Some(j + 1)
  }

  /** The rows of the customer whose id `Number(customerID)` gives,
      newest first; an id that is not a number matches no row. */
  function CustomerSales(table: Table, customerID: string): seq<Sale>
    reads table
    requires table.Valid()
  {
    match JsNumber(customerID)
    case Some(n) => table.FindManyByCustomer(n)
    case None => []
  }

  function MultipleSoldAlert(customerID: string, appointmentId: string, nowIso: string): CompletedEffect
  {
    SendAlert("More than 1 deal in Sold Stage for PR Customer: " + customerID + " @ " + nowIso,
              "Could not change the stage to Sold-Serviced because multiple deals found for PR Customer: " +
              customerID + ".\nError ecountered during incoming webhook for PR appointment complete: " + appointmentId)
  }

  /** The effects of `appointmentCompleted` on the customer's rows `sales`. */
  function CompletedEffects(sales: seq<Sale>, lookup: Option<string> -> ZohoDeal, customerID: string,
                            appointmentId: string, nowIso: string): (effects: seq<CompletedEffect>)
    ensures |effects| <= 1
    ensures (|effects| == 1 && effects[0].SendAlert?) <==> CountSold(sales, lookup) > 1
  {
    if |sales| == 0 then []
    else if CountSold(sales, lookup) > 1 then [MultipleSoldAlert(customerID, appointmentId, nowIso)]
    else match FirstSold(sales, lookup)
      case None => []
      case Some(j) => [UpdateDealStage(lookup(sales[j].zohoDealId).id, SOLD_SERVICED)]
  }

  /** The first loop: count the rows whose deal is sold. */
  method CountSoldDeals(sales: seq<Sale>, lookup: Option<string> -> ZohoDeal) returns (countSold: nat)
    ensures countSold == CountSold(sales, lookup)
  {
    countSold := 0;
    var i := 0;
    while i < |sales|
      invariant 0 <= i <= |sales|
      invariant countSold == CountSold(sales[..i], lookup)
    {
      assert sales[..i + 1][..i] == sales[..i];
      var deal := lookup(sales[i].zohoDealId);
      if deal.stage == SOLD {
        countSold := countSold + 1;
      }
      i := i + 1;
    }
    assert sales[..i] == sales;
  }

  /** The second loop: promote the deal of the first sold row and stop. */
  method PromoteFirstSold(sales: seq<Sale>, lookup: Option<string> -> ZohoDeal) returns (effects: seq<CompletedEffect>)
    ensures FirstSold(sales, lookup).None? ==> effects == []
    ensures FirstSold(sales, lookup).Some? ==>
              effects == [UpdateDealStage(lookup(sales[FirstSold(sales, lookup).value].zohoDealId).id, SOLD_SERVICED)]
  {
    effects := [];
    var i := 0;
    while i < |sales|
      invariant 0 <= i <= |sales|
      invariant forall k :: 0 <= k < i ==> !IsSold(sales[k], lookup)
      invariant effects == []
    {
      var deal := lookup(sales[i].zohoDealId);
      if deal.stage == SOLD {
        effects := [UpdateDealStage(deal.id, SOLD_SERVICED)];
        break;
      }
      i := i + 1;
    }
  }

  /** The handler: count the sold deals, then alert or promote the first
      sold one. */
  method AppointmentCompleted(table: Table, appointmentId: string, customerID: string,
                              lookup: Option<string> -> ZohoDeal, nowIso: string)
    returns (effects: seq<CompletedEffect>)
    requires table.Valid()
    ensures effects == CompletedEffects(CustomerSales(table, customerID), lookup, customerID, appointmentId, nowIso)
  {
    var sales := CustomerSales(table, customerID);
    if |sales| == 0 {
      return [];
    }
    var countSold := CountSoldDeals(sales, lookup);
    if countSold > 1 {
      return [MultipleSoldAlert(customerID, appointmentId, nowIso)];
    }
    effects := PromoteFirstSold(sales, lookup);
  }

  /** No sold deal among the rows exactly when the count is zero. */
  lemma {:induction false} CountSoldZero(sales: seq<Sale>, lookup: Option<string> -> ZohoDeal)
    ensures CountSold(sales, lookup) == 0 <==> forall k :: 0 <= k < |sales| ==> !IsSold(sales[k], lookup)
  {
    if |sales| > 0 {
      var prefix := sales[..|sales| - 1];
      CountSoldZero(prefix, lookup);
      assert forall k :: 0 <= k < |prefix| ==> prefix[k] == sales[k];
    }
  }

  /** A customer without rows: no update and no alert. */
  lemma NoRowsNoAction(lookup: Option<string> -> ZohoDeal, customerID: string, appointmentId: string, nowIso: string)
    ensures CompletedEffects([], lookup, customerID, appointmentId, nowIso) == []
  {
  }

  /** More than one sold deal: exactly one alert, no deal updated. */
  lemma ManySoldAlertOnly(sales: seq<Sale>, lookup: Option<string> -> ZohoDeal, customerID: string,
                          appointmentId: string, nowIso: string)
    requires CountSold(sales, lookup) > 1
    ensures var effects := CompletedEffects(sales, lookup, customerID, appointmentId, nowIso);
            |effects| == 1 && effects[0].SendAlert?
  {
  }

  /** No sold deal: nothing happens. */
  lemma {:induction false} NoSoldNoAction(sales: seq<Sale>, lookup: Option<string> -> ZohoDeal, customerID: string,
                                          appointmentId: string, nowIso: string)
    requires CountSold(sales, lookup) == 0
    ensures CompletedEffects(sales, lookup, customerID, appointmentId, nowIso) == []
  {
    CountSoldZero(sales, lookup);
  }

  /** Otherwise at most one deal moves to "Sold - Serviced", and when it
      does it is the deal of the first (newest) row whose deal is sold,
      which is then the only sold one. */
  lemma {:induction false} OneSoldPromoted(sales: seq<Sale>, lookup: Option<string> -> ZohoDeal, customerID: string,
                                           appointmentId: string, nowIso: string)
    ensures var effects := CompletedEffects(sales, lookup, customerID, appointmentId, nowIso);
            && |effects| <= 1
            && (CountSold(sales, lookup) == 1 ==>
                  exists j :: 0 <= j < |sales| && IsSold(sales[j], lookup) &&
                              (forall k :: 0 <= k < j ==> !IsSold(sales[k], lookup)) &&
                              effects == [UpdateDealStage(lookup(sales[j].zohoDealId).id, SOLD_SERVICED)])
  {
    if CountSold(sales, lookup) == 1 {
      CountSoldZero(sales, lookup);
      var j := FirstSold(sales, lookup).value;
      assert IsSold(sales[j], lookup);
    }
  }

  // ---------------------------------------------------------------------
  // billingReminder: dispatch on the body's type

  /** The reminder the body's type selects; `None` for any other type. */
  function DispatchReminder(body: ReminderBody, c: Customer, attachmentUrls: seq<string>): (r: Option<ReminderResult>)
    ensures r.Some? <==> body.kind == "appointment" || body.kind == "billing" || body.kind == "bed_bug"
    ensures body.kind == "appointment" ==> r == Some(AppointmentReminder(body, c))
    ensures body.kind == "billing" ==> r == Some(BillingReminder(body, c))
    ensures body.kind == "bed_bug" ==> r == Some(BedBugReminder(body, c, attachmentUrls))
  {
    if body.kind == "appointment" then Some(AppointmentReminder(body, c))
    else if body.kind == "billing" then Some(BillingReminder(body, c))
    else if body.kind == "bed_bug" then Some(BedBugReminder(body, c, attachmentUrls))
    else None
  }
}
