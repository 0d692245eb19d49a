/** Records of the field-service system (PestRoutes) as the handlers read
    them, and the wall clock, which the model receives as a value. */
module PestRoutesTypes {
  import opened Wrappers

  /** The current time in the America/Denver zone: `yyyy-MM-dd`, hour, minute. */
  datatype Now = Now(date: string, hour: int, minute: int)

  datatype Customer = Customer(
    email: string,
    phone1: string,
    phone2: Option<string>,
    fname: string,
    lname: string,
    companyName: string,
    address: string,
    city: string,
    state: string,
    zip: string,
    billingFName: string)

  datatype Appointment = Appointment(
    customerID: string,
    date: string,
    employeeID: string,
    routeID: string,
    subscriptionID: string)

  /** One entry of a changelog's `notes` array once parsed; a missing or
      non-string member is `None`. */
  datatype ChangelogNote = ChangelogNote(key: Option<string>, newValue: Option<string>)

  /** A single changelog: the appointment it refers to, the hour of
      `dateChanged` (`None` when the timestamp does not parse, which Luxon
      reports as an invalid date whose hour is NaN), and the notes (`None`
      when `JSON.parse` throws). */
  datatype Changelog = Changelog(
    referenceID: string,
    changedHour: Option<int>,
    notes: Option<seq<ChangelogNote>>)

  /** The body posted to the reminders endpoint. Every variant shares one
      record here; `kind` is the `type` field and `channel` the `method`
      field. `formattedServiceDate` is the service date as the templates
      show it ("MMMM d"), `balanceText` the balance as currency text. */
  datatype ReminderBody = ReminderBody(
    kind: string,
    channel: string,
    customerId: string,
    customerNumber: string,
    formattedServiceDate: string,
    serviceDescription: string,
    balanceText: string,
    daysPastDue: string,
    loginLink: string)
}
