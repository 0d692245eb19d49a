/** Customer reminders (src/pest-routes/pest-routes-reminders.service.ts):
    each kind of reminder picks a message template, a channel and a
    recipient from the customer record. Template rendering is not part of
    this model: a sent message carries the template id and the variables
    handed to the template. */
module PestRoutesReminders {
  import opened Wrappers
  import opened PestRoutesTypes

  const EMAIL_CHANNEL := "cha_9rc0i"
  const SMS_CHANNEL := "cha_ap76a"

  const APPOINTMENT_EMAIL_TEMPLATE := "rsp_mwfyq"
  const APPOINTMENT_SMS_TEMPLATE := "rsp_ot0k2"
  const BILLING_EMAIL_TEMPLATE := "rsp_ot0lu"
  const BILLING_SMS_TEMPLATE := "rsp_ot0nm"
  const BED_BUG_TEMPLATE := "rsp_os5oy"
  const BED_BUG_ATTACHMENT_NAME := "Bed Bug Protocol.pdf"

  /** A message sent through the messaging platform. */
  datatype Message =
    | EmailMessage(to: string, template: string, channelId: string, vars: map<string, string>,
                   attachment: Option<(string, string)>)
    | SmsMessage(to: string, template: string, channelId: string, vars: map<string, string>)

  /** What a reminder does: send one message, log that the method is not
      recognised, or throw a `TypeError`. */
  datatype ReminderResult = Sent(message: Message) | MethodNotRecognized(name: string) | TypeError

  /** "<address> <city>, <state> <zip>" */
  function ServiceAddress(c: Customer): string
  {
    c.address + " " + c.city + ", " + c.state + " " + c.zip
  }

  /** The appointment reminder: "email" or "sms" by `RoutedAs`, with the
      service address among the template's variables. */
  function AppointmentReminder(body: ReminderBody, c: Customer): (r: ReminderResult)
    ensures RoutedAs(r, body.channel, c, APPOINTMENT_EMAIL_TEMPLATE, APPOINTMENT_SMS_TEMPLATE)
    ensures r.Sent? ==> "serviceAddress" in r.message.vars && r.message.vars["serviceAddress"] == ServiceAddress(c)
  {
    if body.channel == "email" then
      Sent(EmailMessage(c.email, APPOINTMENT_EMAIL_TEMPLATE, EMAIL_CHANNEL,
                        map["accountNumber" := body.customerNumber, "serviceDate" := body.formattedServiceDate,
                            "ServiceType" := body.serviceDescription, "serviceAddress" := ServiceAddress(c)],
                        None))
    else if body.channel == "sms" then
      Sent(SmsMessage(c.phone1, APPOINTMENT_SMS_TEMPLATE, SMS_CHANNEL,
                      map["firstName" := c.fname, "serviceDate" := body.formattedServiceDate,
                          "ServiceType" := body.serviceDescription, "serviceAddress" := ServiceAddress(c)]))
    else MethodNotRecognized(body.channel)
  }

  /** The billing reminder: "email" or "sms" by `RoutedAs`, passing on the
      login link. */
  function BillingReminder(body: ReminderBody, c: Customer): (r: ReminderResult)
    ensures RoutedAs(r, body.channel, c, BILLING_EMAIL_TEMPLATE, BILLING_SMS_TEMPLATE)
    ensures r.Sent? ==> "loginLink" in r.message.vars && r.message.vars["loginLink"] == body.loginLink
  {
    if body.channel == "email" then
      Sent(EmailMessage(c.email, BILLING_EMAIL_TEMPLATE, EMAIL_CHANNEL,
                        map["BillingFName" := c.billingFName, "responsibleBalance" := body.balanceText,
                            "address" := ServiceAddress(c), "daysPastDue" := body.daysPastDue,
                            "loginLink" := body.loginLink],
                        None))
    else if body.channel == "sms" then
      Sent(SmsMessage(c.phone1, BILLING_SMS_TEMPLATE, SMS_CHANNEL,
                      map["BillingFName" := c.billingFName, "responsibleBalance" := body.balanceText,
                          "daysPastDue" := body.daysPastDue, "loginLink" := body.loginLink]))
    else MethodNotRecognized(body.channel)
  }

  /** The bed-bug reminder ignores the method. `attachmentUrls` are the
      URLs of the template's attachments; reading the first of none
      throws. */
  function BedBugReminder(body: ReminderBody, c: Customer, attachmentUrls: seq<string>): (r: ReminderResult)
    ensures r == TypeError <==> |attachmentUrls| == 0
    ensures r.Sent? ==> && r.message.EmailMessage? && r.message.to == c.email
                        && r.message.template == BED_BUG_TEMPLATE && r.message.channelId == EMAIL_CHANNEL
                        && r.message.attachment == Some((attachmentUrls[0], BED_BUG_ATTACHMENT_NAME))
  {
    if |attachmentUrls| == 0 then TypeError
    else
      Sent(EmailMessage(c.email, BED_BUG_TEMPLATE, EMAIL_CHANNEL, map["recipient.first_name" := c.fname],
                        Some((attachmentUrls[0], BED_BUG_ATTACHMENT_NAME))))
  }

  /** Email or SMS reminders: "email" goes to the customer's e-mail on the
      e-mail channel, "sms" to `phone1` on the SMS channel, anything else
      sends nothing; the template depends on the kind of reminder. */
  predicate RoutedAs(r: ReminderResult, how: string, c: Customer, emailTemplate: string, smsTemplate: string)
  {
    && (how == "email" ==> r.Sent? && r.message.EmailMessage? && r.message.to == c.email &&
                              r.message.template == emailTemplate && r.message.channelId == EMAIL_CHANNEL &&
                              r.message.attachment.None?)
    && (how == "sms" ==> r.Sent? && r.message.SmsMessage? && r.message.to == c.phone1 &&
                            r.message.template == smsTemplate && r.message.channelId == SMS_CHANNEL)
    && (how != "email" && how != "sms" ==> r == MethodNotRecognized(how))
  }

  /** Whatever the method, a bed-bug reminder with an attachment is one
      e-mail to the customer carrying the protocol document. */
  lemma BedBugIgnoresMethod(body: ReminderBody, c: Customer, attachmentUrls: seq<string>, other: string)
    requires |attachmentUrls| > 0
    ensures var r := BedBugReminder(body, c, attachmentUrls);
            && r == BedBugReminder(body.(channel := other), c, attachmentUrls)
            && r.Sent? && r.message.EmailMessage? && r.message.to == c.email
            && r.message.template == BED_BUG_TEMPLATE && r.message.channelId == EMAIL_CHANNEL
            && r.message.attachment == Some((attachmentUrls[0], BED_BUG_ATTACHMENT_NAME))
  {
  }
}
