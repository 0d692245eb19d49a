# Atlas Pest utilities: a Dafny model of the webhook and cron logic

The service connects a CRM (Pipedrive), a design tool (ArcSite), an
e-signature and sales system (Zoho), a field-service system (PestRoutes), a
video-greeting service (Bonjoro) and a messaging platform (Front). This
project models its decision logic:

- **Sales correlation.** A scheduled CRM appointment creates a design project
  and records a `commercialSales` row. A signed proposal sends the signature
  request, moves the deal to "Proposal Sent" and writes the proposal's
  details back to the deal. A completed field-service appointment promotes
  the customer's single "Sold" deal to "Sold - Serviced", or raises an alert
  when several deals are sold.
- **Greets.** The nightly job deletes the campaign's open greets, then
  creates one bulk request per technician. Each of today's appointments adds
  one line, with a cache of Bonjoro user ids. Listings follow
  `next_page_url`.
- **Changelog cursor.** Every quarter hour the job processes changelog ids
  above a persisted cursor, reschedules appointments that were dragged to
  today, and advances the cursor.
- **Reschedules, the scheduled-appointment greet, the completed-greet SMS and
  customer reminders.** These are branches on the clock, on counts and on
  strings.
- **The three request guards and the global exception filter.**

Every response of an outside system, and the clock, is a parameter. Calls to
outside systems are returned, in order, as sequences of effect values. The
`commercialSales` table (`CommercialSales.Table`) and the settings table
(`ChangelogSearch.GlobalSettings`) are classes whose methods update their
fields. Loops of the source are methods with loop invariants, each proved
against a specification function. The properties of the source are lemmas
about those functions.

Files:

- `wrappers.dfy`: `Option` and `Result`.
- `strings.dfy`: the JavaScript string operations the code relies on, and
  decimal numerals.
- `*_types.dfy`: records of the outside systems.
- One module per source file:
  - `pipedrive_controller.dfy` with `commercial_sales.dfy`;
  - `bonjoro_service.dfy`;
  - `pest_routes_controller.dfy`;
  - `reminders.dfy`;
  - `log_search.dfy`;
  - `greet_manager.dfy`;
  - `bonjoro_controller.dfy`;
  - `auth.dfy`;
  - `exception_filter.dfy`.

## Model

| member | source | states |
|---|---|---|
| PipedriveController.BuildPayload | src/pipedrive/pipedrive.controller.ts:72-97 | The company is "[Pipedrive Test] " plus the organisation name, rendered as a template literal. E-mails and phones are list entries 0 and 1, absent when the list is shorter. The work site comes from the deal's address fields. The sales rep's first and last names are split tokens 0 and 1 of the owner's name. |
| PipedriveController.OwnerNameTokens | src/pipedrive/pipedrive.controller.ts:93-94 | An owner named "first last" gives exactly those first and last names. |
| PipedriveController.OwnerSingleName | src/pipedrive/pipedrive.controller.ts:93-94 | A one-word owner name is the first name, and the last name is undefined. |
| PipedriveController.Classify | src/pipedrive/pipedrive.controller.ts:115-144 | A rethrown failure is the original failure, unchanged. A `message` array is searched for an element equal to the phrase, as `Array.prototype.includes` does. |
| PipedriveController.ClassifyNotifiesOnlyDuplicates | src/pipedrive/pipedrive.controller.ts:115-140 | A failure is swallowed with a notification if and only if it is an HTTP 400 whose object body has a `message` that is either a string containing "project name already exists" or an array holding that phrase as an element. It throws a `TypeError` if and only if such a 400 has a primitive body or a `message` of any other kind. |
| PipedriveController.ClassifyRethrowsOthers | src/pipedrive/pipedrive.controller.ts:137-144 | Non-HTTP failures, failures without a response and HTTP statuses other than 400 are rethrown unchanged. |
| PipedriveController.Catch | src/pipedrive/pipedrive.controller.ts:113-145 | The handler completes exactly when the failure is a duplicate-name error. The duplicate notification is sent exactly in that case, and nothing is sent otherwise. A rethrown failure ends the handler with that same failure, and a `TypeError` in the check ends it with a `TypeError`. |
| PipedriveController.SignedEffects | src/pipedrive/pipedrive.controller.ts:199-240 | It throws a `TypeError` if and only if a document field, a contact e-mail, a contact phone or a document page list is empty, and then nothing is sent. Otherwise the fourth call moves the stage to "Proposal Sent". The handler completes exactly when the extractor returns details, and ends with `ExtractorFailed` exactly when it does not. |
| PipedriveController.NewSale | src/pipedrive/pipedrive.controller.ts:103-108 | The new row carries the new project id, and a deal id that reads back as the deal's number. |
| PipedriveController.AppointmentScheduled | src/pipedrive/pipedrive.controller.ts:64-146 | The project creation comes first. If it fails, the table is unchanged and the catch block decides the outcome. A duplicate project id leaves the table unchanged and rethrows. Otherwise exactly one row is added, keyed by the new project id, then the project update is sent, and its failure goes through the same catch block. |
| PipedriveController.DealFields | src/pipedrive/pipedrive.controller.ts:227-240 | All ten custom fields are written, each from its proposal detail. The multi-unit flag becomes "Yes" or "No", and the proposal date is today. |
| PipedriveController.StageBeforeFields | src/pipedrive/pipedrive.controller.ts:217-240 | Every field update is preceded by the stage update to "Proposal Sent". |
| PipedriveController.ExtractorOutcome | src/pipedrive/pipedrive.controller.ts:213-240 | The stage update always happens. An extractor failure ends the handler with no field written. A successful extraction ends with the field update. |
| PipedriveController.SignatureFields | src/pipedrive/pipedrive.controller.ts:180-207 | The signature is placed on page `total_pages - 1` of the first document, for the contact's first e-mail and phone. The sales rep's e-mail on the field and on the signature request is the lower-cased address, of the same length and with no upper-case ASCII letter left. |
| PipedriveController.ProposalSigned | src/pipedrive/pipedrive.controller.ts:148-241 | With no row for the project, or a row without a deal id, nothing changes and nothing is sent. Otherwise only that row's `zohoSignRequestId` changes, and the signature, stage and field calls follow in order. |
| CommercialSales.Table.FindByProject | src/pipedrive/pipedrive.controller.ts:159-163 | It finds a row exactly when the project id is a key, and then it is that project's row. |
| CommercialSales.Table.FindManyByCustomer | src/pest-routes/pest-routes.controller.ts:87-94 | It returns exactly the stored rows with that customer id. |
| CommercialSales.NewestFirst | src/pest-routes/pest-routes.controller.ts:91-93 | The result holds every matching row of the creation order, only matching rows, and only rows of the table. |
| CommercialSales.NewestFirstHead | src/pest-routes/pest-routes.controller.ts:91-93 | A matching row created last comes first: the order is newest first. |
| CommercialSales.NewestFirstReversesOldest | src/pest-routes/pest-routes.controller.ts:91-93 | The result is the matching rows of the creation order, scanned from the oldest, then reversed: newest first. |
| CommercialSales.Table.Create | src/pipedrive/pipedrive.controller.ts:103-108 | An existing project id fails with a unique-constraint error and changes nothing. Otherwise exactly that row is added, last in creation order. |
| CommercialSales.Table.SetSignRequestId | src/pipedrive/pipedrive.controller.ts:190-198 | The row matching both project id and deal id gets the request id and nothing else changes. With no such row it fails with record-not-found and the table is unchanged. |
| BonjoroService.LastLinked | src/bonjoro/bonjoro.service.ts:60-66 | It is the index of the first page without a next-page URL. |
| BonjoroService.LastLinkedIsFirstUnlinked | src/bonjoro/bonjoro.service.ts:60-66 | Any index whose earlier pages all link on, and whose own page does not, is `LastLinked`. |
| BonjoroService.PagesFetched | src/bonjoro/bonjoro.service.ts:60-66 | Only the first page is fetched when it is empty. Otherwise pages are fetched up to the first one without a next page, every earlier one linking on. |
| BonjoroService.FetchArguments | src/bonjoro/bonjoro.service.ts:57-62 | The first fetch has no argument, and each later one gets the previous page's next-page URL. |
| BonjoroService.GetAll | src/bonjoro/bonjoro.service.ts:56-70 | The items are the fetched pages' data concatenated in fetch order. The fetch arguments are those of `FetchArguments`. |
| BonjoroService.PagePath | src/bonjoro/bonjoro.service.ts:72-78 | Without a next page the path is the first path. A next-page URL without the base URL is used as it is. |
| BonjoroService.PagePathStripsBase | src/bonjoro/bonjoro.service.ts:167-173 | A next-page URL starting with the base URL becomes the rest of the URL. |
| BonjoroService.ListingCalls | src/bonjoro/bonjoro.service.ts:79-81 | There is one GET per fetch, to the path derived from that fetch's argument. |
| BonjoroService.CampaignGreetIds | src/bonjoro/bonjoro.service.ts:44-50 | There are no more ids than greets, and none when the campaign id is unset. |
| BonjoroService.CampaignGreetIdsMembers | src/bonjoro/bonjoro.service.ts:44-50 | The ids are exactly those of listed greets whose campaign uuid equals the configured id. |
| BonjoroService.CampaignGreetIdsAppend | src/bonjoro/bonjoro.service.ts:44-50 | Filtering distributes over concatenation, so listing order is kept. |
| BonjoroService.DeleteOpenGreets | src/bonjoro/bonjoro.service.ts:39-54 | The greet listing comes first, then exactly one deletion with the campaign's greet ids. Nothing is created. |
| BonjoroService.FindUserByEmail | src/bonjoro/bonjoro.service.ts:151-165 | The fallback is used exactly when no user has the e-mail. A found id belongs to a user with exactly that e-mail. |
| BonjoroService.FindUserByEmailFirstMatch | src/bonjoro/bonjoro.service.ts:152 | The first user with the e-mail wins, whatever follows. |
| BonjoroService.Assignees | src/bonjoro/bonjoro.service.ts:120-133 | The dictionary's keys are distinct. |
| BonjoroService.RequestsFor | src/bonjoro/bonjoro.service.ts:145-148 | There is one request per key, in key order, assigned to that key. |
| BonjoroService.StepIdIsAssignee | src/bonjoro/bonjoro.service.ts:114-118 | A cache holding only `findUserByEmail` answers files every visit under its assignee. |
| BonjoroService.GroupedCache | src/bonjoro/bonjoro.service.ts:114-118 | After the loop, the cache's keys are exactly the technicians' e-mails, each mapped to the `findUserByEmail` answer. |
| BonjoroService.GroupedDomain | src/bonjoro/bonjoro.service.ts:120-141 | Requests are opened for exactly the assignees seen. |
| BonjoroService.Grouped | src/bonjoro/bonjoro.service.ts:97-142 | The loop opens at most one request per appointment. |
| BonjoroService.GroupedKeys | src/bonjoro/bonjoro.service.ts:120-141 | The insertion order is the assignees in order of first appearance. |
| BonjoroService.GroupedLines | src/bonjoro/bonjoro.service.ts:120-141 | Each request holds its assignee's lines, in appointment order, with the campaign id and sync 0. |
| BonjoroService.GroupedGreets | src/bonjoro/bonjoro.service.ts:97-142 | The dictionary's keys, domain and values after the loop, combined. |
| BonjoroService.GroupedWarnings | src/bonjoro/bonjoro.service.ts:114-118 | The warnings are exactly those of the lookups the cache does not spare. |
| BonjoroService.GroupByAssignee | src/bonjoro/bonjoro.service.ts:97-142 | The loop builds the dictionary, its insertion order and the warnings of the specification. |
| BonjoroService.WarningStep | src/bonjoro/bonjoro.service.ts:154-161 | One more lookup adds a warning exactly when nobody matches. |
| BonjoroService.SendRequests | src/bonjoro/bonjoro.service.ts:145-148 | There is one bulk create per key, in insertion order. |
| BonjoroService.ValuesAreRequests | src/bonjoro/bonjoro.service.ts:145-148 | Read in key order, the dictionary holds the specified requests. |
| BonjoroService.CreateGreets | src/bonjoro/bonjoro.service.ts:86-149 | The calls are the user listing, then the lookup warnings, then the specified requests. |
| BonjoroService.WarningCallsAreWarnings | src/bonjoro/bonjoro.service.ts:157-160 | Lookups send only warning e-mails. |
| BonjoroService.NoLinesBeforeFirstVisit | src/bonjoro/bonjoro.service.ts:120-133 | A key not yet seen has no lines. |
| BonjoroService.TotalLinesOfRequests | src/bonjoro/bonjoro.service.ts:145-148 | The requests carry as many lines as their keys receive. |
| BonjoroService.LineCountStep | src/bonjoro/bonjoro.service.ts:120-141 | One more appointment adds exactly one line, to its assignee. |
| BonjoroService.RequestsCoverVisits | src/bonjoro/bonjoro.service.ts:97-148 | The total line count equals the number of appointments. |
| BonjoroService.RequestsShape | src/bonjoro/bonjoro.service.ts:97-148 | There is at most one bulk request per appointment, and no two requests share an assignee. Every request carries the configured campaign id. |
| BonjoroService.AssigneeLinesCoverVisits | src/bonjoro/bonjoro.service.ts:120-141 | Over all assignees, the lines add up to the number of appointments. |
| BonjoroService.LookupsAreTechnicians | src/bonjoro/bonjoro.service.ts:114-116 | Only technicians' e-mails are looked up. |
| BonjoroService.TruthyIdLookedUpOnce | src/bonjoro/bonjoro.service.ts:114-118 | An e-mail that resolves to a non-empty id is looked up at most once. |
| BonjoroService.FiltersAppend | src/bonjoro/bonjoro.service.ts:34-37 | Taking the creations, or the deletions, of a call sequence distributes over concatenation. |
| BonjoroService.NoDeletionAnywhere | src/bonjoro/bonjoro.service.ts:86-149 | A call sequence with no deletions holds no delete call. |
| BonjoroService.NightlyJob | src/bonjoro/bonjoro.service.ts:34-37 | Exactly one deletion happens, with the campaign's greet ids. The creations are exactly the specified requests. Every deletion precedes every creation. |
| PestRoutesController.ScheduledGreet | src/pest-routes/pest-routes.controller.ts:27-71 | Something happens exactly when the date is today, the hour is at least 2 and the minute is not 0. |
| PestRoutesController.NothingOnTheHour | src/pest-routes/pest-routes.controller.ts:38 | Nothing happens at any HH:00. |
| PestRoutesController.ScheduledGreetRequest | src/pest-routes/pest-routes.controller.ts:49-69 | Inside the window there is exactly one bulk create, last, with one line ("Service at <address>, <city>, <state> <zip>"). It is assigned to the first matching user, or after a warning to the fallback. |
| PestRoutesController.FirstSold | src/pest-routes/pest-routes.controller.ts:123-134 | It gives the index of the first row whose deal is "Sold", or none if there is no such row. |
| PestRoutesController.CountSoldDeals | src/pest-routes/pest-routes.controller.ts:99-108 | The counting loop returns the number of rows whose deal is "Sold". |
| PestRoutesController.PromoteFirstSold | src/pest-routes/pest-routes.controller.ts:123-134 | The second loop updates the deal of the first sold row to "Sold - Serviced" and stops. With no sold row it does nothing. |
| PestRoutesController.AppointmentCompleted | src/pest-routes/pest-routes.controller.ts:84-136 | The handler's effects are those of the specification on the customer's rows, newest first. |
| PestRoutesController.CountSoldZero | src/pest-routes/pest-routes.controller.ts:99-108 | The count is zero exactly when no row's deal is "Sold". |
| PestRoutesController.NoRowsNoAction | src/pest-routes/pest-routes.controller.ts:96-97 | A customer without rows causes no update and no alert. |
| PestRoutesController.ManySoldAlertOnly | src/pest-routes/pest-routes.controller.ts:110-121 | More than one sold deal means exactly one alert and no update. |
| PestRoutesController.CompletedEffects | src/pest-routes/pest-routes.controller.ts:96-135 | At most one call is made. The call is the multiple-sold alert if and only if more than one linked deal is sold. |
| PestRoutesController.NoSoldNoAction | src/pest-routes/pest-routes.controller.ts:99-134 | Zero sold deals means no update and no alert. |
| PestRoutesController.OneSoldPromoted | src/pest-routes/pest-routes.controller.ts:87-94 | At most one deal is updated. With one sold deal, that deal is the first sold row in newest-first order, moved to "Sold - Serviced". |
| PestRoutesController.DispatchReminder | src/pest-routes/pest-routes.controller.ts:143-155 | Types "appointment", "billing" and "bed_bug" go to their sender, and any other type does nothing. |
| PestRoutesReminders.AppointmentReminder | src/pest-routes/pest-routes-reminders.service.ts:18-70 | "email" goes to the customer's e-mail with rsp_mwfyq on cha_9rc0i. "sms" goes to phone1 with rsp_ot0k2 on cha_ap76a. Any other method logs and sends nothing. The service address is "<address> <city>, <state> <zip>". |
| PestRoutesReminders.BillingReminder | src/pest-routes/pest-routes-reminders.service.ts:72-116 | "email" uses rsp_ot0lu on cha_9rc0i and "sms" uses rsp_ot0nm on cha_ap76a. Any other method logs and sends nothing. The login link is passed on. |
| PestRoutesReminders.BedBugReminder | src/pest-routes/pest-routes-reminders.service.ts:118-144 | It throws if and only if the template has no attachment. Otherwise it sends one e-mail to the customer with rsp_os5oy on cha_9rc0i, attaching the first attachment as "Bed Bug Protocol.pdf". |
| PestRoutesReminders.BedBugIgnoresMethod | src/pest-routes/pest-routes-reminders.service.ts:118-144 | Whatever the method, it sends one e-mail to the customer with rsp_os5oy on cha_9rc0i, attaching the first attachment as "Bed Bug Protocol.pdf". |
| ChangelogSearch.GlobalSettings.Upsert | src/pest-routes/log-search.service.ts:48-59 | The key gets the value, created or overwritten, and nothing else changes. |
| ChangelogSearch.LastSeen | src/pest-routes/log-search.service.ts:70-78 | A missing cursor reads 0, a digit string reads its value, and anything else non-empty reads NaN. |
| ChangelogSearch.NewIds | src/pest-routes/log-search.service.ts:40-42 | The result is exactly the ids strictly above the cursor. There are none under a NaN cursor. |
| ChangelogSearch.Max | src/pest-routes/log-search.service.ts:46 | It returns a member of the list that no member exceeds. |
| ChangelogSearch.TimeNote | src/pest-routes/log-search.service.ts:102 | A found note is in the list and is keyed "Time". None is found only when no note has that key. |
| ChangelogSearch.TimeNoteIsFirst | src/pest-routes/log-search.service.ts:102 | The note found is the first one keyed "Time", as `find` returns it: the note at index i is returned whenever every earlier note has another key. |
| ChangelogSearch.RescheduledIff | src/pest-routes/log-search.service.ts:98-111 | A reschedule happens if and only if all of these hold: the entry was read, the hour is in [2,17) or unreadable, some note says "Dragged Appointment", and the date token of the "Time" note's new value is today. |
| ChangelogSearch.ClassifyChangelog | src/pest-routes/log-search.service.ts:83-116 | A failed fetch or unparsable notes are captured. A change is skipped as outside hours only when its hour is known and outside [2, 17). It counts as not dragged only when no note has the new value "Dragged Appointment". |
| ChangelogSearch.DateToken | src/pest-routes/log-search.service.ts:103 | The token before the first space of "date time" is the date. |
| ChangelogSearch.FindDraggedAppointments | src/pest-routes/log-search.service.ts:80-117 | Each id is classified on its own, in order, so a captured error does not stop the rest. |
| ChangelogSearch.SearchChangelog | src/pest-routes/log-search.service.ts:27-61 | Between 2:00 and 2:14 nothing happens. Otherwise exactly the new ids are processed, in order. The cursor is written only when there are new ids, and then it is set to their maximum. |
| ChangelogSearch.CursorAdvances | src/pest-routes/log-search.service.ts:44-60 | The written cursor reads back as the maximum new id, strictly above the old cursor. No processed id passes it again. |
| Decimal.ParseNatToString | src/pest-routes/log-search.service.ts:46 | `Number(String(n))` is `n`. |
| Decimal.JsNumber | src/pest-routes/log-search.service.ts:77 | `Number(s)` is a number if and only if `s` is all digits; the empty string counts as all digits. That number is the decimal value of the digits, so the empty string gives 0. |
| Decimal.NatToStringInjective | src/pest-routes/log-search.service.ts:46 | Distinct ids are written as distinct strings. |
| GreetManager.SearchTermDropsPrefix | src/pest-routes/greet-manager.service.ts:28-30 | The search term is the automation e-mail without its leading "automation+". |
| GreetManager.NotTodayCancelsOnly | src/pest-routes/greet-manager.service.ts:21-23 | An appointment not dated today only has its greet cancelled. |
| GreetManager.OutsideWindowNothing | src/pest-routes/greet-manager.service.ts:24 | Today, before 2 AM or on the hour, nothing happens. |
| GreetManager.NotOneGreetLogsError | src/pest-routes/greet-manager.service.ts:33-49 | Zero or several open greets mean one search, then one error, with no reassignment and no cancellation. |
| GreetManager.OneGreetReassigned | src/pest-routes/greet-manager.service.ts:51-65 | A single greet is reassigned to the first user with the technician's e-mail, or after a warning to the fallback. |
| GreetManager.AppointmentRescheduled | src/pest-routes/greet-manager.service.ts:15-67 | There are at most three calls. The greet is cancelled if and only if the appointment is no longer dated today. A greet is reassigned only when exactly one was found, and the reassignment is that greet's and comes last. |
| BonjoroController.ParseCustomerId | src/bonjoro/bonjoro.controller.ts:16-23 | An extracted id is non-empty, has no whitespace and no '@', and the address is "automation+" + id + "@atlaspest.com". |
| BonjoroController.ParseCustomerIdComplete | src/bonjoro/bonjoro.controller.ts:16-23 | Every automation address of a valid id yields that id. |
| BonjoroController.ParseCustomerIdIff | src/bonjoro/bonjoro.controller.ts:16-23 | An id is extracted if and only if the address matches the pattern, and it is the captured group. |
| BonjoroController.VideoUrlSwapsHost | src/bonjoro/bonjoro.controller.ts:18-21 | Only the leading Bonjoro host is replaced by the company's video host. The rest is kept, even where it repeats the host. |
| BonjoroController.VideoUrl | src/bonjoro/bonjoro.controller.ts:18-21 | A link not mentioning the Bonjoro host is kept as it is. A link starting with the host has that prefix swapped for the company's video host. |
| BonjoroController.ExpandedTemplateIsPlain | src/bonjoro/bonjoro.controller.ts:31-33 | After the first two rewrites, no tag and no `&nbsp;` remain. |
| BonjoroController.PlainTemplateExpands | src/bonjoro/bonjoro.controller.ts:31-33 | Text without '<' and '&' passes the first two rewrites unchanged. |
| BonjoroController.SmsBody | src/bonjoro/bonjoro.controller.ts:31-35 | A template without markup, without `&` and without either placeholder is sent as it is. |
| BonjoroController.OnlyFirstLinkFilled | src/bonjoro/bonjoro.controller.ts:31-35 | Only the first `{{link}}` is filled in, and a later one stays. |
| BonjoroController.OnlyFirstNameFilled | src/bonjoro/bonjoro.controller.ts:31-34 | In plain text the first `{{customer.first_name}}` becomes the first name, and the text around it is kept. A later first-name placeholder stays. |
| BonjoroController.HtmlTemplateStripped | src/bonjoro/bonjoro.controller.ts:32 | The tags of a two-paragraph HTML template are removed and the text between them is kept. |
| BonjoroController.HtmlTemplateExpanded | src/bonjoro/bonjoro.controller.ts:33 | The `&nbsp;` between the two paragraphs becomes a blank line. |
| BonjoroController.HtmlTemplateFilled | src/bonjoro/bonjoro.controller.ts:31-35 | A two-paragraph HTML template, a greeting line with the first-name placeholder and a line with the link, becomes the greeting with the first name, a blank line, and the video link. |
| BonjoroController.GreetCompletedSends | src/bonjoro/bonjoro.controller.ts:14-43 | Calls are made exactly for a matching address. Then the customer with that id is looked up, template rsp_mtjrm is fetched, and the rewritten template goes to the customer's phone1 on cha_ap76a. Any other address makes no lookup, no fetch and no send. |
| BonjoroController.GreetCompleted | src/bonjoro/bonjoro.controller.ts:14-43 | Calls are made if and only if a customer id is extracted from the address. They are the customer lookup for that id, the fetch of template rsp_mtjrm, and an SMS to that customer's phone1 on cha_ap76a, in that order. |
| Guards.Credentials | src/auth/basic-auth.guard.ts:25 | Neither the user name nor the password holds a ':'. |
| Guards.CredentialsWithoutColon | src/auth/basic-auth.guard.ts:25 | The password is undefined exactly when there is no ':'. |
| Guards.BasicAuthUnauthorized | src/auth/basic-auth.guard.ts:17-19 | It throws exactly for a missing header or one not starting with "Basic ". |
| Guards.BasicAuth | src/auth/basic-auth.guard.ts:13-31 | A throw always carries "Missing or invalid authorization header". An accepted request had a configured user name, and that name has no ':'. A configured password with a ':' is never accepted. |
| Guards.BasicHeaderSplit | src/auth/basic-auth.guard.ts:21 | A "Basic ..." header splits with the token second. |
| Guards.BasicAuthAccepts | src/auth/basic-auth.guard.ts:21-30 | "name:secret" is accepted if and only if both equal the configured values. Wrong credentials return false rather than throwing. |
| Guards.PasswordWithColonTruncated | src/auth/basic-auth.guard.ts:25 | A password holding ':' is cut at its first ':'. |
| Guards.ColonPasswordNeverAllows | src/auth/basic-auth.guard.ts:25-30 | A configured password holding ':' admits no request. |
| Guards.CredentialsRfc7617RoundTrip | src/auth/basic-auth.guard.ts:25 | Splitting at the first ':' only gives back every user-id and password pair. |
| Guards.BasicAuthRfc7617Accepts | src/auth/basic-auth.guard.ts:13-31 | With that split, the configured credentials are accepted whatever the password holds. |
| Guards.PestRoutesGuard | src/auth/pestroutes.guard.ts:14-26 | It never returns false. It returns true exactly for a non-empty parameter equal to the secret, and otherwise throws. |
| Guards.ZohoGuard | src/auth/zoho.guard.ts:13-22 | It never returns false. It returns true exactly when the header equals the key, so an unset key lets a request without the header through. |
| ExceptionFilter.HttpExceptionPassesThrough | src/global-exception.filter.ts:21-26 | An HTTP exception keeps its status and message, and no alert is sent. |
| ExceptionFilter.OtherExceptionsAlertThen500 | src/global-exception.filter.ts:27-51 | Any other exception that the filter can read sends exactly one alert, then answers 500 "An error occurred". Such an exception is a request-library error with a response, or an exception that is not from the request library. A request-library error without a response makes the filter itself throw at lines 31-33, so the lemma excludes it. |
| ExceptionFilter.Catch | src/global-exception.filter.ts:16-53 | The filter itself throws if and only if the exception is a request-library error without a response. Otherwise it sends any alerts first and answers the request once, as its last effect. An HTTP exception is answered with its own status and message. |
| ExceptionFilter.ApiErrorAlert | src/global-exception.filter.ts:28-36 | The request-library alert is "API Error", leads with the URL and ends with the response body. |
| ExceptionFilter.StackTraceAlert | src/global-exception.filter.ts:37-45 | The alert is "Error Stack Trace", starts with the message and ends with the stack. |
| ExceptionFilter.Render | src/global-exception.filter.ts:30 | A present value renders as itself. |
| Strings.IndexOf | src/bonjoro/bonjoro.controller.ts:34-35 | It finds the leftmost occurrence, or reports that there is none. |
| Strings.ReplaceFirst | src/bonjoro/bonjoro.controller.ts:34-35 | With a string pattern, only the leftmost occurrence is replaced. Without an occurrence the text is unchanged. |
| Strings.ReplaceAllRemovesPattern | src/bonjoro/bonjoro.controller.ts:33 | A global replace by foreign characters leaves no occurrence. |
| Strings.StripTags | src/bonjoro/bonjoro.controller.ts:32 | No tag is left, and only characters of the input remain. |
| Strings.StripTagsPlain | src/bonjoro/bonjoro.controller.ts:32 | Text without '<' is unchanged. |
| Strings.StripTagsKeepsChar | src/bonjoro/bonjoro.controller.ts:32 | A leading character other than '<' is kept in front of the stripped rest. |
| Strings.StripTagsLeadingTag | src/bonjoro/bonjoro.controller.ts:32 | A leading `<...>` with no '>' inside is removed. |
| Strings.StripTagsRemovesTag | src/bonjoro/bonjoro.controller.ts:32 | After text without '<', the first `<...>` is removed, the text before it is kept, and the rest is stripped in turn. |
| Strings.StripTagsWithoutClose | src/bonjoro/bonjoro.controller.ts:32 | Text without '>' is unchanged. |
| Strings.StripTagsKeepsUnclosed | src/bonjoro/bonjoro.controller.ts:32 | A '<' with no '>' after it is kept, with all the text around it. |
| Strings.ReplaceAllAbsent | src/bonjoro/bonjoro.controller.ts:33 | Text without the pattern's first character is unchanged by a global replace. |
| Strings.ReplaceAllWithout | src/bonjoro/bonjoro.controller.ts:33 | Text in which the pattern does not occur is unchanged by a global replace. |
| Strings.ReplaceAllAtFirst | src/bonjoro/bonjoro.controller.ts:33 | A global replace copies the text before the first occurrence, replaces that occurrence, and carries on after it. |
| Strings.FirstOccurrenceAfter | src/bonjoro/bonjoro.controller.ts:34-35 | In `before + pat + after`, with `before` lacking the pattern's first character, the first occurrence is right after `before`. |
| Strings.ReplaceFirstAfter | src/bonjoro/bonjoro.controller.ts:34-35 | In that case `replace` substitutes exactly that occurrence and keeps `before` and `after`. |
| Strings.Split | src/pipedrive/pipedrive.controller.ts:93-94 | `split` gives at least one part, no part holds the separator, and the parts join back to the text. |
| Strings.SplitJoin | src/pipedrive/pipedrive.controller.ts:93-94 | `split` inverts `join` on parts without the separator. |
| Strings.At | src/pipedrive/pipedrive.controller.ts:79-82 | Reading past the end gives undefined. |
| Strings.ToLower | src/pipedrive/pipedrive.controller.ts:180 | The length is kept. Each upper-case ASCII letter becomes its lower-case letter (code point plus 32), and every other character is unchanged. |
| Strings.ToLowerIdempotent | src/pipedrive/pipedrive.controller.ts:180 | Lower-casing twice is lower-casing once. |

## Left out

- The proposal-document extractor and the authenticated client with token refresh are not part of this model. The extractor's answer is a parameter (`None` for a failure).
- These methods are not defined in the files modelled here, so they become parameters or recorded effects: `getAutomationEmail`, `getAllUsers`, `cancelAppointment`, `putGreet`, `getGreetsWithFilter` and `getProposalDetails`.
- Library behaviour is not modelled:
  - Luxon time zones and formatting: the date, hour and minute are parameters.
  - Handlebars rendering and currency formatting: a sent reminder carries the template id and its variables.
  - `JSON.stringify` and `JSON.parse`: the response text and the parsed notes are parameters.
  - `Date`/`toISOString`: the timestamp is a parameter.
  - Base64 decoding: `decode` is a parameter.
- I/O, Sentry capture, logging text and concurrency are not modelled. Cron jobs and webhooks are single sequential calls. Failures of outside calls are modelled only where the code branches on them.
- The sales system is asked for the same deal twice per row in `appointmentCompleted`. The model assumes it answers the same deal both times.
- The design-tool and CRM SDK wrappers, the module wiring, the Sentry filter, the no-op task and the `test` endpoint are not modelled.
- Query parameters given as arrays are not modelled. The guard's parameter is a single optional string.
- Decimal.JsNumber: `Number()` is modelled for the empty string and for digit strings. Signs, spaces, decimals and hexadecimal read as NaN. So a customer id in such a format matches no row, where JavaScript might match one.
- ChangelogSearch.LastSeen: a stored cursor in a numeric format other than digits reads as NaN, for the same reason.
- Strings.ToLower: lower-cases ASCII letters only. JavaScript's `toLowerCase` also maps other alphabets.
- BonjoroController.SmsBody: a `$` pattern (`$&`, `$1`, ...) in the first name or the video URL is inserted literally. JavaScript's `replace` would expand it.
- PestRoutesReminders.AppointmentReminder, PestRoutesReminders.BillingReminder and PestRoutesReminders.BedBugReminder follow the template record that the reminder service expects: a body, a subject and attachments (src/pest-routes/pest-routes-reminders.service.ts:34, 53, 81, 99, 124-128). The messaging wrapper in src/front/front.service.ts:22-28 returns only the template's body string. Against that wrapper every destructured field would be undefined, compiling the template would throw, and no reminder would be sent. Its `sendEmail` (lines 42-52) also sends no attachment. This mismatch between the two files is not modelled.
- BonjoroService.PagePath: the base URL is a configured string. With it unset, JavaScript would remove the text "undefined" instead.
- BonjoroService.GroupByAssignee: keys are kept in insertion order. JavaScript's `Object.keys` lists integer-like keys first, and stringifies an unset id as the key "undefined", which could collide with a user id of that text.
- PipedriveController.SignedEffects: a failing extractor call (src/pipedrive/pipedrive.controller.ts:222-224) has no `try`/`catch` around it, so the handler stops there. The model records this as the outcome `ExtractorFailed`, without the rejection's contents. The stage update comes first, as the comment at line 217 says, so such a stop leaves the stage moved and no field written.

## Findings

| source | as written | input that shows it | evidently intended | confidence | as-written member | corrected member |
|---|---|---|---|---|---|---|
| src/auth/basic-auth.guard.ts:25 | `credentials.split(':')` keeps only the text between the first and second ':' as the password | configured password "pa:ss", credentials "alice:pa:ss": the password read is "pa", so the request is refused; every request is refused while the password holds ':' | split at the first ':' only, as section 2 of RFC 7617 prescribes for Basic credentials | not executed | Guards.PasswordWithColonTruncated | Guards.BasicAuthRfc7617Accepts |
