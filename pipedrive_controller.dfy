/** The CRM (Pipedrive) webhooks of src/pipedrive/pipedrive.controller.ts:
    a scheduled appointment creates a design project and records the
    correlation row; a signed proposal sends the signature request, moves
    the deal to "Proposal Sent" and writes the proposal's details back to
    the deal. Every response of an outside system is a parameter; the
    outbound calls are returned as `Effect`s, in order. */
module PipedriveController {
  import opened Wrappers
  import opened Strings
  import opened Decimal
  import opened PipedriveTypes
  import opened CommercialSales

  // ---------------------------------------------------------------------
  // The design-project payload

  datatype CustomerInfo = CustomerInfo(
    firstName: string,
    lastName: string,
    email: Option<string>,
    secondEmail: Option<string>,
    phone: Option<string>,
    secondPhone: Option<string>)

  datatype WorkSite = WorkSite(street: string, city: string, state: string, zip: string)

  /** `lastName` is `undefined` (`None`) when the owner's name has no space. */
  datatype SalesRep = SalesRep(email: string, name: string, firstName: string, lastName: Option<string>, phone: string)

  datatype ZohoDealPayload = ZohoDealPayload(
    dealId: string,
    contactId: string,
    company: string,
    customer: CustomerInfo,
    workSite: WorkSite,
    salesRep: SalesRep)

  const COMPANY_PREFIX := "[Pipedrive Test] "

  /** A template literal's rendering of a nullable organisation name. */
  function OrgNameText(orgName: Option<string>): string
  {
    if orgName.Some? then orgName.value else "null"
  }

  /** The payload built from the webhook body, the person and the deal. */
  function BuildPayload(added: DealAdded, person: Person, deal: Deal): (p: ZohoDealPayload)
    ensures p.company == COMPANY_PREFIX + OrgNameText(added.orgName)
    ensures p.customer.email == At(person.emails, 0) && p.customer.secondEmail == At(person.emails, 1)
    ensures p.customer.phone == At(person.phones, 0) && p.customer.secondPhone == At(person.phones, 1)
    ensures p.salesRep.email == deal.owner.email && p.salesRep.name == deal.owner.name
    ensures p.salesRep.firstName == Split(deal.owner.name, ' ')[0]
    ensures p.salesRep.lastName == At(Split(deal.owner.name, ' '), 1)
    ensures p.workSite == WorkSite(deal.street, deal.city, deal.state, deal.zip)
  {
    var names := Split(deal.owner.name, ' ');
    ZohoDealPayload(
      "", "",
      COMPANY_PREFIX + OrgNameText(added.orgName),
      CustomerInfo(person.firstName, person.lastName,
                   At(person.emails, 0), At(person.emails, 1), At(person.phones, 0), At(person.phones, 1)),
      WorkSite(deal.street, deal.city, deal.state, deal.zip),
      SalesRep(deal.owner.email, deal.owner.name, names[0], At(names, 1), ""))
  }

  /** An owner named "<first> <last>" (neither part holding a space) has
      those as the sales rep's first and last names. */
  lemma OwnerNameTokens(added: DealAdded, person: Person, deal: Deal, first: string, last: string)
    requires ' ' !in first && ' ' !in last
    requires deal.owner.name == first + " " + last
    ensures BuildPayload(added, person, deal).salesRep.firstName == first
    ensures BuildPayload(added, person, deal).salesRep.lastName == Some(last)
  {
    SplitJoin([first, last], ' ');
    assert Join([first, last], ' ') == first + " " + last;
  }

  /** A one-word owner name has no last name. */
  lemma OwnerSingleName(added: DealAdded, person: Person, deal: Deal)
    requires ' ' !in deal.owner.name
    ensures BuildPayload(added, person, deal).salesRep.firstName == deal.owner.name
    ensures BuildPayload(added, person, deal).salesRep.lastName == None
  {
    SplitNoSeparator(deal.owner.name, ' ');
  }

  // ---------------------------------------------------------------------
  // Failures and their classification

  /** A `message` member: a string (`includes` looks for a substring), an
      array of strings (`includes` looks for an element equal to the
      phrase), or anything else, such as an object, a number or null, on
      which calling `includes` throws. */
  datatype Message = Text(text: string) | Items(items: seq<string>) | NotText

  /** A response body: an object with or without a `message` member, or a
      primitive (a string, a number, null), on which `'message' in` throws. */
  datatype ResponseData = JsonObject(message: Option<Message>) | Primitive

  datatype HttpResponse = HttpResponse(status: int, data: ResponseData)

  /** What the `try` block can throw: an HTTP client error (with or without
      a response) or anything else, such as a database error. */
  datatype Failure = HttpFailure(response: Option<HttpResponse>) | OtherFailure(description: string)

  /** How the `catch` block ends. */
  datatype Caught = NotifyDuplicate | Rethrow(failure: Failure) | TypeErrorThrown

  const DUPLICATE_PHRASE := "project name already exists"

  function Classify(f: Failure): (c: Caught)
    ensures c.Rethrow? ==> c.failure == f
  {
    match f
    case OtherFailure(_) => Rethrow(f)
    case HttpFailure(None) => Rethrow(f)
    case HttpFailure(Some(resp)) =>
      if resp.status != 400 then Rethrow(f)
      else match resp.data
        case Primitive => TypeErrorThrown
        case JsonObject(None) => Rethrow(f)
        case JsonObject(Some(NotText)) => TypeErrorThrown
        case JsonObject(Some(Text(m))) => if Contains(m, DUPLICATE_PHRASE) then NotifyDuplicate else Rethrow(f)
        case JsonObject(Some(Items(xs))) => if DUPLICATE_PHRASE in xs then NotifyDuplicate else Rethrow(f)
  }

  /** A failure is swallowed (with a notification) exactly when it is an
      HTTP 400 whose object body has a `message` that is a string
      containing the duplicate-name phrase or an array holding the phrase
      as an element; it throws a `TypeError` exactly when such a 400 has a
      primitive body or a `message` that is neither. */
  lemma ClassifyNotifiesOnlyDuplicates(f: Failure)
    ensures Classify(f) == NotifyDuplicate <==>
              f.HttpFailure? && f.response.Some? && f.response.value.status == 400 &&
              f.response.value.data.JsonObject? && f.response.value.data.message.Some? &&
              var m := f.response.value.data.message.value;
              (m.Text? && Contains(m.text, DUPLICATE_PHRASE)) || (m.Items? && DUPLICATE_PHRASE in m.items)
    ensures Classify(f) == TypeErrorThrown <==>
              f.HttpFailure? && f.response.Some? && f.response.value.status == 400 &&
              (f.response.value.data.Primitive? || f.response.value.data.message == Some(NotText))
  {
  }

  /** Non-HTTP failures, and HTTP failures other than 400, are rethrown
      unchanged. */
  lemma ClassifyRethrowsOthers(f: Failure)
    requires f.OtherFailure? || f.response.None? || f.response.value.status != 400
    ensures Classify(f) == Rethrow(f)
  {
  }

  // ---------------------------------------------------------------------
  // Outbound calls

  datatype Effect =
    | CreateProject(payload: ZohoDealPayload)
    | UpdateProject(projectId: string, payload: ZohoDealPayload)
    | Email(to: string, subject: string, text: string)
    | CreateSignDocument(firstName: string, orgName: string, projectId: string, url: string)
    | AddFields(requestId: string, documentId: string, name: string, email: string, phone: string,
                signaturePage: int, salesRepEmail: string)
    | SendForSignature(requestId: string, salesRepEmail: string)
    | DownloadPdf(requestId: string)
    | UpdateStage(dealId: nat, stageId: int)
    | UpdateFields(dealId: nat, fields: map<DealField, string>)

  /** How a handler ends. */
  datatype Outcome = Completed | Skipped | Thrown(failure: Failure) | TypeError | ExtractorFailed

  /** The notification sent on a duplicate project name; `nowIso` is the
      timestamp of the subject. */
  function DuplicateEmail(payload: ZohoDealPayload, nowIso: string): Effect
  {
    Email(payload.salesRep.email,
          "Duplicate ArcSite project for " + payload.company + " @ " + nowIso,
          "Duplicate ArcSite project for " + payload.company)
  }

  /** The `catch` block: the effects it adds and how the handler ends. */
  function Catch(f: Failure, payload: ZohoDealPayload, nowIso: string): (r: (seq<Effect>, Outcome))
    ensures r.1 == Completed <==> Classify(f) == NotifyDuplicate
    ensures r.0 == (if Classify(f) == NotifyDuplicate then [DuplicateEmail(payload, nowIso)] else [])
    ensures Classify(f).Rethrow? ==> r.1 == Thrown(f)
    ensures Classify(f) == TypeErrorThrown ==> r.1 == TypeError
  {
    match Classify(f)
    case NotifyDuplicate => ([DuplicateEmail(payload, nowIso)], Completed)
    case Rethrow(g) => ([], Thrown(g))
    case TypeErrorThrown => ([], TypeError)
  }

  /** The correlation row recorded for a new project. */
  function NewSale(deal: Deal, projectId: string): (s: Sale)
    ensures s.arcSiteProjectId == projectId
    ensures s.pipedriveDealId.Some? && ParseNat(s.pipedriveDealId.value) == Some(deal.id)
  {
    ParseNatToString(deal.id);
    Sale(Some(NatToString(deal.id)), projectId, None, None, None)
  }

  // ---------------------------------------------------------------------
  // appointment-scheduled

  /** The appointment-scheduled webhook. `created` is the outcome of the
      project creation (the new project's id, or the failure), `updated`
      that of the project update. The correlation row is recorded only
      once the project exists, and before the update is sent. */
  method AppointmentScheduled(table: Table, added: DealAdded, person: Person, deal: Deal,
                              created: Result<string, Failure>, updated: Option<Failure>, nowIso: string)
    returns (effects: seq<Effect>, outcome: Outcome)
    requires table.Valid()
    modifies table
    ensures table.Valid()
    ensures |effects| >= 1 && effects[0] == CreateProject(BuildPayload(added, person, deal))
    ensures created.Err? ==>
              table.rows == old(table.rows) && table.order == old(table.order) &&
              (effects, outcome) == ([effects[0]] + Catch(created.error, BuildPayload(added, person, deal), nowIso).0,
                                     Catch(created.error, BuildPayload(added, person, deal), nowIso).1)
    ensures created.Ok? && created.value in old(table.rows) ==>
              table.rows == old(table.rows) && table.order == old(table.order) &&
              effects == [effects[0]] && outcome.Thrown? && outcome.failure.OtherFailure?
    ensures created.Ok? && created.value !in old(table.rows) ==>
              table.rows == old(table.rows)[created.value := NewSale(deal, created.value)] &&
              table.order == old(table.order) + [created.value] &&
              |effects| >= 2 && effects[1] == UpdateProject(created.value, BuildPayload(added, person, deal)) &&
              (updated.None? ==> effects == effects[..2] && outcome == Completed) &&
              (updated.Some? ==> effects == effects[..2] + Catch(updated.value, BuildPayload(added, person, deal), nowIso).0 &&
                                 outcome == Catch(updated.value, BuildPayload(added, person, deal), nowIso).1)
  {
    var payload := BuildPayload(added, person, deal);
    effects := [CreateProject(payload)];
    if created.Err? {
      var (more, out) := Catch(created.error, payload, nowIso);
      effects := effects + more;
      outcome := out;
      return;
    }
    var projectId := created.value;
    var recorded := table.Create(NewSale(deal, projectId));
    if recorded.Err? {
      // A database error is not an HTTP error: the catch block rethrows it.
      var (more, out) := Catch(OtherFailure("unique constraint violation on arcSiteProjectId"), payload, nowIso);
      effects := effects + more;
      outcome := out;
      return;
    }
    effects := effects + [UpdateProject(projectId, payload)];
    if updated.Some? {
      var (more, out) := Catch(updated.value, payload, nowIso);
      effects := effects + more;
      outcome := out;
    } else {
      outcome := Completed;
    }
  }

  // ---------------------------------------------------------------------
  // arc-site/proposal-signed

  /** The signature request the document system creates: its id, the ids
      of its document fields and the page counts of its documents. */
  datatype SignDocument = SignDocument(requestId: string, documentFieldIds: seq<string>, totalPages: seq<int>)

  /** The deal's custom fields that the proposal fills in. */
  datatype DealField =
    | ServiceType | InitialPrice | ContractLength | ServiceInformation | ContractValue
    | RecurringPrice | Frequency | MultiUnitProperty | UnitQuota | ProposalDate

  /** The CRM's key of each custom field. */
  function FieldKey(f: DealField): string
  {
    match f
    case ServiceType => SERVICE_TYPE_KEY
    case InitialPrice => INITIAL_PRICE_KEY
    case ContractLength => CONTRACT_LENGTH_KEY
    case ServiceInformation => SERVICE_INFORMATION_KEY
    case ContractValue => CONTRACT_VALUE_KEY
    case RecurringPrice => RECURRING_PRICE_KEY
    case Frequency => FREQUENCY_KEY
    case MultiUnitProperty => MULTI_UNIT_PROPERTY_KEY
    case UnitQuota => UNIT_QUOTA_KEY
    case ProposalDate => PROPOSAL_DATE_KEY
  }

  /** The deal's custom fields written from the proposal's details; every
      field is written, and the proposal date is today's date. */
  function DealFields(d: ProposalDetails, today: string): (m: map<DealField, string>)
    ensures m.Keys == {ServiceType, InitialPrice, ContractLength, ServiceInformation, ContractValue,
                       RecurringPrice, Frequency, MultiUnitProperty, UnitQuota, ProposalDate}
    ensures m[ServiceType] == d.serviceType && m[InitialPrice] == d.initialPrice
    ensures m[ContractLength] == d.contractLength && m[ServiceInformation] == d.additionalServiceInformation
    ensures m[ContractValue] == d.annualContractValue && m[RecurringPrice] == d.recurringPrice
    ensures m[Frequency] == d.recurringFrequency && m[UnitQuota] == d.unitQuotaPerService
    ensures m[MultiUnitProperty] == (if d.isMultiUnit then "Yes" else "No")
    ensures m[ProposalDate] == today
  {
    var m := map[
      ServiceType := d.serviceType,
      InitialPrice := d.initialPrice,
      ContractLength := d.contractLength,
      ServiceInformation := d.additionalServiceInformation,
      ContractValue := d.annualContractValue,
      RecurringPrice := d.recurringPrice,
      Frequency := d.recurringFrequency,
      MultiUnitProperty := if d.isMultiUnit then "Yes" else "No",
      UnitQuota := d.unitQuotaPerService,
      ProposalDate := today];
    m
  }

  /** What follows the row update: the effects of the signature and
      stage/field calls, and how the handler ends. Reading index 0 of an
      empty list throws a `TypeError` before any of these calls; an
      extractor failure throws after the stage update. */
  function SignedEffects(deal: Deal, project: ArcSiteProject, doc: SignDocument,
                         details: Option<ProposalDetails>, today: string): (r: (seq<Effect>, Outcome))
    ensures r.1 == TypeError <==>
              |doc.documentFieldIds| == 0 || |deal.contactEmails| == 0 || |deal.contactPhones| == 0 || |doc.totalPages| == 0
    ensures r.1 == TypeError ==> r.0 == []
    ensures r.1 != TypeError ==> && 4 <= |r.0| && r.0[3] == UpdateStage(deal.id, STAGE_PROPOSAL_SENT)
                                 && (r.1 == Completed <==> details.Some?)
                                 && (r.1 == ExtractorFailed <==> details.None?)
  {
    if |doc.documentFieldIds| == 0 || |deal.contactEmails| == 0 || |deal.contactPhones| == 0 || |doc.totalPages| == 0 then
      ([], TypeError)
    else
      var email := ToLower(project.salesRepEmail);
      var sent := [AddFields(doc.requestId, doc.documentFieldIds[0], deal.contactName, deal.contactEmails[0],
                             deal.contactPhones[0], doc.totalPages[0] - 1, email),
                   SendForSignature(doc.requestId, email),
                   DownloadPdf(doc.requestId),
                   UpdateStage(deal.id, STAGE_PROPOSAL_SENT)];
      if details.None? then (sent, ExtractorFailed)
      else (sent + [UpdateFields(deal.id, DealFields(details.value, today))], Completed)
  }

  /** The stage moves to "Proposal Sent" before the fields are written:
      every field update is preceded by the stage update. */
  lemma StageBeforeFields(deal: Deal, project: ArcSiteProject, doc: SignDocument, details: Option<ProposalDetails>,
                          today: string, j: nat)
    requires j < |SignedEffects(deal, project, doc, details, today).0|
    requires SignedEffects(deal, project, doc, details, today).0[j].UpdateFields?
    ensures exists i :: 0 <= i < j && SignedEffects(deal, project, doc, details, today).0[i] == UpdateStage(deal.id, STAGE_PROPOSAL_SENT)
  {
    assert SignedEffects(deal, project, doc, details, today).0[3] == UpdateStage(deal.id, STAGE_PROPOSAL_SENT);
  }

  /** When the extractor fails the stage has already moved and no field is
      written; when it succeeds the handler ends with the field update. */
  lemma ExtractorOutcome(deal: Deal, project: ArcSiteProject, doc: SignDocument, details: Option<ProposalDetails>, today: string)
    requires |doc.documentFieldIds| > 0 && |deal.contactEmails| > 0 && |deal.contactPhones| > 0 && |doc.totalPages| > 0
    ensures var (effects, outcome) := SignedEffects(deal, project, doc, details, today);
            && UpdateStage(deal.id, STAGE_PROPOSAL_SENT) in effects
            && (details.None? <==> outcome == ExtractorFailed)
            && (details.None? ==> forall e :: e in effects ==> !e.UpdateFields?)
            && (details.Some? ==> effects[|effects| - 1] == UpdateFields(deal.id, DealFields(details.value, today)))
  {
    var (effects, _) := SignedEffects(deal, project, doc, details, today);
    assert effects[3] == UpdateStage(deal.id, STAGE_PROPOSAL_SENT);
  }

  /** The signature goes on the last page of the first document, and the
      sales rep's e-mail is sent lower-cased. */
  lemma SignatureFields(deal: Deal, project: ArcSiteProject, doc: SignDocument, details: Option<ProposalDetails>, today: string)
    requires |doc.documentFieldIds| > 0 && |deal.contactEmails| > 0 && |deal.contactPhones| > 0 && |doc.totalPages| > 0
    ensures var a := SignedEffects(deal, project, doc, details, today).0[0];
            && a.AddFields?
            && a.signaturePage == doc.totalPages[0] - 1
            && a.email == deal.contactEmails[0] && a.phone == deal.contactPhones[0]
            && a.salesRepEmail == ToLower(project.salesRepEmail)
            && |a.salesRepEmail| == |project.salesRepEmail|
            && (forall k :: 0 <= k < |a.salesRepEmail| ==> !('A' <= a.salesRepEmail[k] <= 'Z'))
            && SignedEffects(deal, project, doc, details, today).0[1] == SendForSignature(doc.requestId, a.salesRepEmail)
  {
  }

  /** The arc-site proposal-signed webhook for design project `projectId`
      with document `url`. */
  method ProposalSigned(table: Table, projectId: string, url: string, deal: Deal, project: ArcSiteProject,
                        doc: SignDocument, details: Option<ProposalDetails>, today: string)
    returns (effects: seq<Effect>, outcome: Outcome)
    requires table.Valid()
    modifies table
    ensures table.Valid()
    ensures table.order == old(table.order)
    ensures projectId !in old(table.rows) || !Truthy(old(table.rows)[projectId].pipedriveDealId) ==>
              table.rows == old(table.rows) && effects == [] && outcome == Skipped
    ensures projectId in old(table.rows) && Truthy(old(table.rows)[projectId].pipedriveDealId) ==>
              table.rows == old(table.rows)[projectId := old(table.rows)[projectId].(zohoSignRequestId := Some(doc.requestId))] &&
              effects == [CreateSignDocument(Split(deal.personName, ' ')[0], deal.orgName, projectId, url)] +
                         SignedEffects(deal, project, doc, details, today).0 &&
              outcome == SignedEffects(deal, project, doc, details, today).1
  {
    var sale := table.FindByProject(projectId);
    if sale.None? || !Truthy(sale.value.pipedriveDealId) {
      return [], Skipped;
    }
    effects := [CreateSignDocument(Split(deal.personName, ' ')[0], deal.orgName, projectId, url)];
    var updated := table.SetSignRequestId(sale.value.pipedriveDealId, projectId, doc.requestId);
    var (more, out) := SignedEffects(deal, project, doc, details, today);
    effects := effects + more;
    outcome := out;
  }
}
