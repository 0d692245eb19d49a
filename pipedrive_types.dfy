/** Records of the CRM (Pipedrive) and the design-project system (ArcSite),
    and the CRM's stage ids and custom-field keys. */
module PipedriveTypes {
  import opened Wrappers

  const STAGE_PROPOSAL_SENT := 2
  const STAGE_SOLD := 5
  const STAGE_SOLD_SERVICED := 6

  const ADDRESS_KEY := "130f4703de6770a75cfaaee28ed42334a8200a78"
  const CITY_KEY := "0dcd5ef507c068612473388b2b185e9ae939351b"
  const STATE_KEY := "16964aa4b6bda425f239e32862d101ffa6df311e"
  const ZIP_KEY := "5097d5ad377ff0ebbb7f7938d97eaba1c43dbad4"

  const SERVICE_TYPE_KEY := "c3f9efc6683c809448ac68ab2810d7c3bff47454"
  const INITIAL_PRICE_KEY := "07ab23b0095567e297c6b876bfadf1db476198ba"
  const CONTRACT_LENGTH_KEY := "cb430c610877746800e519f357035f7dcda4ae91"
  const SERVICE_INFORMATION_KEY := "582704903c01faa0f69e1c5399c946b1e7652a32"
  const CONTRACT_VALUE_KEY := "cef03fc7317c218eb91fce30f3162a68217e62ad"
  const RECURRING_PRICE_KEY := "4b6813bf9a46fbe6254671f35a0fd56aa66d0d7c"
  const FREQUENCY_KEY := "681fd45c0f400f46ff68b2f3f4018acf7f554279"
  const MULTI_UNIT_PROPERTY_KEY := "b0c6b070617ebfe2b382a00ad48b68a5baf5af9a"
  const UNIT_QUOTA_KEY := "a31e28a7dcf34149a9bc13d829dd627ebd7756e3"
  const PROPOSAL_DATE_KEY := "b2987ca807369a1c4bc159b1cfa0acd5ad04296f"

  /** The `current` object of a deal-added webhook. */
  datatype DealAdded = DealAdded(id: nat, personId: nat, orgName: Option<string>)

  /** A person; `emails` and `phones` are the `value`s of its lists. */
  datatype Person = Person(firstName: string, lastName: string, emails: seq<string>, phones: seq<string>)

  /** The deal owner (`user_id`). */
  datatype Owner = Owner(name: string, email: string)

  /** A deal with the fields the handlers read; `contact*` are the
      expanded `person_id` object. */
  datatype Deal = Deal(
    id: nat,
    personName: string,
    orgName: string,
    street: string,
    city: string,
    state: string,
    zip: string,
    owner: Owner,
    contactName: string,
    contactEmails: seq<string>,
    contactPhones: seq<string>)

  /** A design project as read back from ArcSite. */
  datatype ArcSiteProject = ArcSiteProject(id: string, salesRepEmail: string)

  /** What the proposal-document extractor returns. The extractor itself
      is not part of this model. */
  datatype ProposalDetails = ProposalDetails(
    serviceType: string,
    initialPrice: string,
    contractLength: string,
    additionalServiceInformation: string,
    annualContractValue: string,
    recurringPrice: string,
    recurringFrequency: string,
    isMultiUnit: bool,
    unitQuotaPerService: string)
}
