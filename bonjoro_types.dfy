/** Records of the video-greeting system (Bonjoro). */
module BonjoroTypes {
  import opened Wrappers

  /** One page of a paginated listing. */
  datatype Page<T> = Page(data: seq<T>, currentPage: int, nextPageUrl: Option<string>)

  /** A greet and the uuid of the campaign it belongs to. */
  datatype Greet = Greet(id: string, campaignUuid: string)

  datatype User = User(id: string, email: string, name: string)

  datatype GreetLine = GreetLine(email: string, firstName: string, lastName: string, reason: string)

  /** A bulk-create request; `assigneeId` and `campaignId` come from
      configuration or a lookup and may be `undefined` (`None`). */
  datatype BulkGreetRequest = BulkGreetRequest(
    assigneeId: Option<string>,
    campaignId: Option<string>,
    sync: int,
    lines: seq<GreetLine>)
}
