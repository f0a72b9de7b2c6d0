/** What the campaign controllers receive and send: the JSON request body, the
    status code with its JSON reply, and the store as it is after the request.
    The Express plumbing that carries them is not modelled. */
module Http {
  import opened Js
  import opened CampaignSchema

  /** The body of a create or update request; any property may be missing. */
  datatype RequestBody = RequestBody(
    name: Option<string>,
    description: Option<string>,
    status: Option<string>,
    leads: Option<seq<string>>,
    accountIDs: Option<seq<string>>)

  /** The JSON a controller answers with. */
  datatype Reply =
    | One(campaign: Campaign)
    | Many(campaigns: seq<Campaign>)
    | Removed(message: string, campaign: Campaign)
    | Problem(message: string)

  datatype Response = Response(code: nat, reply: Reply)

  /** The response to a request together with the store it leaves behind. */
  datatype Step<S> = Step(response: Response, store: S)

  const InvalidIdMessage := "Invalid campaign ID format"
  const NotFoundMessage := "Campaign not found"
  const RequiredMessage := "Name and description are required"
  const InvalidStatusMessage := "Invalid status value"
  const DeletedStatusMessage := "Cannot set status to DELETED directly"
  const CreateErrorMessage := "Error creating campaign"
  const UpdateErrorMessage := "Error updating campaign"
  const DeletedMessage := "Campaign deleted successfully"

  /** `status && !Object.values(CampaignStatus).includes(status)`: a status
      was supplied, is truthy, and is not one of the three enumeration values. */
  predicate RejectsStatus(status: Option<string>) {
    Truthy(status) && ParseStatus(status.value).None?
  }

  /** The status a request sets: the named one when it supplied a truthy,
      valid status, otherwise `otherwise`. */
  function RequestedStatus(status: Option<string>, otherwise: Status): Status {
    if Truthy(status) && ParseStatus(status.value).Some? then ParseStatus(status.value).value
    else otherwise
  }
}
