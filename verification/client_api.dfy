/** The browser's campaign client. Each call goes to the backend first; when
    the request cannot be made, or a response it must read cannot be parsed,
    it falls back to a module-level array of campaigns kept in the page, with
    its own soft delete. `fetch` is a parameter: the outcome of the one
    request each call makes. The clock reading `now` supplies the fallback
    identifier. */
module ClientApi {
  import opened Js
  import opened Text
  import opened CampaignSchema

  /** A campaign as the client holds it. */
  datatype ClientCampaign = ClientCampaign(
    id: string,
    name: string,
    description: string,
    status: Status,
    leads: seq<string>,
    accountIDs: seq<string>)

  /** The campaign a form submits: every field but the identifier. */
  datatype Draft = Draft(
    name: string,
    description: string,
    status: Status,
    leads: seq<string>,
    accountIDs: seq<string>)
  {
    /** `{ ...draft, id }`. */
    function WithId(id: string): (c: ClientCampaign)
      ensures c.id == id && c.name == name && c.description == description
      ensures c.status == status && c.leads == leads && c.accountIDs == accountIDs
    {
      ClientCampaign(id, name, description, status, leads, accountIDs)
    }
  }

  /** A partial campaign for update: `None` is a key the object does not
      have, so the spread leaves that field alone. */
  datatype Patch = Patch(
    name: Option<string>,
    description: Option<string>,
    status: Option<Status>,
    leads: Option<seq<string>>,
    accountIDs: Option<seq<string>>)

  /** `{ data?, message?, error? }`. */
  datatype ApiResponse<T> = ApiResponse(data: Option<T>, message: Option<string>, error: Option<string>)

  /** What `response.json()` makes of a body: a rejection, the JSON `null`,
      or an object carrying the expected payload and its `message` property. */
  datatype Json<T> = Unreadable | Null | Parsed(payload: T, message: Option<string>)

  /** The outcome of `fetch`: a rejection (the backend is not reachable) or a
      response with its `ok` flag, status line and body. */
  datatype Fetched<T> = NetworkFailure | Received(ok: bool, status: nat, statusText: string, body: Json<T>)

  /** A value, or an exception on its way to the nearest `catch`. */
  datatype Attempt<T> = Returned(value: T) | Threw

  type ClientStore = seq<ClientCampaign>

  /** The answer of a call with the fallback array it leaves behind. */
  datatype ClientStep<T> = ClientStep(response: ApiResponse<T>, store: ClientStore)

  const BackendDownMessage := "Backend server is not available"
  const FallbackDataMessage := "Using fallback data: Backend server is not available"
  const NotFoundMessage := "Campaign not found"
  const CreatedMessage := "Campaign created successfully"
  const CreatedLocallyMessage := "Campaign created successfully (using fallback storage)"
  const UpdatedMessage := "Campaign updated successfully"
  const UpdatedLocallyMessage := "Campaign updated successfully (using fallback storage)"
  const DeletedMessage := "Campaign deleted successfully"
  const DeletedLocallyMessage := "Campaign deleted successfully (using fallback storage)"
  const FallbackTemplateMessage := "Using fallback template: Backend server is not available or Gemini API call failed"
  const FallbackModel := "fallback-template"

  /** `` `Error: ${response.status} ${response.statusText}` ``. */
  function StatusLine(status: nat, statusText: string): string {
    "Error: " + Decimal(status) + " " + statusText
  }

  /** The error a failed response reports: the body's `message` when it is
      truthy, else the status line; an unreadable body reads as `{}`, and a
      `null` body throws on the property access. */
  function FailureError<T>(status: nat, statusText: string, body: Json<T>): (r: Attempt<string>)
    ensures r.Threw? <==> body.Null?
    ensures body.Parsed? && Truthy(body.message) ==> r == Returned(body.message.value)
    ensures body.Unreadable? || (body.Parsed? && !Truthy(body.message)) ==>
              r == Returned(StatusLine(status, statusText))
  {
    match body
    case Unreadable => Returned(StatusLine(status, statusText))
    case Null => Threw
    case Parsed(_, message) => Returned(OrElse(message, StatusLine(status, statusText)))
  }

  /** `handleApiResponse`: a failed response becomes an error with no data; a
      successful one becomes its parsed body as data, and throws when that
      body cannot be parsed. */
  function HandleApiResponse<T>(ok: bool, status: nat, statusText: string, body: Json<T>): (r: Attempt<ApiResponse<T>>)
    ensures r.Threw? <==> (ok && body.Unreadable?) || (!ok && body.Null?)
    ensures !ok && r.Returned? ==>
              && r.value.data.None? && r.value.message.None?
              && r.value.error == Some(FailureError(status, statusText, body).value)
    ensures ok && body.Parsed? ==> r == Returned(ApiResponse(Some(body.payload), None, None))
    ensures ok && body.Null? ==> r == Returned(ApiResponse(None, None, None))
  {
    if !ok then
      match FailureError(status, statusText, body)
      case Threw => Threw
      case Returned(e) => Returned(ApiResponse(None, None, Some(e)))
    else
      match body
      case Unreadable => Threw
      case Null => Returned(ApiResponse(None, None, None))
      case Parsed(payload, _) => Returned(ApiResponse(Some(payload), None, None))
  }

  /** The `try` part every call shares: fetch, then `handleApiResponse`. */
  function Online<T>(fetched: Fetched<T>): (r: Attempt<ApiResponse<T>>)
    ensures fetched.NetworkFailure? ==> r.Threw?
    ensures fetched.Received? ==>
              r == HandleApiResponse(fetched.ok, fetched.status, fetched.statusText, fetched.body)
  {
    match fetched
    case NetworkFailure => Threw
    case Received(ok, status, statusText, body) => HandleApiResponse(ok, status, statusText, body)
  }

  predicate NotDeleted(c: ClientCampaign) {
    c.status != Deleted
  }

  /** `fallbackCampaigns.findIndex(c => c.id === id)`. */
  function Locate(s: ClientStore, id: string): (r: int)
    ensures -1 <= r < |s|
    ensures r == -1 <==> forall i :: 0 <= i < |s| ==> s[i].id != id
    ensures r >= 0 ==> s[r].id == id && forall i :: 0 <= i < r ==> s[i].id != id
  {
    FindIndex(s, (c: ClientCampaign) => c.id == id)
  }

  /** List: the backend's answer, or else the fallback campaigns that are not
      soft-deleted, in order, with a note that the backend is down. The
      fallback array is never changed. */
  function GetCampaigns(s: ClientStore, fetched: Fetched<seq<ClientCampaign>>): (r: ClientStep<seq<ClientCampaign>>)
    ensures r.store == s
    ensures Online(fetched).Returned? ==> r.response == Online(fetched).value
    ensures Online(fetched).Threw? ==>
              && r.response.error == Some(FallbackDataMessage)
              && r.response.message.None?
              && r.response.data.Some?
    ensures Online(fetched).Threw? ==>
              var listed := r.response.data.value;
              && (forall i :: 0 <= i < |listed| ==> listed[i] in s && listed[i].status != Deleted)
              && (forall i :: 0 <= i < |s| && s[i].status != Deleted ==> s[i] in listed)
  {
    match Online(fetched)
    case Returned(result) => ClientStep(result, s)
    case Threw => ClientStep(ApiResponse(Some(Filter(s, NotDeleted)), None, Some(FallbackDataMessage)), s)
  }

  /** The fallback listing keeps array order: listing a concatenation lists
      each part in turn, so no campaign is repeated or moved. */
  lemma OfflineListingKeepsOrder(s: ClientStore, t: ClientStore)
    ensures GetCampaigns(s + t, NetworkFailure).response.data.value ==
            GetCampaigns(s, NetworkFailure).response.data.value + GetCampaigns(t, NetworkFailure).response.data.value
    ensures GetCampaigns([], NetworkFailure).response.data.value == []
  {
    FilterConcat(s, t, NotDeleted);
  }

  /** Get by id: the backend's answer, or else the first fallback campaign
      with this identifier whatever its status, soft-deleted included. */
  function GetCampaignById(s: ClientStore, id: string, fetched: Fetched<ClientCampaign>): (r: ClientStep<ClientCampaign>)
    ensures r.store == s
    ensures Online(fetched).Returned? ==> r.response == Online(fetched).value
    ensures Online(fetched).Threw? && Locate(s, id) == -1 ==>
              r.response == ApiResponse(None, None, Some(NotFoundMessage))
    ensures Online(fetched).Threw? && Locate(s, id) >= 0 ==>
              r.response == ApiResponse(Some(s[Locate(s, id)]), None, Some(FallbackDataMessage))
  {
    match Online(fetched)
    case Returned(result) => ClientStep(result, s)
    case Threw =>
      var i := Locate(s, id);
      if i == -1 then ClientStep(ApiResponse(None, None, Some(NotFoundMessage)), s)
      else ClientStep(ApiResponse(Some(s[i]), None, Some(FallbackDataMessage)), s)
  }

  /** Create: a backend answer with data gains a success message, any other
      backend answer is passed on; without the backend, the campaign is
      appended under the identifier `String(Date.now())`. */
  function CreateCampaign(s: ClientStore, campaign: Draft, fetched: Fetched<ClientCampaign>, now: nat): (r: ClientStep<ClientCampaign>)
    ensures Online(fetched).Returned? ==> r.store == s
    ensures Online(fetched).Returned? && Online(fetched).value.data.Some? ==>
              r.response == ApiResponse(Online(fetched).value.data, Some(CreatedMessage), None)
    ensures Online(fetched).Returned? && Online(fetched).value.data.None? ==>
              r.response == Online(fetched).value
    ensures Online(fetched).Threw? ==>
              && r.store == s + [campaign.WithId(Decimal(now))]
              && r.response == ApiResponse(Some(campaign.WithId(Decimal(now))), Some(CreatedLocallyMessage), Some(BackendDownMessage))
  {
    match Online(fetched)
    case Returned(result) =>
      if result.data.Some? then ClientStep(ApiResponse(result.data, Some(CreatedMessage), None), s)
      else ClientStep(result, s)
    case Threw =>
      var stored := campaign.WithId(Decimal(now));
      ClientStep(ApiResponse(Some(stored), Some(CreatedLocallyMessage), Some(BackendDownMessage)), s + [stored])
  }

  /** `{ ...c, ...patch }`: every key the patch has replaces the campaign's,
      every other key is kept. */
  function Apply(c: ClientCampaign, p: Patch): (r: ClientCampaign)
    ensures r.id == c.id
    ensures r.name == (if p.name.Some? then p.name.value else c.name)
    ensures r.description == (if p.description.Some? then p.description.value else c.description)
    ensures r.status == (if p.status.Some? then p.status.value else c.status)
    ensures r.leads == (if p.leads.Some? then p.leads.value else c.leads)
    ensures r.accountIDs == (if p.accountIDs.Some? then p.accountIDs.value else c.accountIDs)
  {
    c.(name := if p.name.Some? then p.name.value else c.name,
       description := if p.description.Some? then p.description.value else c.description,
       status := if p.status.Some? then p.status.value else c.status,
       leads := if p.leads.Some? then p.leads.value else c.leads,
       accountIDs := if p.accountIDs.Some? then p.accountIDs.value else c.accountIDs)
  }

  /** The patch with no keys. */
  const EmptyPatch := Patch(None, None, None, None, None)

  /** `{ ...p, ...q }`: the keys of `q` win over those of `p`. */
  function Then(p: Patch, q: Patch): Patch {
    Patch(if q.name.Some? then q.name else p.name,
          if q.description.Some? then q.description else p.description,
          if q.status.Some? then q.status else p.status,
          if q.leads.Some? then q.leads else p.leads,
          if q.accountIDs.Some? then q.accountIDs else p.accountIDs)
  }

  /** Spreading obeys the laws of a monoid action: the empty patch changes
      nothing, and two patches in turn act as their merge. */
  lemma PatchLaws(c: ClientCampaign, p: Patch, q: Patch)
    ensures Apply(c, EmptyPatch) == c
    ensures Apply(Apply(c, p), q) == Apply(c, Then(p, q))
  {
  }

  /** A patch that has every key overrides the whole campaign but its
      identifier: what the campaign held before no longer shows. */
  lemma FullPatchForgets(c: ClientCampaign, d: ClientCampaign, p: Patch)
    requires c.id == d.id
    requires p.name.Some? && p.description.Some? && p.status.Some? && p.leads.Some? && p.accountIDs.Some?
    ensures Apply(c, p) == Apply(d, p)
  {
  }

  /** Applying the same patch twice is applying it once. */
  lemma ApplyIsIdempotent(c: ClientCampaign, p: Patch)
    ensures Apply(Apply(c, p), p) == Apply(c, p)
  {
  }

  /** Update: as create for the backend's answer; without the backend, the
      first campaign with the identifier is patched in place and nothing else
      changes, or `Campaign not found` is answered with the array untouched.
      There is no status check, so a patch may soft-delete or revive. */
  function UpdateCampaign(s: ClientStore, id: string, patch: Patch, fetched: Fetched<ClientCampaign>): (r: ClientStep<ClientCampaign>)
    ensures Online(fetched).Returned? ==> r.store == s
    ensures Online(fetched).Returned? && Online(fetched).value.data.Some? ==>
              r.response == ApiResponse(Online(fetched).value.data, Some(UpdatedMessage), None)
    ensures Online(fetched).Returned? && Online(fetched).value.data.None? ==>
              r.response == Online(fetched).value
    ensures Online(fetched).Threw? && Locate(s, id) == -1 ==>
              r == ClientStep(ApiResponse(None, None, Some(NotFoundMessage)), s)
    ensures Online(fetched).Threw? && Locate(s, id) >= 0 ==>
              var i := Locate(s, id);
              && |r.store| == |s|
              && r.store[i] == Apply(s[i], patch)
              && (forall j :: 0 <= j < |s| && j != i ==> r.store[j] == s[j])
              && r.response == ApiResponse(Some(r.store[i]), Some(UpdatedLocallyMessage), Some(BackendDownMessage))
  {
    match Online(fetched)
    case Returned(result) =>
      if result.data.Some? then ClientStep(ApiResponse(result.data, Some(UpdatedMessage), None), s)
      else ClientStep(result, s)
    case Threw =>
      var i := Locate(s, id);
      if i == -1 then ClientStep(ApiResponse(None, None, Some(NotFoundMessage)), s)
      else
        var c := Apply(s[i], patch);
        ClientStep(ApiResponse(Some(c), Some(UpdatedLocallyMessage), Some(BackendDownMessage)), s[i := c])
  }

  /** Delete: a successful response is answered with a message and no data,
      without reading its body; a failed one with its error; without the
      backend, the first campaign with the identifier is marked `deleted` in
      place, whatever its status was. */
  function DeleteCampaign(s: ClientStore, id: string, fetched: Fetched<()>): (r: ClientStep<()>)
    ensures fetched.Received? && fetched.ok ==>
              r == ClientStep(ApiResponse(None, Some(DeletedMessage), None), s)
    ensures fetched.Received? && !fetched.ok && !fetched.body.Null? ==>
              r == ClientStep(ApiResponse(None, None, Some(FailureError(fetched.status, fetched.statusText, fetched.body).value)), s)
    ensures (fetched.NetworkFailure? || (!fetched.ok && fetched.body.Null?)) && Locate(s, id) == -1 ==>
              r == ClientStep(ApiResponse(None, None, Some(NotFoundMessage)), s)
    ensures (fetched.NetworkFailure? || (!fetched.ok && fetched.body.Null?)) && Locate(s, id) >= 0 ==>
              var i := Locate(s, id);
              && |r.store| == |s|
              && r.store[i] == s[i].(status := Deleted)
              && (forall j :: 0 <= j < |s| && j != i ==> r.store[j] == s[j])
              && r.response == ApiResponse(None, Some(DeletedLocallyMessage), Some(BackendDownMessage))
  {
    var attempt :=
      match fetched
      case NetworkFailure => Threw
      case Received(ok, status, statusText, body) =>
        if !ok then
          match FailureError(status, statusText, body)
          case Threw => Threw
          case Returned(e) => Returned(ApiResponse(None, None, Some(e)))
        else Returned(ApiResponse(None, Some(DeletedMessage), None));
    match attempt
    case Returned(result) => ClientStep(result, s)
    case Threw =>
      var i := Locate(s, id);
      if i == -1 then ClientStep(ApiResponse(None, None, Some(NotFoundMessage)), s)
      else ClientStep(ApiResponse(None, Some(DeletedLocallyMessage), Some(BackendDownMessage)), s[i := s[i].(status := Deleted)])
  }

  /** Replacing an element by one with the same identifier leaves every
      lookup landing on the same index. */
  lemma LocateAfterReplace(s: ClientStore, i: int, c: ClientCampaign, id: string)
    requires 0 <= i < |s| && c.id == s[i].id
    ensures Locate(s[i := c], id) == Locate(s, id)
  {
    var t := s[i := c];
    if Locate(s, id) == -1 {
      assert forall j :: 0 <= j < |t| ==> t[j].id != id;
    } else {
      assert t[Locate(s, id)].id == id;
      assert forall j :: 0 <= j < Locate(s, id) ==> t[j].id != id;
    }
  }

  /** The fallback delete is idempotent, and, unlike the backend, it leaves a
      soft-deleted campaign readable by id: fallback get still returns it,
      now with status `deleted`, while the fallback listing drops it. */
  lemma LocalDeleteIsSoft(s: ClientStore, id: string)
    requires Locate(s, id) >= 0
    ensures var after := DeleteCampaign(s, id, NetworkFailure).store;
            && DeleteCampaign(after, id, NetworkFailure).store == after
            && GetCampaignById(after, id, NetworkFailure).response.data == Some(s[Locate(s, id)].(status := Deleted))
            && after[Locate(s, id)] !in GetCampaigns(after, NetworkFailure).response.data.value
  {
    var i := Locate(s, id);
    var after := DeleteCampaign(s, id, NetworkFailure).store;
    LocateAfterReplace(s, i, after[i], id);
    assert after[i := after[i].(status := Deleted)] == after;
  }

  /** A campaign created without the backend under an identifier not yet in
      the array is read back as created; if the array already holds that
      identifier (two creates within one clock tick), the new campaign is
      shadowed by the older one and can never be read, updated or deleted
      by id. */
  lemma LocalCreateThenGet(s: ClientStore, campaign: Draft, now: nat)
    ensures var r := CreateCampaign(s, campaign, NetworkFailure, now);
            Locate(s, Decimal(now)) == -1 ==>
              GetCampaignById(r.store, Decimal(now), NetworkFailure).response.data == Some(campaign.WithId(Decimal(now)))
    ensures var r := CreateCampaign(s, campaign, NetworkFailure, now);
            Locate(s, Decimal(now)) >= 0 ==>
              Locate(r.store, Decimal(now)) == Locate(s, Decimal(now)) < |s|
  {
    var r := CreateCampaign(s, campaign, NetworkFailure, now);
    var id := Decimal(now);
    if Locate(s, id) == -1 {
      assert r.store[|s|].id == id;
      assert Locate(r.store, id) == |s|;
    } else {
      assert r.store[..|s|] == s;
      assert r.store[Locate(s, id)] == s[Locate(s, id)];
    }
  }

  /** After a fallback update, fallback get returns the patched campaign. */
  lemma LocalUpdateThenGet(s: ClientStore, id: string, patch: Patch)
    requires Locate(s, id) >= 0
    ensures var after := UpdateCampaign(s, id, patch, NetworkFailure).store;
            GetCampaignById(after, id, NetworkFailure).response.data == Some(Apply(s[Locate(s, id)], patch))
  {
    var i := Locate(s, id);
    LocateAfterReplace(s, i, Apply(s[i], patch), id);
  }

  /** A reachable backend wins: whatever the array holds, calls whose
      response is read successfully neither consult nor change it. */
  lemma BackendAnswerIgnoresStore(s: ClientStore, t: ClientStore, id: string, patch: Patch, fetched: Fetched<ClientCampaign>)
    requires fetched.Received? && fetched.ok && fetched.body.Parsed?
    ensures GetCampaignById(s, id, fetched).response == GetCampaignById(t, id, fetched).response
    ensures UpdateCampaign(s, id, patch, fetched) == ClientStep(ApiResponse(Some(fetched.body.payload), Some(UpdatedMessage), None), s)
  {
  }

  /** The profile the message form sends. */
  datatype LinkedInProfile = LinkedInProfile(name: string, jobTitle: string, company: string, location: string, summary: string)

  /** `{ message, model? }`. */
  datatype MessageData = MessageData(message: string, model: Option<string>)

  const TemplateClosing :=
    ". I'd like to connect to discuss how our campaign management system could help with your outreach efforts."
    + "\n\nWould you be open to a quick conversation?\n\nBest regards,\nCampaign Management Team"

  /** The message drafted in the browser when the backend cannot draft one. */
  function Template(p: LinkedInProfile): string {
    "Hi " + p.name + ",\n\nI noticed you're a " + p.jobTitle + " at " + p.company + TemplateClosing
  }

  /** The answer given when the backend cannot draft a message. */
  function FallbackReply(p: LinkedInProfile): ApiResponse<MessageData> {
    ApiResponse(Some(MessageData(Template(p), Some(FallbackModel))), None, Some(FallbackTemplateMessage))
  }

  /** Message generation: a successful response with data is answered as
      is; every failure (no backend, an error status, a body without data or
      that cannot be read) is answered with the template and the model name
      `fallback-template`. */
  function GeneratePersonalizedMessage(p: LinkedInProfile, fetched: Fetched<MessageData>): (r: ApiResponse<MessageData>)
    ensures fetched.Received? && fetched.ok && fetched.body.Parsed? ==>
              r == ApiResponse(Some(fetched.body.payload), None, None)
    ensures !(fetched.Received? && fetched.ok && fetched.body.Parsed?) ==>
              r == FallbackReply(p)
  {
    var attempt :=
      match Online(fetched)
      case Threw => Threw
      case Returned(result) => if result.data.Some? then Returned(result) else Threw;
    match attempt
    case Returned(result) => result
    case Threw => FallbackReply(p)
  }

  /** The browser's template depends on name, job title and company only. */
  lemma TemplateIgnoresContext(p: LinkedInProfile, location: string, summary: string, fetched: Fetched<MessageData>)
    requires !(fetched.Received? && fetched.ok && fetched.body.Parsed?)
    ensures GeneratePersonalizedMessage(p.(location := location, summary := summary), fetched) ==
            GeneratePersonalizedMessage(p, fetched)
  {
  }
}
