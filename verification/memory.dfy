/** The older in-memory campaign controller: the same five operations over a
    module-level array of campaigns, searched by index. It has no identifier
    format check, accepts a create without name or description, stores the
    request's values untrimmed and unfiltered, and lets update set `deleted`.
    `newId` is the generated UUID and `now` a clock reading. */
module MemoryController {
  import opened Js
  import opened Text
  import opened CampaignSchema
  import opened Http

  type Store = seq<Campaign>

  /** `campaigns.findIndex(c => c.id === id)`. */
  function Locate(s: Store, id: string): (r: int)
    ensures -1 <= r < |s|
    ensures r == -1 <==> forall i :: 0 <= i < |s| ==> s[i].id != id
    ensures r >= 0 ==> s[r].id == id && forall i :: 0 <= i < r ==> s[i].id != id
  {
    FindIndex(s, (c: Campaign) => c.id == id)
  }

  /** The first campaign with this identifier exists and is not soft-deleted. */
  predicate Visible(s: Store, id: string) {
    var i := Locate(s, id);
    i >= 0 && s[i].status != Deleted
  }

  predicate NotDeleted(c: Campaign) {
    c.status != Deleted
  }

  /** No two campaigns share an identifier, as fresh UUIDs guarantee. */
  predicate UniqueIds(s: Store) {
    forall i, j :: 0 <= i < j < |s| ==> s[i].id != s[j].id
  }

  /** Listing: the campaigns whose status is not `deleted`, in array order. */
  function GetCampaigns(s: Store): (r: Response)
    ensures r.code == 200 && r.reply.Many?
    ensures forall i :: 0 <= i < |r.reply.campaigns| ==>
              r.reply.campaigns[i] in s && r.reply.campaigns[i].status != Deleted
    ensures forall i :: 0 <= i < |s| && s[i].status != Deleted ==> s[i] in r.reply.campaigns
  {
    Response(200, Many(Filter(s, NotDeleted)))
  }

  /** The listing keeps array order: listing a concatenation lists each part
      in turn. */
  lemma ListingKeepsOrder(s: Store, t: Store)
    ensures GetCampaigns(s + t).reply.campaigns ==
            GetCampaigns(s).reply.campaigns + GetCampaigns(t).reply.campaigns
  {
    FilterConcat(s, t, NotDeleted);
  }

  /** Get by id: 404 when no campaign has the identifier or the first one that
      does is soft-deleted. Any string is looked up; there is no format check. */
  function GetCampaignById(s: Store, id: string): (r: Response)
    ensures r.code == 200 || r.code == 404
    ensures r.code == 200 <==> Visible(s, id)
    ensures r.code == 200 ==> r.reply == One(s[Locate(s, id)])
    ensures r.code == 404 ==> r.reply == Problem(NotFoundMessage)
  {
    var i := Locate(s, id);
    if i == -1 then Response(404, Problem(NotFoundMessage))
    else if s[i].status == Deleted then Response(404, Problem(NotFoundMessage))
    else Response(200, One(s[i]))
  }

  /** Create: the only check is that a truthy status is one of the three
      values. Exactly one campaign is appended, holding the request's values
      as given, `active` when no status was given, and `[]` for missing
      arrays. */
  function CreateCampaign(s: Store, body: RequestBody, newId: string, now: nat): (r: Step<Store>)
    ensures r.response.code == 400 <==> RejectsStatus(body.status)
    ensures r.response.code == 400 ==> r == Step(Response(400, Problem(InvalidStatusMessage)), s)
    ensures r.response.code != 400 ==>
              && r.response.code == 201
              && |r.store| == |s| + 1
              && r.store[..|s|] == s
              && r.response.reply == One(r.store[|s|])
    ensures r.response.code != 400 ==>
              var c := r.store[|s|];
              && c.id == newId && c.createdAt == now && c.updatedAt == now
              && c.name == body.name && c.description == body.description
              && c.status == RequestedStatus(body.status, Active)
              && c.leads == ArrayOrElse(body.leads, [])
              && c.accountIDs == ArrayOrElse(body.accountIDs, [])
  {
    if RejectsStatus(body.status) then
      Step(Response(400, Problem(InvalidStatusMessage)), s)
    else
      var c := Campaign(
        newId,
        body.name,
        body.description,
        RequestedStatus(body.status, Active),
        ArrayOrElse(body.leads, []),
        ArrayOrElse(body.accountIDs, []),
        now,
        now);
      Step(Response(201, One(c)), s + [c])
  }

  /** `name: name || old.name` and its siblings: each field takes the new
      value when it is truthy and keeps the old one otherwise. */
  function Merged(c: Campaign, body: RequestBody, now: nat): Campaign {
    c.(name := if Truthy(body.name) then body.name else c.name,
       description := if Truthy(body.description) then body.description else c.description,
       status := RequestedStatus(body.status, c.status),
       leads := ArrayOrElse(body.leads, c.leads),
       accountIDs := ArrayOrElse(body.accountIDs, c.accountIDs),
       updatedAt := now)
  }

  /** Update: the status check comes first, then the lookup. Only the element
      at the found index is replaced; `deleted` is an acceptable new status. */
  function UpdateCampaign(s: Store, id: string, body: RequestBody, now: nat): (r: Step<Store>)
    ensures RejectsStatus(body.status) ==> r == Step(Response(400, Problem(InvalidStatusMessage)), s)
    ensures !RejectsStatus(body.status) && !Visible(s, id) ==>
              r == Step(Response(404, Problem(NotFoundMessage)), s)
    ensures r.response.code == 200 <==> !RejectsStatus(body.status) && Visible(s, id)
    ensures r.response.code == 200 ==>
              var i := Locate(s, id);
              && |r.store| == |s|
              && (forall j :: 0 <= j < |s| && j != i ==> r.store[j] == s[j])
              && r.response.reply == One(r.store[i])
    ensures r.response.code == 200 ==>
              var was := s[Locate(s, id)];
              var c := r.store[Locate(s, id)];
              && c.id == was.id && c.createdAt == was.createdAt && c.updatedAt == now
              && (if Truthy(body.name) then c.name == body.name else c.name == was.name)
              && (if Truthy(body.description) then c.description == body.description
                  else c.description == was.description)
              && (if Truthy(body.status) then StatusText(c.status) == body.status.value else c.status == was.status)
              && (if body.leads.Some? then c.leads == body.leads.value else c.leads == was.leads)
              && (if body.accountIDs.Some? then c.accountIDs == body.accountIDs.value
                  else c.accountIDs == was.accountIDs)
  {
    if RejectsStatus(body.status) then
      Step(Response(400, Problem(InvalidStatusMessage)), s)
    else
      var i := Locate(s, id);
      if i == -1 then Step(Response(404, Problem(NotFoundMessage)), s)
      else if s[i].status == Deleted then Step(Response(404, Problem(NotFoundMessage)), s)
      else
        var c := Merged(s[i], body, now);
        Step(Response(200, One(c)), s[i := c])
  }

  /** Soft delete: the found element's status becomes `deleted` and its
      `updatedAt` is re-stamped; the length and every other element stay. */
  function DeleteCampaign(s: Store, id: string, now: nat): (r: Step<Store>)
    ensures !Visible(s, id) ==> r == Step(Response(404, Problem(NotFoundMessage)), s)
    ensures Visible(s, id) ==>
              var i := Locate(s, id);
              && r.response.code == 200
              && |r.store| == |s|
              && r.store[i] == s[i].(status := Deleted, updatedAt := now)
              && (forall j :: 0 <= j < |s| && j != i ==> r.store[j] == s[j])
              && r.response.reply == Removed(DeletedMessage, r.store[i])
  {
    var i := Locate(s, id);
    if i == -1 then Step(Response(404, Problem(NotFoundMessage)), s)
    else if s[i].status == Deleted then Step(Response(404, Problem(NotFoundMessage)), s)
    else
      var c := s[i].(status := Deleted, updatedAt := now);
      Step(Response(200, Removed(DeletedMessage, c)), s[i := c])
  }

  /** Replacing an element by one with the same identifier leaves every
      lookup landing on the same index. */
  lemma LocateAfterReplace(s: Store, i: int, c: Campaign, id: string)
    requires 0 <= i < |s| && c.id == s[i].id
    ensures Locate(s[i := c], id) == Locate(s, id)
  {
    var t := s[i := c];
    var a := Locate(s, id);
    var b := Locate(t, id);
    if a == -1 {
      assert forall j :: 0 <= j < |t| ==> t[j].id != id;
    } else {
      assert t[a].id == id;
      assert forall j :: 0 <= j < a ==> t[j].id != id;
    }
  }

  /** After a successful delete, get and update answer 404, a second delete
      answers 404 and changes nothing, and, with unique identifiers, the
      listing no longer holds any campaign with that identifier. */
  lemma DeleteIsFinal(s: Store, id: string, now: nat)
    requires DeleteCampaign(s, id, now).response.code == 200
    ensures var after := DeleteCampaign(s, id, now).store;
            && GetCampaignById(after, id).code == 404
            && (forall later: nat :: DeleteCampaign(after, id, later) ==
                                     Step(Response(404, Problem(NotFoundMessage)), after))
            && (forall body: RequestBody, later: nat ::
                  UpdateCampaign(after, id, body, later).response.code != 200)
    ensures UniqueIds(s) ==>
              var listed := GetCampaigns(DeleteCampaign(s, id, now).store).reply.campaigns;
              forall k :: 0 <= k < |listed| ==> listed[k].id != id
  {
    var i := Locate(s, id);
    var after := DeleteCampaign(s, id, now).store;
    LocateAfterReplace(s, i, after[i], id);
    assert !Visible(after, id);
  }

  /** Unlike the persisted controller, update here can soft-delete: a
      request with status `deleted` on a visible campaign succeeds, and the
      campaign then reads as not found. */
  lemma UpdateCanSoftDelete(s: Store, id: string, body: RequestBody, now: nat)
    requires Visible(s, id)
    requires body.status == Some("deleted")
    ensures var r := UpdateCampaign(s, id, body, now);
            && r.response.code == 200
            && r.response.reply.campaign.status == Deleted
            && GetCampaignById(r.store, id).code == 404
  {
    var r := UpdateCampaign(s, id, body, now);
    LocateAfterReplace(s, Locate(s, id), r.store[Locate(s, id)], id);
  }

  /** A successful update reads back as the merged campaign (or as not found
      when the update set `deleted`), and identifiers stay unique. */
  lemma UpdateThenGet(s: Store, id: string, body: RequestBody, now: nat)
    ensures var r := UpdateCampaign(s, id, body, now);
            r.response.code == 200 ==>
              var c := Merged(s[Locate(s, id)], body, now);
              GetCampaignById(r.store, id) ==
                if c.status == Deleted then Response(404, Problem(NotFoundMessage)) else Response(200, One(c))
    ensures UniqueIds(s) ==> UniqueIds(UpdateCampaign(s, id, body, now).store)
  {
    var r := UpdateCampaign(s, id, body, now);
    if r.response.code == 200 {
      var i := Locate(s, id);
      LocateAfterReplace(s, i, r.store[i], id);
    }
  }

  /** A campaign created under a fresh identifier is read back as created
      (unless it was created `deleted`), and identifiers stay unique. */
  lemma CreateThenGet(s: Store, body: RequestBody, newId: string, now: nat)
    requires forall i :: 0 <= i < |s| ==> s[i].id != newId
    requires CreateCampaign(s, body, newId, now).response.code == 201
    ensures var r := CreateCampaign(s, body, newId, now);
            var c := r.response.reply.campaign;
            GetCampaignById(r.store, newId) ==
              if c.status == Deleted then Response(404, Problem(NotFoundMessage)) else Response(200, One(c))
    ensures UniqueIds(s) ==> UniqueIds(CreateCampaign(s, body, newId, now).store)
  {
    var r := CreateCampaign(s, body, newId, now);
    assert r.store[|s|].id == newId;
    assert Locate(r.store, newId) == |s|;
  }
}
