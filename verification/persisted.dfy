/** The database-backed campaign controller: list, get by id, create, partial
    update and soft delete over the Campaign collection. The collection is a
    map from document identifier to document; `validId` is the identifier
    format check of the document database (`ObjectId.isValid`), `now` a clock
    reading, and `newId` the identifier the database assigns to an insert. */
module PersistedController {
  import opened Js
  import opened Text
  import opened CampaignSchema
  import opened Http

  type Store = map<string, Campaign>

  /** A document is stored under its own identifier. */
  predicate Keyed(s: Store) {
    forall k :: k in s ==> s[k].id == k
  }

  /** What the collection holds between requests: every document under its
      own identifier, identifiers and account ids in the identifier format,
      and the schema's required paths filled with trimmed text. */
  predicate Valid(s: Store, validId: string -> bool) {
    forall k :: k in s ==>
      && s[k].id == k
      && validId(k)
      && ConformsToSchema(s[k])
      && forall a :: a in s[k].accountIDs ==> validId(a)
  }

  /** The record under `id` exists and has not been soft-deleted. */
  predicate Visible(s: Store, id: string) {
    id in s && s[id].status != Deleted
  }

  /** Listing: every stored campaign whose status is not `deleted`, each
      once, in whatever order the collection yields them. */
  method GetCampaigns(s: Store) returns (r: Response)
    requires Keyed(s)
    ensures r.code == 200 && r.reply.Many?
    ensures forall c :: c in r.reply.campaigns <==> c in s.Values && c.status != Deleted
    ensures forall i, j :: 0 <= i < j < |r.reply.campaigns| ==>
              r.reply.campaigns[i].id != r.reply.campaigns[j].id
  {
    var pending := s.Keys;
    var found: seq<Campaign> := [];
    while pending != {}
      invariant pending <= s.Keys
      invariant forall c :: c in found ==> c.id in s && s[c.id] == c && c.status != Deleted && c.id !in pending
      invariant forall k :: k in s && k !in pending && s[k].status != Deleted ==> s[k] in found
      invariant forall i, j :: 0 <= i < j < |found| ==> found[i].id != found[j].id
      decreases pending
    {
      var k :| k in pending;
      if s[k].status != Deleted {
        found := found + [s[k]];
      }
      pending := pending - {k};
    }
    r := Response(200, Many(found));
  }

  /** Get by id: a malformed identifier is refused before any lookup; an
      absent or soft-deleted record is not found. */
  function GetCampaignById(s: Store, validId: string -> bool, id: string): (r: Response)
    ensures r.code == 400 <==> !validId(id)
    ensures r.code == 404 <==> validId(id) && !Visible(s, id)
    ensures r.code == 200 <==> validId(id) && Visible(s, id)
    ensures r.code == 200 ==> r.reply == One(s[id])
    ensures r.code == 400 ==> r.reply == Problem(InvalidIdMessage)
    ensures r.code == 404 ==> r.reply == Problem(NotFoundMessage)
  {
    if !validId(id) then Response(400, Problem(InvalidIdMessage))
    else if !Visible(s, id) then Response(404, Problem(NotFoundMessage))
    else Response(200, One(s[id]))
  }

  /** Create: `name` and `description` must be truthy and a truthy status
      must be one of the three values (`deleted` included). The document
      takes the trimmed text, the status or `active`, the leads or `[]`, and
      only the account ids in identifier format, in order. A blank name or
      description fails the schema and a clashing identifier fails the
      insert; both surface as the controller's catch-all 400. */
  function CreateCampaign(s: Store, validId: string -> bool, body: RequestBody, newId: string, now: nat): (r: Step<Store>)
    ensures r.response.code == 201 || r.response.code == 400
    ensures r.response.code == 400 ==> r.store == s && r.response.reply.Problem?
    ensures !Truthy(body.name) || !Truthy(body.description) ==>
              r.response.reply == Problem(RequiredMessage)
    ensures Truthy(body.name) && Truthy(body.description) && RejectsStatus(body.status) ==>
              r.response.reply == Problem(InvalidStatusMessage)
    ensures r.response.code == 201 <==>
              && Truthy(body.name) && Truthy(body.description) && !RejectsStatus(body.status)
              && !IsBlank(body.name.value) && !IsBlank(body.description.value)
              && newId !in s
    ensures r.response.code == 201 ==>
              && r.response.reply.One?
              && r.store == s[newId := r.response.reply.campaign]
              && ConformsToSchema(r.response.reply.campaign)
    ensures r.response.code == 201 ==>
              var c := r.response.reply.campaign;
              && c.id == newId && c.createdAt == now && c.updatedAt == now
              && c.name == Some(Trim(body.name.value))
              && c.description == Some(Trim(body.description.value))
              && c.status == RequestedStatus(body.status, Active)
              && c.leads == ArrayOrElse(body.leads, [])
              && c.accountIDs == Filter(ArrayOrElse(body.accountIDs, []), validId)
  {
    if !Truthy(body.name) || !Truthy(body.description) then
      Step(Response(400, Problem(RequiredMessage)), s)
    else if RejectsStatus(body.status) then
      Step(Response(400, Problem(InvalidStatusMessage)), s)
    else
      var fields := Fields(
        body.name,
        body.description,
        Some(RequestedStatus(body.status, Active)),
        Some(ArrayOrElse(body.leads, [])),
        Some(Filter(ArrayOrElse(body.accountIDs, []), validId)));
      match NewDocument(newId, fields, now)
      case None => Step(Response(400, Problem(CreateErrorMessage)), s)
      case Some(c) =>
        if newId in s then Step(Response(400, Problem(CreateErrorMessage)), s)
        else Step(Response(201, One(c)), s[newId := c])
  }

  /** The document after `$set` of the request's truthy fields: trimmed
      text, a valid status, any array (even `[]`), the account ids filtered
      to the identifier format; `updatedAt` is re-stamped. */
  function Patched(c: Campaign, body: RequestBody, validId: string -> bool, now: nat): Campaign {
    c.(name := if Truthy(body.name) then Some(Trim(body.name.value)) else c.name,
       description := if Truthy(body.description) then Some(Trim(body.description.value)) else c.description,
       status := RequestedStatus(body.status, c.status),
       leads := ArrayOrElse(body.leads, c.leads),
       accountIDs := if body.accountIDs.Some? then Filter(body.accountIDs.value, validId) else c.accountIDs,
       updatedAt := now)
  }

  /** A supplied text field that trims to nothing fails the schema. */
  predicate BlanksRequired(v: Option<string>) {
    Truthy(v) && IsBlank(v.value)
  }

  /** Partial update. The checks run in this order: identifier format, status
      value, refusal of `deleted`, existence; a schema failure on the new
      text comes last. Every refusal leaves the store as it was. On success
      only the fields supplied with truthy values change. */
  function UpdateCampaign(s: Store, validId: string -> bool, id: string, body: RequestBody, now: nat): (r: Step<Store>)
    ensures r.response.code in {200, 400, 404}
    ensures r.response.code != 200 ==> r.store == s && r.response.reply.Problem?
    ensures !validId(id) ==> r.response == Response(400, Problem(InvalidIdMessage))
    ensures validId(id) && RejectsStatus(body.status) ==>
              r.response == Response(400, Problem(InvalidStatusMessage))
    ensures validId(id) && body.status == Some("deleted") ==>
              r.response == Response(400, Problem(DeletedStatusMessage))
    ensures validId(id) && !RejectsStatus(body.status) && body.status != Some("deleted") && !Visible(s, id) ==>
              r.response == Response(404, Problem(NotFoundMessage))
    ensures r.response.code == 404 <==>
              validId(id) && !RejectsStatus(body.status) && body.status != Some("deleted") && !Visible(s, id)
    ensures validId(id) && !RejectsStatus(body.status) && body.status != Some("deleted") && Visible(s, id)
              && (BlanksRequired(body.name) || BlanksRequired(body.description)) ==>
              r.response == Response(400, Problem(UpdateErrorMessage))
    ensures r.response.code == 200 <==>
              && validId(id) && !RejectsStatus(body.status) && body.status != Some("deleted")
              && Visible(s, id) && !BlanksRequired(body.name) && !BlanksRequired(body.description)
    ensures r.response.code == 200 ==>
              && r.store.Keys == s.Keys
              && r.response.reply == One(r.store[id])
              && (forall k :: k in s && k != id ==> r.store[k] == s[k])
    ensures r.response.code == 200 ==>
              var was := s[id];
              var c := r.store[id];
              && c.id == was.id && c.createdAt == was.createdAt && c.updatedAt == now
              && c.status != Deleted
              && (if Truthy(body.name) then c.name == Some(Trim(body.name.value)) else c.name == was.name)
              && (if Truthy(body.description) then c.description == Some(Trim(body.description.value))
                  else c.description == was.description)
              && (if Truthy(body.status) then StatusText(c.status) == body.status.value else c.status == was.status)
              && (if body.leads.Some? then c.leads == body.leads.value else c.leads == was.leads)
              && (if body.accountIDs.Some? then c.accountIDs == Filter(body.accountIDs.value, validId)
                  else c.accountIDs == was.accountIDs)
  {
    if !validId(id) then
      Step(Response(400, Problem(InvalidIdMessage)), s)
    else if RejectsStatus(body.status) then
      Step(Response(400, Problem(InvalidStatusMessage)), s)
    else if Truthy(body.status) && body.status.value == "deleted" then
      Step(Response(400, Problem(DeletedStatusMessage)), s)
    else if !Visible(s, id) then
      Step(Response(404, Problem(NotFoundMessage)), s)
    else if BlanksRequired(body.name) || BlanksRequired(body.description) then
      Step(Response(400, Problem(UpdateErrorMessage)), s)
    else
      var c := Patched(s[id], body, validId, now);
      Step(Response(200, One(c)), s[id := c])
  }

  /** Soft delete: the record's status becomes `deleted` and it is returned
      with the confirmation message; nothing else in the store changes. */
  function DeleteCampaign(s: Store, validId: string -> bool, id: string, now: nat): (r: Step<Store>)
    ensures !validId(id) ==> r == Step(Response(400, Problem(InvalidIdMessage)), s)
    ensures validId(id) && !Visible(s, id) ==> r == Step(Response(404, Problem(NotFoundMessage)), s)
    ensures validId(id) && Visible(s, id) ==>
              && r.response.code == 200
              && r.store == s[id := s[id].(status := Deleted, updatedAt := now)]
              && r.response.reply == Removed(DeletedMessage, r.store[id])
  {
    if !validId(id) then
      Step(Response(400, Problem(InvalidIdMessage)), s)
    else if !Visible(s, id) then
      Step(Response(404, Problem(NotFoundMessage)), s)
    else
      var c := s[id].(status := Deleted, updatedAt := now);
      Step(Response(200, Removed(DeletedMessage, c)), s[id := c])
  }

  /** After a successful delete the record is gone from every read and write
      path: the listing omits it, get and update answer 404, and a second
      delete answers 404 and changes nothing. */
  lemma DeleteIsFinal(s: Store, validId: string -> bool, id: string, now: nat)
    requires Keyed(s)
    requires DeleteCampaign(s, validId, id, now).response.code == 200
    ensures var after := DeleteCampaign(s, validId, id, now).store;
            && Keyed(after)
            && (forall c :: c in after.Values && c.status != Deleted ==> c.id != id)
            && GetCampaignById(after, validId, id).code == 404
            && (forall later: nat :: DeleteCampaign(after, validId, id, later) ==
                                     Step(Response(404, Problem(NotFoundMessage)), after))
            && (forall body: RequestBody, later: nat ::
                  UpdateCampaign(after, validId, id, body, later).response.code != 200)
    ensures var after := DeleteCampaign(s, validId, id, now).store;
            forall body: RequestBody, later: nat ::
              !RejectsStatus(body.status) && body.status != Some("deleted") ==>
                UpdateCampaign(after, validId, id, body, later).response == Response(404, Problem(NotFoundMessage))
  {
  }

  /** A record created with a valid generated identifier can be read back
      unchanged, unless it was created with status `deleted`: the create path
      accepts that value, and such a record is invisible from the start. */
  lemma CreateThenGet(s: Store, validId: string -> bool, body: RequestBody, newId: string, now: nat)
    requires validId(newId) && newId !in s
    requires Truthy(body.name) && !IsBlank(body.name.value)
    requires Truthy(body.description) && !IsBlank(body.description.value)
    requires !RejectsStatus(body.status)
    ensures var r := CreateCampaign(s, validId, body, newId, now);
            var c := r.response.reply.campaign;
            GetCampaignById(r.store, validId, newId) ==
              if c.status == Deleted then Response(404, Problem(NotFoundMessage)) else Response(200, One(c))
  {
  }

  /** Creating with status `deleted` succeeds and yields a record that no read
      path can see. */
  lemma CreateAcceptsDeleted(s: Store, validId: string -> bool, body: RequestBody, newId: string, now: nat)
    requires validId(newId) && newId !in s
    requires Truthy(body.name) && !IsBlank(body.name.value)
    requires Truthy(body.description) && !IsBlank(body.description.value)
    requires body.status == Some("deleted")
    ensures var r := CreateCampaign(s, validId, body, newId, now);
            && r.response.code == 201
            && r.response.reply.campaign.status == Deleted
            && GetCampaignById(r.store, validId, newId).code == 404
  {
  }

  /** Create keeps the collection valid: keys match identifiers, identifiers
      and account ids have the identifier format, and names and descriptions
      are non-empty trimmed text. */
  lemma CreatePreservesValid(s: Store, validId: string -> bool, body: RequestBody, newId: string, now: nat)
    requires Valid(s, validId)
    requires validId(newId)
    ensures Valid(CreateCampaign(s, validId, body, newId, now).store, validId)
  {
  }

  /** Update keeps the collection valid. */
  lemma UpdatePreservesValid(s: Store, validId: string -> bool, id: string, body: RequestBody, now: nat)
    requires Valid(s, validId)
    ensures Valid(UpdateCampaign(s, validId, id, body, now).store, validId)
  {
    var u := UpdateCampaign(s, validId, id, body, now);
    if u.response.code == 200 {
      var was := s[id];
      var c := u.store[id];
      assert RequiredText(c.name) by {
        if !Truthy(body.name) {
          assert c.name == was.name;
        }
      }
      assert RequiredText(c.description) by {
        if !Truthy(body.description) {
          assert c.description == was.description;
        }
      }
      assert forall a :: a in c.accountIDs ==> validId(a);
      assert u.store == s[id := c];
    }
  }

  /** Delete keeps the collection valid. */
  lemma DeletePreservesValid(s: Store, validId: string -> bool, id: string, now: nat)
    requires Valid(s, validId)
    ensures Valid(DeleteCampaign(s, validId, id, now).store, validId)
  {
  }

  /** `deleted` is terminal: no request changes a soft-deleted record again. */
  lemma DeletedIsTerminal(s: Store, validId: string -> bool, id: string, body: RequestBody, newId: string, now: nat)
    requires id in s && s[id].status == Deleted
    ensures var after := CreateCampaign(s, validId, body, newId, now).store; id in after && after[id] == s[id]
    ensures UpdateCampaign(s, validId, id, body, now).store == s
    ensures DeleteCampaign(s, validId, id, now).store == s
  {
  }
}
