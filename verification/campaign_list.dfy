/** The campaign table: its local copy of the campaigns is updated after a
    status switch or a delete succeeds on the client, and long descriptions
    are shortened for display. The confirmation dialog is a parameter. */
module CampaignList {
  import opened Js
  import opened Text
  import opened CampaignSchema
  import opened ClientApi

  /** The patch `updateCampaign(id, { status })` sends. */
  function StatusPatch(isActive: bool): (p: Patch)
    ensures p.status == Some(SwitchStatus(isActive))
    ensures p.name.None? && p.description.None? && p.leads.None? && p.accountIDs.None?
  {
    Patch(None, None, Some(SwitchStatus(isActive)), None, None)
  }

  /** The status patch changes the status alone: applied without the backend
      it yields the campaign with only its status replaced, and a second
      switch to the same position changes nothing more. */
  lemma StatusPatchTouchesOnlyStatus(c: ClientCampaign, isActive: bool)
    ensures Apply(c, StatusPatch(isActive)) == c.(status := SwitchStatus(isActive))
    ensures Apply(Apply(c, StatusPatch(!isActive)), StatusPatch(isActive)) == Apply(c, StatusPatch(isActive))
  {
  }

  /** `handleStatusChange` after the update answered `response`: with data,
      every entry with the identifier takes the new status and every other
      entry stays, in place; without data the list is unchanged. */
  function HandleStatusChange(list: seq<ClientCampaign>, id: string, isActive: bool, response: ApiResponse<ClientCampaign>): (r: seq<ClientCampaign>)
    ensures response.data.None? ==> r == list
    ensures |r| == |list|
    ensures response.data.Some? ==>
              forall i :: 0 <= i < |list| ==>
                r[i] == (if list[i].id == id then list[i].(status := SwitchStatus(isActive)) else list[i])
  {
    if response.data.Some? then
      Map(list, (c: ClientCampaign) => if c.id == id then c.(status := SwitchStatus(isActive)) else c)
    else list
  }

  predicate Other(c: ClientCampaign, id: string) {
    c.id != id
  }

  /** `handleDelete`: nothing happens unless the user confirms; after a
      response with a message the entries with the identifier are dropped and
      the rest keep their order; without a message the list is unchanged. */
  function HandleDelete(list: seq<ClientCampaign>, id: string, confirmed: bool, response: ApiResponse<()>): (r: seq<ClientCampaign>)
    ensures !confirmed || !Truthy(response.message) ==> r == list
    ensures confirmed && Truthy(response.message) ==>
              && (forall i :: 0 <= i < |r| ==> r[i] in list && r[i].id != id)
              && (forall i :: 0 <= i < |list| && list[i].id != id ==> list[i] in r)
  {
    if confirmed && Truthy(response.message) then Filter(list, (c: ClientCampaign) => Other(c, id)) else list
  }

  /** Removing an entry keeps the others in their relative order: deleting
      from a concatenation deletes from each part. */
  lemma DeleteKeepsOrder(xs: seq<ClientCampaign>, ys: seq<ClientCampaign>, id: string, response: ApiResponse<()>)
    requires Truthy(response.message)
    ensures HandleDelete(xs + ys, id, true, response) ==
            HandleDelete(xs, id, true, response) + HandleDelete(ys, id, true, response)
  {
    FilterConcat(xs, ys, (c: ClientCampaign) => Other(c, id));
  }

  /** Once an entry is deleted from the list, a later status change for it
      leaves the list as it is. */
  lemma StatusChangeAfterDelete(list: seq<ClientCampaign>, id: string, isActive: bool,
                                deleted: ApiResponse<()>, updated: ApiResponse<ClientCampaign>)
    requires Truthy(deleted.message)
    ensures var after := HandleDelete(list, id, true, deleted);
            HandleStatusChange(after, id, isActive, updated) == after
  {
  }

  /** The table follows the client: deleting with the backend unreachable
      removes the entry from the table exactly when the fallback array held
      it, and the switch change recorded offline appears in the table. */
  lemma TableFollowsOfflineClient(s: ClientStore, list: seq<ClientCampaign>, id: string, isActive: bool)
    ensures var answer := ClientApi.DeleteCampaign(s, id, NetworkFailure).response;
            HandleDelete(list, id, true, answer) ==
              if Locate(s, id) >= 0 then Filter(list, (c: ClientCampaign) => Other(c, id)) else list
    ensures var answer := ClientApi.UpdateCampaign(s, id, StatusPatch(isActive), NetworkFailure).response;
            Locate(s, id) >= 0 <==> answer.data.Some?
    ensures var answer := ClientApi.UpdateCampaign(s, id, StatusPatch(isActive), NetworkFailure).response;
            Locate(s, id) >= 0 ==> answer.data.value.status == SwitchStatus(isActive)
  {
  }

  /** The longest description shown unshortened. */
  const ShownLength := 50

  /** A description longer than fifty characters is shown as its first fifty
      followed by `...`. */
  function Truncate(d: string): (r: string)
    ensures |d| <= ShownLength ==> r == d
    ensures |d| > ShownLength ==> |r| == ShownLength + 3 && r[..ShownLength] == d[..ShownLength]
    ensures |d| > ShownLength ==> r[ShownLength..] == "..."
  {
    if |d| > ShownLength then d[..ShownLength] + "..." else d
  }

  /** Shortening an already shortened description changes nothing. */
  lemma TruncateIsIdempotent(d: string)
    ensures Truncate(Truncate(d)) == Truncate(d)
  {
    if |d| > ShownLength {
      var r := Truncate(d);
      assert r[..ShownLength] + "..." == r;
    }
  }

  /** The table's switch and badge as written: on, and the primary badge, only
      for the status `"ACTIVE"`, which no stored status ever is. */
  function SwitchOnAsWritten(c: ClientCampaign): bool {
    StatusText(c.status) == "ACTIVE"
  }

  /** Every row's switch shows off, active campaigns included. */
  lemma ActiveRowsShowOff(c: ClientCampaign)
    ensures !SwitchOnAsWritten(c)
  {
  }

  /** The switch compared with the stored value. */
  function SwitchOn(c: ClientCampaign): (on: bool)
    ensures on <==> c.status == Active
  {
    StatusText(c.status) == "active"
  }

  /** With the stored value compared, the switch shows the status a status
      change just recorded. */
  lemma SwitchShowsRecordedStatus(list: seq<ClientCampaign>, id: string, isActive: bool, response: ApiResponse<ClientCampaign>, i: nat)
    requires response.data.Some?
    requires i < |list| && list[i].id == id
    ensures SwitchOn(HandleStatusChange(list, id, isActive, response)[i]) == isActive
  {
  }
}
