/** Where the two campaign controllers agree and where they part ways. A
    collection and an array correspond when they hold the same campaigns
    under the same identifiers. */
module Divergence {
  import opened Js
  import opened CampaignSchema
  import opened Http
  import P = PersistedController
  import M = MemoryController

  /** The identifiers an array holds. */
  function Ids(s: M.Store): set<string> {
    set i | 0 <= i < |s| :: s[i].id
  }

  /** The collection holds exactly the array's campaigns, each under its own
      identifier, and the array repeats no identifier. */
  predicate Corresponds(m: P.Store, s: M.Store) {
    && M.UniqueIds(s)
    && m.Keys == Ids(s)
    && (forall i :: 0 <= i < |s| ==> m[s[i].id] == s[i])
  }

  /** In corresponding stores, a lookup finds the same campaign. */
  lemma LocateCorresponds(m: P.Store, s: M.Store, id: string)
    requires Corresponds(m, s)
    ensures id in m <==> M.Locate(s, id) >= 0
    ensures id in m ==> m[id] == s[M.Locate(s, id)]
  {
    if id in m {
      var i :| 0 <= i < |s| && s[i].id == id;
      assert M.Locate(s, id) != -1;
    }
  }

  /** For a well-formed identifier, get by id answers alike on corresponding
      stores. */
  lemma GetAgrees(m: P.Store, s: M.Store, validId: string -> bool, id: string)
    requires Corresponds(m, s) && validId(id)
    ensures P.GetCampaignById(m, validId, id) == M.GetCampaignById(s, id)
  {
    LocateCorresponds(m, s, id);
  }

  /** For a well-formed identifier, delete answers alike on corresponding
      stores and leaves them corresponding. */
  lemma DeleteAgrees(m: P.Store, s: M.Store, validId: string -> bool, id: string, now: nat)
    requires Corresponds(m, s) && validId(id)
    ensures P.DeleteCampaign(m, validId, id, now).response == M.DeleteCampaign(s, id, now).response
    ensures Corresponds(P.DeleteCampaign(m, validId, id, now).store, M.DeleteCampaign(s, id, now).store)
  {
    LocateCorresponds(m, s, id);
    if P.Visible(m, id) {
      var t := M.DeleteCampaign(s, id, now).store;
      assert forall j :: 0 <= j < |s| ==> t[j].id == s[j].id;
      assert Ids(t) == Ids(s) by {
        forall x | x in Ids(s) ensures x in Ids(t) {
          var j :| 0 <= j < |s| && s[j].id == x;
          assert t[j].id == x;
        }
      }
    }
  }

  /** A campaign one controller creates and the other refuses: a request
      without a name. */
  lemma CreateWithoutNameDiverges(m: P.Store, s: M.Store, validId: string -> bool, body: RequestBody, newId: string, now: nat)
    requires body.name.None? && !RejectsStatus(body.status)
    ensures P.CreateCampaign(m, validId, body, newId, now) == Step(Response(400, Problem(RequiredMessage)), m)
    ensures M.CreateCampaign(s, body, newId, now).response.code == 201
    ensures M.CreateCampaign(s, body, newId, now).response.reply.campaign.name.None?
  {
  }

  /** An update one controller refuses and the other carries out: setting
      status `deleted` on a visible campaign. */
  lemma UpdateToDeletedDiverges(m: P.Store, s: M.Store, validId: string -> bool, id: string, body: RequestBody, now: nat)
    requires Corresponds(m, s) && validId(id) && P.Visible(m, id)
    requires body.status == Some("deleted")
    ensures P.UpdateCampaign(m, validId, id, body, now) == Step(Response(400, Problem(DeletedStatusMessage)), m)
    ensures M.UpdateCampaign(s, id, body, now).response.code == 200
    ensures M.UpdateCampaign(s, id, body, now).response.reply.campaign.status == Deleted
  {
    LocateCorresponds(m, s, id);
  }

  /** A malformed identifier is refused by the database controller whatever
      its collection holds, while the in-memory controller looks any string
      up and answers with the campaign it finds under it. */
  lemma MalformedIdDiverges(m: P.Store, s: M.Store, validId: string -> bool, id: string)
    requires !validId(id) && M.Visible(s, id)
    ensures P.GetCampaignById(m, validId, id) == Response(400, Problem(InvalidIdMessage))
    ensures P.DeleteCampaign(m, validId, id, 0) == Step(Response(400, Problem(InvalidIdMessage)), m)
    ensures M.GetCampaignById(s, id) == Response(200, One(s[M.Locate(s, id)]))
    ensures M.DeleteCampaign(s, id, 0).response.code == 200
  {
  }
}
