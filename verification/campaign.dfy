/** The Campaign record: its three-valued status, the fields the schema
    declares, and what the schema does to a new document (trimming, defaults,
    required paths). The identifier and the two timestamps are the ones the
    store adds; timestamps are readings of an abstract clock. */
module CampaignSchema {
  import opened Js
  import opened Text

  /** The campaign status enumeration. */
  datatype Status = Active | Inactive | Deleted

  /** The lowercase string each status is stored and sent as. */
  function StatusText(s: Status): string {
    match s
    case Active => "active"
    case Inactive => "inactive"
    case Deleted => "deleted"
  }

  /** `Object.values(CampaignStatus).includes(t)`, together with the status
      that `t` names when it is one of them. The match is exact: no other
      spelling or letter case is accepted. */
  function ParseStatus(t: string): (r: Option<Status>)
    ensures r.Some? <==> t == "active" || t == "inactive" || t == "deleted"
    ensures r.Some? ==> StatusText(r.value) == t
  {
    if t == "active" then Some(Active)
    else if t == "inactive" then Some(Inactive)
    else if t == "deleted" then Some(Deleted)
    else None
  }

  /** The status an on/off switch on the frontend stands for: on is
      `active`, off is `inactive`; a switch never names `deleted`. */
  function SwitchStatus(isActive: bool): (r: Status)
    ensures r == Active <==> isActive
    ensures r != Deleted
  {
    if isActive then Active else Inactive
  }

  /** Each status is recognised from its own text, so the enumeration and its
      text form are in one-to-one correspondence. */
  lemma StatusTextRoundTrip(s: Status)
    ensures ParseStatus(StatusText(s)) == Some(s)
    ensures forall t :: StatusText(t) == StatusText(s) ==> t == s
  {
  }

  /** A campaign. `name` and `description` are optional because one of the two
      controllers stores whatever the request carried, `undefined` included. */
  datatype Campaign = Campaign(
    id: string,
    name: Option<string>,
    description: Option<string>,
    status: Status,
    leads: seq<string>,
    accountIDs: seq<string>,
    createdAt: nat,
    updatedAt: nat)

  /** The status of a document created without one. */
  const DefaultStatus: Status := Active

  /** A required string path with the `trim` setter, as it is once saved:
      present, non-empty and without white space at either end. */
  predicate RequiredText(v: Option<string>) {
    v.Some? && v.value != "" && IsTrimmed(v.value)
  }

  /** What the schema guarantees of every document it lets through. */
  predicate ConformsToSchema(c: Campaign) {
    RequiredText(c.name) && RequiredText(c.description)
  }

  /** The values handed to the model constructor; any of them may be left out. */
  datatype Fields = Fields(
    name: Option<string>,
    description: Option<string>,
    status: Option<Status>,
    leads: Option<seq<string>>,
    accountIDs: Option<seq<string>>)

  /** A new document built from `fields` and validated on save: `name` and
      `description` are trimmed and must then be non-empty, a missing status
      becomes `active`, missing arrays become empty, and both timestamps read
      the clock. `None` is the validation error the save throws. */
  function NewDocument(id: string, fields: Fields, now: nat): (r: Option<Campaign>)
    ensures r.Some? <==>
      && fields.name.Some? && !IsBlank(fields.name.value)
      && fields.description.Some? && !IsBlank(fields.description.value)
    ensures r.Some? ==> ConformsToSchema(r.value)
    ensures r.Some? ==> r.value.id == id && r.value.createdAt == now && r.value.updatedAt == now
    ensures r.Some? ==> r.value.name == Some(Trim(fields.name.value))
    ensures r.Some? ==> r.value.description == Some(Trim(fields.description.value))
    ensures r.Some? && fields.status.None? ==> r.value.status == Active
    ensures r.Some? && fields.status.Some? ==> r.value.status == fields.status.value
    ensures r.Some? && fields.leads.None? ==> r.value.leads == []
    ensures r.Some? && fields.leads.Some? ==> r.value.leads == fields.leads.value
    ensures r.Some? && fields.accountIDs.None? ==> r.value.accountIDs == []
    ensures r.Some? && fields.accountIDs.Some? ==> r.value.accountIDs == fields.accountIDs.value
  {
    var name := Trim(if fields.name.Some? then fields.name.value else "");
    var description := Trim(if fields.description.Some? then fields.description.value else "");
    if fields.name.None? || fields.description.None? || name == "" || description == "" then
      None
    else
      Some(Campaign(
        id,
        Some(name),
        Some(description),
        if fields.status.Some? then fields.status.value else DefaultStatus,
        ArrayOrElse(fields.leads, []),
        ArrayOrElse(fields.accountIDs, []),
        now,
        now))
  }

  /** A name or description made only of white space is refused even though
      it is a non-empty (truthy) string: trimming empties it first. */
  lemma BlankNameIsRefused(id: string, fields: Fields, now: nat)
    requires fields.name.Some? && fields.name.value != "" && IsBlank(fields.name.value)
    ensures NewDocument(id, fields, now).None?
  {
  }

  /** The text a required path saves is itself acceptable and saved as is. */
  lemma {:induction false} SavedTextIsStable(x: string)
    requires !IsBlank(x)
    ensures !IsBlank(Trim(x)) && Trim(Trim(x)) == Trim(x)
  {
    TrimIdempotent(x);
  }

  /** Re-saving the text a document already holds leaves it as it was: the
      schema's normalisation is idempotent. */
  lemma {:induction false} NormalisationIsIdempotent(id: string, fields: Fields, now: nat)
    requires fields.name.Some? && !IsBlank(fields.name.value)
    requires fields.description.Some? && !IsBlank(fields.description.value)
    ensures var c := NewDocument(id, fields, now).value;
            NewDocument(id, fields.(name := c.name, description := c.description), now) == Some(c)
  {
    var c := NewDocument(id, fields, now).value;
    var again := fields.(name := c.name, description := c.description);
    SavedTextIsStable(fields.name.value);
    SavedTextIsStable(fields.description.value);
    var d := NewDocument(id, again, now);
    assert d.Some?;
    assert d.value.name == c.name && d.value.description == c.description;
    assert d.value == c;
  }
}
