/** The campaign form page: five controlled inputs, leads and account
    identifiers edited as comma-separated text, and a switch for the status.
    Loading a stored campaign fills the inputs; submitting turns them back
    into a campaign. */
module CampaignFormPage {
  import opened Text
  import opened CampaignSchema
  import opened ClientApi

  /** The page's form state. */
  datatype FormData = FormData(
    name: string,
    description: string,
    isActive: bool,
    leads: string,
    accountIDs: string)

  /** The state of a new, untouched form. */
  const InitialForm := FormData("", "", true, "", "")

  predicate NonEmpty(s: string) {
    s != ""
  }

  /** Every trimmed comma-separated piece is trimmed and comma-free. */
  lemma PiecesAreClean(s: string)
    ensures forall x :: x in Map(Split(s, ','), Trim) ==> IsTrimmed(x) && ',' !in x
  {
    var pieces := Split(s, ',');
    var trimmed := Map(pieces, Trim);
    forall x | x in trimmed
      ensures IsTrimmed(x) && ',' !in x
    {
      var j :| 0 <= j < |trimmed| && trimmed[j] == x;
      TrimKeepsAbsent(pieces[j], ',');
    }
  }

  /** `s.split(",").map(x => x.trim()).filter(Boolean)`: the comma-separated
      pieces, trimmed, with the empty ones dropped. */
  function ParseCommaList(s: string): (r: seq<string>)
    ensures forall i :: 0 <= i < |r| ==> r[i] != "" && IsTrimmed(r[i]) && ',' !in r[i]
  {
    PiecesAreClean(s);
    Filter(Map(Split(s, ','), Trim), NonEmpty)
  }

  /** Entries the comma-separated editing text can carry unchanged. */
  predicate Editable(xs: seq<string>) {
    forall i :: 0 <= i < |xs| ==> xs[i] != "" && IsTrimmed(xs[i]) && ',' !in xs[i]
  }

  /** `xs.join(", ")`: the text the page shows for editing. */
  function JoinForEditing(xs: seq<string>): string {
    Join(xs, ", ")
  }

  /** Each element after the first, led by the space the `", "` separator
      leaves behind once the comma is split off. */
  function SpaceLed(xs: seq<string>): (r: seq<string>)
    ensures |r| == |xs|
    ensures forall i :: 0 <= i < |xs| ==> r[i] == " " + xs[i]
  {
    Map(xs, (x: string) => " " + x)
  }

  /** Splitting a string whose first character is not the separator keeps
      that character on the first piece. */
  lemma SplitPrepend(c: char, s: string, sep: char)
    requires c != sep
    ensures Split([c] + s, sep) == [[c] + Split(s, sep)[0]] + Split(s, sep)[1..]
  {
    assert ([c] + s)[1..] == s;
  }

  /** Splitting the editing text on commas gives the elements back, each but
      the first with its leading space. */
  lemma {:induction false} SplitEditingText(xs: seq<string>)
    requires |xs| >= 1
    requires forall i :: 0 <= i < |xs| ==> ',' !in xs[i]
    ensures Split(JoinForEditing(xs), ',') == [xs[0]] + SpaceLed(xs[1..])
    decreases |xs|
  {
    if |xs| == 1 {
      SplitWithoutSeparator(xs[0], ',');
    } else {
      var rest := JoinForEditing(xs[1..]);
      assert JoinForEditing(xs) == xs[0] + [','] + ([' '] + rest);
      SplitAround(xs[0], [' '] + rest, ',');
      SplitWithoutSeparator(xs[0], ',');
      SplitEditingText(xs[1..]);
      SplitPrepend(' ', rest, ',');
      assert xs[1..][1..] == xs[2..];
      assert SpaceLed(xs[1..]) == [" " + xs[1]] + SpaceLed(xs[2..]);
    }
  }

  /** Trimming the comma-separated pieces of the editing text gives the
      entries back. */
  lemma {:induction false} TrimEditingPieces(xs: seq<string>)
    requires |xs| >= 1 && Editable(xs)
    ensures Map(Split(JoinForEditing(xs), ','), Trim) == xs
  {
    SplitEditingText(xs);
    var pieces := Split(JoinForEditing(xs), ',');
    var trimmed := Map(pieces, Trim);
    forall i | 0 <= i < |xs|
      ensures trimmed[i] == xs[i]
    {
      if i == 0 {
        TrimmedIsFixed(xs[0]);
      } else {
        assert pieces[i] == [' '] + xs[i];
        TrimDropsLeadingSpace(' ', xs[i]);
        TrimmedIsFixed(xs[i]);
      }
    }
  }

  /** Editing round trip: the text shown for a list of non-empty, trimmed,
      comma-free entries parses back to exactly that list. */
  lemma CommaListRoundTrip(xs: seq<string>)
    requires Editable(xs)
    ensures ParseCommaList(JoinForEditing(xs)) == xs
  {
    if xs == [] {
      assert Split("", ',') == [""];
      assert Map([""], Trim) == [""];
    } else {
      TrimEditingPieces(xs);
      FilterKeepsAll(xs, NonEmpty);
    }
  }

  /** `handleSubmit`'s campaign: the texts as typed, the status from the
      switch, and the two lists parsed from their comma-separated text. */
  function Submit(f: FormData): (d: Draft)
    ensures d.name == f.name && d.description == f.description
    ensures d.status == Active <==> f.isActive
    ensures d.status != Deleted
    ensures d.leads == ParseCommaList(f.leads) && d.accountIDs == ParseCommaList(f.accountIDs)
  {
    Draft(f.name, f.description, SwitchStatus(f.isActive), ParseCommaList(f.leads), ParseCommaList(f.accountIDs))
  }

  /** Loading a campaign as the page is written: the switch is on only for a
      status equal to `"ACTIVE"`, which no stored status ever is. */
  function LoadAsWritten(c: ClientCampaign): FormData {
    FormData(c.name, c.description, StatusText(c.status) == "ACTIVE", JoinForEditing(c.leads), JoinForEditing(c.accountIDs))
  }

  /** The switch of a loaded campaign is always off, so saving an active
      campaign without touching it deactivates it. */
  lemma ActiveCampaignReloadsInactive(c: ClientCampaign)
    ensures !LoadAsWritten(c).isActive
    ensures Submit(LoadAsWritten(c)).status == Inactive
  {
  }

  /** Loading a campaign with the comparison the page evidently means: the
      switch is on exactly for an active campaign. */
  function Load(c: ClientCampaign): (f: FormData)
    ensures f.isActive <==> c.status == Active
    ensures f.name == c.name && f.description == c.description
    ensures f.leads == JoinForEditing(c.leads) && f.accountIDs == JoinForEditing(c.accountIDs)
  {
    FormData(c.name, c.description, c.status == Active, JoinForEditing(c.leads), JoinForEditing(c.accountIDs))
  }

  /** Loading a campaign that is not soft-deleted and whose entries are
      editable, then submitting the untouched form, submits the campaign as
      it was. */
  lemma EditRoundTrip(c: ClientCampaign)
    requires c.status != Deleted
    requires Editable(c.leads) && Editable(c.accountIDs)
    ensures Submit(Load(c)).WithId(c.id) == c
  {
    CommaListRoundTrip(c.leads);
    CommaListRoundTrip(c.accountIDs);
  }

  /** The four text inputs, by their `name` attribute. */
  datatype Field = NameInput | DescriptionInput | LeadsInput | AccountIDsInput

  /** `setFormData(prev => ({ ...prev, [name]: value }))`. */
  function HandleChange(f: FormData, field: Field, value: string): (r: FormData)
    ensures r.isActive == f.isActive
    ensures r.name == (if field == NameInput then value else f.name)
    ensures r.description == (if field == DescriptionInput then value else f.description)
    ensures r.leads == (if field == LeadsInput then value else f.leads)
    ensures r.accountIDs == (if field == AccountIDsInput then value else f.accountIDs)
  {
    match field
    case NameInput => f.(name := value)
    case DescriptionInput => f.(description := value)
    case LeadsInput => f.(leads := value)
    case AccountIDsInput => f.(accountIDs := value)
  }

  /** `setFormData(prev => ({ ...prev, isActive: checked }))`. */
  function HandleToggleChange(f: FormData, checked: bool): (r: FormData)
    ensures r.isActive == checked
    ensures r.name == f.name && r.description == f.description
    ensures r.leads == f.leads && r.accountIDs == f.accountIDs
  {
    f.(isActive := checked)
  }

  /** Edits to different inputs commute, an edit is undone by writing the old
      value back, and toggling never disturbs a text input. */
  lemma EditsAreIndependent(f: FormData, a: Field, b: Field, x: string, y: string, checked: bool)
    requires a != b
    ensures HandleChange(HandleChange(f, a, x), b, y) == HandleChange(HandleChange(f, b, y), a, x)
    ensures HandleChange(HandleChange(f, a, x), a, y) == HandleChange(f, a, y)
    ensures HandleToggleChange(HandleChange(f, a, x), checked) == HandleChange(HandleToggleChange(f, checked), a, x)
  {
  }
}
