/** The validated campaign form: leads and account identifiers are edited one
    per line, the form schema checks the five values before submission, and
    a switch edits the status. Only the schema's refinement predicates and
    length checks are modelled, not the form library around them. */
module CampaignForm {
  import opened Text
  import opened CampaignSchema
  import opened ClientApi

  /** The values the form holds. */
  datatype FormValues = FormValues(
    name: string,
    description: string,
    status: string,
    leads: string,
    accountIDs: string)

  /** `line.trim() !== ""`. */
  predicate NonBlank(line: string) {
    Trim(line) != ""
  }

  /** `s.split("\n").filter(l => l.trim() !== "")`: the lines that are not
      blank, untrimmed, in their original order. */
  function NonBlankLines(s: string): (r: seq<string>)
    ensures forall i :: 0 <= i < |r| ==> NonBlank(r[i]) && '\n' !in r[i]
  {
    var lines := Split(s, '\n');
    assert forall x :: x in lines ==> '\n' !in x;
    Filter(lines, NonBlank)
  }

  /** The leads refinement: every non-blank line starts with `http`. */
  predicate LeadsValid(s: string) {
    forall line :: line in NonBlankLines(s) ==> StartsWith(line, "http")
  }

  /** The account-identifier refinement: some line is not blank. */
  predicate AccountIDsValid(s: string) {
    |NonBlankLines(s)| > 0
  }

  /** `z.enum(["active", "inactive"])`. */
  predicate StatusAllowed(status: string) {
    status == "active" || status == "inactive"
  }

  /** The whole schema: non-empty name and description, an allowed status,
      and both refinements. */
  predicate FormValid(v: FormValues) {
    && |v.name| >= 1
    && |v.description| >= 1
    && StatusAllowed(v.status)
    && LeadsValid(v.leads)
    && AccountIDsValid(v.accountIDs)
  }

  /** An empty input has no non-blank line. */
  lemma EmptyInputHasNoLines()
    ensures NonBlankLines("") == []
  {
    assert Split("", '\n') == [""];
    assert Filter([""], NonBlank) == [];
  }

  /** Each line of the input is blank or starts with `http`. */
  predicate EveryLineIsLead(lines: seq<string>) {
    forall line :: line in lines ==> !NonBlank(line) || StartsWith(line, "http")
  }

  /** The leads refinement read line by line: it holds exactly when each line
      of the input is blank or starts with `http`, so an empty input is
      valid. */
  lemma LeadsValidity(s: string)
    ensures LeadsValid(s) <==> EveryLineIsLead(Split(s, '\n'))
    ensures LeadsValid("")
  {
    FilterMembers(Split(s, '\n'), NonBlank);
    EmptyInputHasNoLines();
  }

  /** The account-identifier refinement read line by line: it holds exactly
      when some line of the input is not blank, so an empty input fails. */
  lemma AccountIDsValidity(s: string)
    ensures AccountIDsValid(s) <==> exists line :: line in Split(s, '\n') && NonBlank(line)
    ensures !AccountIDsValid("")
  {
    var kept := NonBlankLines(s);
    FilterMembers(Split(s, '\n'), NonBlank);
    if AccountIDsValid(s) {
      assert kept[0] in kept;
    }
    EmptyInputHasNoLines();
  }

  /** `onSubmit`'s campaign, for values the schema accepted: the texts as
      typed, the named status, and the non-blank lines of each list,
      untrimmed and in order. */
  function Submit(v: FormValues): (d: Draft)
    requires FormValid(v)
    ensures d.name == v.name && d.description == v.description
    ensures StatusText(d.status) == v.status && d.status != Deleted
    ensures d.leads == NonBlankLines(v.leads) && d.accountIDs == NonBlankLines(v.accountIDs)
    ensures |d.accountIDs| >= 1
    ensures forall i :: 0 <= i < |d.leads| ==> StartsWith(d.leads[i], "http")
  {
    Draft(v.name, v.description, if v.status == "active" then Active else Inactive,
          NonBlankLines(v.leads), NonBlankLines(v.accountIDs))
  }

  /** Entries the one-per-line editing text can carry unchanged. */
  predicate LineEditable(xs: seq<string>) {
    forall i :: 0 <= i < |xs| ==> NonBlank(xs[i]) && '\n' !in xs[i]
  }

  /** Editing round trip: joining entries with newlines and keeping the
      non-blank lines gives the entries back. */
  lemma NewlineRoundTrip(xs: seq<string>)
    requires LineEditable(xs)
    ensures NonBlankLines(Join(xs, "\n")) == xs
  {
    if xs == [] {
      EmptyInputHasNoLines();
    } else {
      SplitJoin(xs, '\n');
      FilterKeepsAll(xs, NonBlank);
    }
  }

  /** Loading a campaign as the form is written: an `active` campaign is
      shown as `inactive`, any other status as itself. */
  function LoadAsWritten(c: ClientCampaign): FormValues {
    FormValues(c.name, c.description,
               if StatusText(c.status) == "active" then "inactive" else StatusText(c.status),
               Join(c.leads, "\n"), Join(c.accountIDs, "\n"))
  }

  /** A stored campaign the form can show and submit unchanged. */
  predicate Presentable(c: ClientCampaign) {
    && |c.name| >= 1 && |c.description| >= 1 && c.status != Deleted
    && LineEditable(c.leads) && LineEditable(c.accountIDs) && |c.accountIDs| >= 1
    && (forall i :: 0 <= i < |c.leads| ==> StartsWith(c.leads[i], "http"))
  }

  /** Saving an active campaign without touching the form deactivates it. */
  lemma ActiveStatusLoadsInactive(c: ClientCampaign)
    requires Presentable(c) && c.status == Active
    ensures FormValid(LoadAsWritten(c))
    ensures Submit(LoadAsWritten(c)).status == Inactive
  {
    NewlineRoundTrip(c.leads);
    NewlineRoundTrip(c.accountIDs);
  }

  /** Loading a campaign with its status shown as it is stored. */
  function Load(c: ClientCampaign): (v: FormValues)
    ensures v.status == StatusText(c.status)
    ensures v.name == c.name && v.description == c.description
    ensures v.leads == Join(c.leads, "\n") && v.accountIDs == Join(c.accountIDs, "\n")
  {
    FormValues(c.name, c.description, StatusText(c.status), Join(c.leads, "\n"), Join(c.accountIDs, "\n"))
  }

  /** A presentable campaign loads into values the schema accepts, and
      submitting them untouched submits the campaign as it was. */
  lemma EditRoundTrip(c: ClientCampaign)
    requires Presentable(c)
    ensures FormValid(Load(c))
    ensures Submit(Load(c)).WithId(c.id) == c
  {
    NewlineRoundTrip(c.leads);
    NewlineRoundTrip(c.accountIDs);
  }

  /** The status of a new form as written, and the value the switch writes. */
  const DefaultStatusAsWritten := "ACTIVE"

  function ToggleAsWritten(checked: bool): string {
    if checked then "ACTIVE" else "INACTIVE"
  }

  /** The switch shows `on` for `active`. */
  predicate SwitchOn(status: string) {
    status == "active"
  }

  /** The schema refuses both values the switch writes, and the default: a
      new form, or one whose switch was used, can never be submitted. */
  lemma ToggledFormIsInvalid(v: FormValues, checked: bool)
    ensures !FormValid(v.(status := DefaultStatusAsWritten))
    ensures !FormValid(v.(status := ToggleAsWritten(checked)))
    ensures !SwitchOn(ToggleAsWritten(checked))
  {
  }

  /** The default and the switch with the values the schema accepts. */
  const DefaultStatus := "active"

  function Toggle(checked: bool): (status: string)
    ensures SwitchOn(status) <==> checked
    ensures StatusAllowed(status)
  {
    if checked then "active" else "inactive"
  }

  /** With lower-case values, using the switch keeps valid values valid, the
      switch shows what was chosen, and a new form's status is acceptable. */
  lemma ToggleKeepsFormValid(v: FormValues, checked: bool)
    requires FormValid(v)
    ensures FormValid(v.(status := Toggle(checked)))
    ensures Submit(v.(status := Toggle(checked))).status == (if checked then Active else Inactive)
    ensures StatusAllowed(DefaultStatus) && SwitchOn(DefaultStatus)
  {
  }
}
