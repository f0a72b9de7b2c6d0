/** The campaigns page's status badge. */
module CampaignsPage {
  import opened CampaignSchema

  /** The badge styles. */
  datatype BadgeVariant = Default | Secondary | Destructive | Outline

  /** `getStatusBadgeVariant` as written: upper-case status names get a
      style of their own, every other string the outline style. */
  function BadgeVariantAsWritten(status: string): (v: BadgeVariant)
    ensures v == Default <==> status == "ACTIVE"
    ensures v == Secondary <==> status == "INACTIVE"
    ensures v == Destructive <==> status == "DELETED"
    ensures status !in {"ACTIVE", "INACTIVE", "DELETED"} ==> v == Outline
  {
    if status == "ACTIVE" then Default
    else if status == "INACTIVE" then Secondary
    else if status == "DELETED" then Destructive
    else Outline
  }

  /** The statuses are stored and sent lower-case, so every badge the page
      shows is the outline one. */
  lemma BackendStatusesShowOutline(s: Status)
    ensures BadgeVariantAsWritten(StatusText(s)) == Outline
  {
  }

  /** The badge for each stored status, with the styles the switch means to
      give them. */
  function BadgeVariantFor(s: Status): (v: BadgeVariant)
    ensures v != Outline
    ensures v == Default <==> s == Active
    ensures v == Secondary <==> s == Inactive
    ensures v == Destructive <==> s == Deleted
  {
    match s
    case Active => Default
    case Inactive => Secondary
    case Deleted => Destructive
  }

  /** The corrected badge agrees with the written one on the upper-case
      spelling of each status, and tells the three statuses apart. */
  lemma BadgeDistinguishesStatuses(s: Status, t: Status)
    ensures BadgeVariantFor(s) == BadgeVariantAsWritten(UpperName(s))
    ensures BadgeVariantFor(s) == BadgeVariantFor(t) ==> s == t
  {
  }

  /** The upper-case name the written switch expects. */
  function UpperName(s: Status): string {
    match s
    case Active => "ACTIVE"
    case Inactive => "INACTIVE"
    case Deleted => "DELETED"
  }
}
