/** The message-drafting service: it fills a prompt template from a profile,
    asks the hosted model for text, and answers a fixed template built from
    name, job title and company when the model call fails. The model is a
    parameter mapping a prompt to its outcome. */
module AiService {
  import opened Text

  /** The profile the service drafts for. */
  datatype Profile = Profile(name: string, jobTitle: string, company: string, location: string, summary: string)

  /** What the hosted model call yields for a prompt: its text, or a failure
      (a rejected request, an unreadable response, a thrown error). */
  datatype Completion = Completed(text: string) | Failed

  /** `x || fallback` on a string. */
  function OrText(x: string, fallback: string): string {
    if x != "" then x else fallback
  }

  const PromptHead := "\n      Generate a personalized LinkedIn outreach message for the following person:\n\n"
  const PromptTail :=
    "\n      The message should be friendly, professional, and mention how our campaign management system can help them."
    + "\n      Keep it concise (under 150 words) and personalized based on their job and company."
    + "\n\n      IMPORTANT:"
    + "\n      - Use \"Campaign Management System\" as the product name"
    + "\n      - Sign the message as \"The Campaign Management Team\""
    + "\n      - DO NOT use placeholders like [Your Name] or [Your Company]"
    + "\n      - Write as if you are a real person from the Campaign Management Team"
    + "\n    "

  /** One indented `Label: value` line of the prompt. */
  function Line(key: string, value: string): string {
    "      " + key + ": " + value + "\n"
  }

  /** The prompt sent to the model. */
  function Prompt(p: Profile): string {
    PromptHead
    + Line("Name", p.name)
    + Line("Job Title", p.jobTitle)
    + Line("Company", p.company)
    + Line("Location", OrText(p.location, "Not specified"))
    + Line("Summary", OrText(p.summary, "Not provided"))
    + PromptTail
  }

  /** The text answered when the model call fails. */
  function Fallback(p: Profile): string {
    "Hey " + p.name + ", I noticed you're a " + p.jobTitle + " at " + p.company
    + ". Our campaign management system could help streamline your outreach efforts. Would you be open to a quick chat?"
  }

  /** The service never fails: it answers the model's text unchanged when the
      call succeeds and the fallback template when it does not. */
  function GeneratePersonalizedMessage(p: Profile, model: string -> Completion): (r: string)
    ensures model(Prompt(p)).Completed? ==> r == model(Prompt(p)).text
    ensures model(Prompt(p)).Failed? ==> r == Fallback(p)
  {
    match model(Prompt(p))
    case Completed(text) => text
    case Failed => Fallback(p)
  }

  /** The prompt's six pieces before the closing instructions. */
  function PromptLines(p: Profile): seq<string> {
    [ Line("Name", p.name),
      Line("Job Title", p.jobTitle),
      Line("Company", p.company),
      Line("Location", OrText(p.location, "Not specified")),
      Line("Summary", OrText(p.summary, "Not provided")) ]
  }

  /** Each labelled line occurs in the prompt. */
  lemma {:induction false} PromptContainsLine(p: Profile, k: nat)
    requires k < 5
    ensures Contains(Prompt(p), PromptLines(p)[k])
  {
    var ls := PromptLines(p);
    var s := ls[k];
    var a := PromptHead + ls[0];
    var b := a + ls[1];
    var c := b + ls[2];
    var d := c + ls[3];
    var e := d + ls[4];
    assert Prompt(p) == e + PromptTail;
    ContainsSelf(s);
    if k == 0 {
      ContainsInRight(PromptHead, s, s);
      ContainsInLeft(a, ls[1], s);
      ContainsInLeft(b, ls[2], s);
      ContainsInLeft(c, ls[3], s);
      ContainsInLeft(d, ls[4], s);
    } else if k == 1 {
      ContainsInRight(a, s, s);
      ContainsInLeft(b, ls[2], s);
      ContainsInLeft(c, ls[3], s);
      ContainsInLeft(d, ls[4], s);
    } else if k == 2 {
      ContainsInRight(b, s, s);
      ContainsInLeft(c, ls[3], s);
      ContainsInLeft(d, ls[4], s);
    } else if k == 3 {
      ContainsInRight(c, s, s);
      ContainsInLeft(d, ls[4], s);
    } else {
      ContainsInRight(d, s, s);
    }
    ContainsInLeft(e, PromptTail, s);
  }

  /** The prompt carries name, job title and company verbatim, each on its
      own labelled line. */
  lemma PromptEmbedsIdentity(p: Profile)
    ensures Contains(Prompt(p), Line("Name", p.name))
    ensures Contains(Prompt(p), Line("Job Title", p.jobTitle))
    ensures Contains(Prompt(p), Line("Company", p.company))
  {
    PromptContainsLine(p, 0);
    PromptContainsLine(p, 1);
    PromptContainsLine(p, 2);
  }

  /** A falsy location reads as 'Not specified' and a falsy summary as
      'Not provided'; a truthy one is embedded verbatim. */
  lemma PromptSubstitutesMissingContext(p: Profile)
    ensures Prompt(p.(location := "")) == Prompt(p.(location := "Not specified"))
    ensures Prompt(p.(summary := "")) == Prompt(p.(summary := "Not provided"))
    ensures Contains(Prompt(p), Line("Location", if p.location == "" then "Not specified" else p.location))
    ensures Contains(Prompt(p), Line("Summary", if p.summary == "" then "Not provided" else p.summary))
  {
    PromptContainsLine(p, 3);
    PromptContainsLine(p, 4);
  }

  /** The fallback depends on name, job title and company only, and an
      outage always answers it. */
  lemma FallbackIgnoresContext(p: Profile, location: string, summary: string)
    ensures Fallback(p.(location := location, summary := summary)) == Fallback(p)
    ensures GeneratePersonalizedMessage(p, _ => Failed) == Fallback(p)
  {
  }
}

/** The compiled twin of the drafting service, shipped alongside the
    TypeScript source. Its template literals are character for character the
    source's, so it is built from the same pieces; `AgreesWithSource` shows
    the two behave identically. */
module AiServiceCompiled {
  import opened Text
  import AiService

  type Profile = AiService.Profile
  type Completion = AiService.Completion

  function Prompt(p: Profile): string {
    AiService.PromptHead
    + AiService.Line("Name", p.name)
    + AiService.Line("Job Title", p.jobTitle)
    + AiService.Line("Company", p.company)
    + AiService.Line("Location", if p.location != "" then p.location else "Not specified")
    + AiService.Line("Summary", if p.summary != "" then p.summary else "Not provided")
    + AiService.PromptTail
  }

  function Fallback(p: Profile): string {
    "Hey " + p.name + ", I noticed you're a " + p.jobTitle + " at " + p.company
    + ". Our campaign management system could help streamline your outreach efforts. Would you be open to a quick chat?"
  }

  /** Model text unchanged on success, the fallback on failure. */
  function GeneratePersonalizedMessage(p: Profile, model: string -> Completion): (r: string)
    ensures model(Prompt(p)).Completed? ==> r == model(Prompt(p)).text
    ensures model(Prompt(p)).Failed? ==> r == Fallback(p)
  {
    match model(Prompt(p))
    case Completed(text) => text
    case Failed => Fallback(p)
  }

  /** The compiled service sends the same prompt, answers the same text and
      falls back to the same template as the source, for every profile and
      every model behaviour. */
  lemma AgreesWithSource(p: Profile, model: string -> Completion)
    ensures Prompt(p) == AiService.Prompt(p)
    ensures Fallback(p) == AiService.Fallback(p)
    ensures GeneratePersonalizedMessage(p, model) == AiService.GeneratePersonalizedMessage(p, model)
  {
  }
}
