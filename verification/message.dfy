/** The personalised-message endpoint: it checks that the request names a
    person, a job title and a company, builds the profile the drafting service
    takes, and answers the drafted text with the model's name. The service is
    a parameter; `Threw` is an exception escaping it. */
module MessageController {
  import opened Js
  import AiService

  /** The JSON body of a message request; any property may be missing. */
  datatype MessageRequest = MessageRequest(
    name: Option<string>,
    jobTitle: Option<string>,
    company: Option<string>,
    location: Option<string>,
    summary: Option<string>)

  /** What awaiting the drafting service yields. */
  datatype Generation = Returned(text: string) | Threw

  /** The JSON the endpoint answers with. The `error` detail of a 500 reply
      is not modelled. */
  datatype MessageReply =
    | Drafted(message: string, model: string)
    | Refused(message: string)
    | Failed(message: string)

  datatype MessageResponse = MessageResponse(code: nat, reply: MessageReply)

  const MissingIdentityMessage := "Name, job title, and company are required"
  const GenerationErrorMessage := "Error generating personalized message"
  const ModelName := "gemini-2.0-flash"

  /** `name && job_title && company`: the three identifying fields are truthy. */
  predicate Complete(req: MessageRequest) {
    Truthy(req.name) && Truthy(req.jobTitle) && Truthy(req.company)
  }

  /** The profile handed to the service: the identifying fields verbatim, and
      `''` for a falsy location or summary. */
  function ProfileOf(req: MessageRequest): (p: AiService.Profile)
    requires Complete(req)
    ensures p.name == req.name.value && p.jobTitle == req.jobTitle.value && p.company == req.company.value
    ensures Truthy(req.location) ==> p.location == req.location.value
    ensures !Truthy(req.location) ==> p.location == ""
    ensures Truthy(req.summary) ==> p.summary == req.summary.value
    ensures !Truthy(req.summary) ==> p.summary == ""
  {
    AiService.Profile(req.name.value, req.jobTitle.value, req.company.value,
                      OrElse(req.location, ""), OrElse(req.summary, ""))
  }

  /** 400 for an incomplete request, 500 exactly when the service throws, and
      otherwise 200 with the service's text and the model name. */
  function CreatePersonalizedMessage(req: MessageRequest, generate: AiService.Profile -> Generation): (r: MessageResponse)
    ensures r.code == 400 <==> !Complete(req)
    ensures !Complete(req) ==> r == MessageResponse(400, Refused(MissingIdentityMessage))
    ensures r.code == 500 <==> Complete(req) && generate(ProfileOf(req)).Threw?
    ensures r.code == 500 ==> r.reply == Failed(GenerationErrorMessage)
    ensures Complete(req) && generate(ProfileOf(req)).Returned? ==>
              r == MessageResponse(200, Drafted(generate(ProfileOf(req)).text, ModelName))
  {
    if !Complete(req) then MessageResponse(400, Refused(MissingIdentityMessage))
    else
      match generate(ProfileOf(req))
      case Returned(text) => MessageResponse(200, Drafted(text, ModelName))
      case Threw => MessageResponse(500, Failed(GenerationErrorMessage))
  }

  /** An incomplete request is refused before the service is called: the
      answer is the same whatever the service would have done. */
  lemma RefusalSkipsGenerator(req: MessageRequest, g1: AiService.Profile -> Generation, g2: AiService.Profile -> Generation)
    requires !Complete(req)
    ensures CreatePersonalizedMessage(req, g1) == CreatePersonalizedMessage(req, g2)
  {
  }

  /** A complete request's answer depends on the service's outcome for its
      profile alone: two services that agree there give the same answer. */
  lemma OnlyTheProfileMatters(req: MessageRequest, g1: AiService.Profile -> Generation, g2: AiService.Profile -> Generation)
    requires Complete(req) && g1(ProfileOf(req)) == g2(ProfileOf(req))
    ensures CreatePersonalizedMessage(req, g1) == CreatePersonalizedMessage(req, g2)
  {
  }

  /** The drafting service as the endpoint awaits it: it never throws. */
  function Service(model: string -> AiService.Completion): AiService.Profile -> Generation {
    p => Returned(AiService.GeneratePersonalizedMessage(p, model))
  }

  /** Wired to the drafting service, a complete request always gets 200, and
      when the model call fails the text is the fallback for the request's
      name, job title and company, whatever location and summary said. */
  lemma ServiceNeverFails(req: MessageRequest, model: string -> AiService.Completion)
    requires Complete(req)
    ensures CreatePersonalizedMessage(req, Service(model)).code == 200
    ensures var p := ProfileOf(req);
            model(AiService.Prompt(p)).Failed? ==>
              CreatePersonalizedMessage(req, Service(model)).reply.message ==
                AiService.Fallback(AiService.Profile(req.name.value, req.jobTitle.value, req.company.value, "", ""))
  {
    var p := ProfileOf(req);
    AiService.FallbackIgnoresContext(p, "", "");
  }
}

/** The compiled twin of the message endpoint, shipped alongside the
    TypeScript source; `AgreesWithSource` shows it answers as the source does. */
module MessageControllerCompiled {
  import opened Js
  import AiService
  import MessageController

  type MessageRequest = MessageController.MessageRequest
  type Generation = MessageController.Generation
  type MessageResponse = MessageController.MessageResponse

  /** The refusal check, the profile and the reply, as the compiled code
      writes them. */
  function CreatePersonalizedMessage(req: MessageRequest, generate: AiService.Profile -> Generation): (r: MessageResponse)
    ensures r.code == 200 || r.code == 400 || r.code == 500
    ensures r.code == 400 <==> !MessageController.Complete(req)
  {
    if req.name.None? || req.name.value == "" || req.jobTitle.None? || req.jobTitle.value == ""
       || req.company.None? || req.company.value == "" then
      MessageController.MessageResponse(400, MessageController.Refused("Name, job title, and company are required"))
    else
      var profile := AiService.Profile(
        req.name.value, req.jobTitle.value, req.company.value,
        if req.location.Some? && req.location.value != "" then req.location.value else "",
        if req.summary.Some? && req.summary.value != "" then req.summary.value else "");
      match generate(profile)
      case Returned(message) => MessageController.MessageResponse(200, MessageController.Drafted(message, "gemini-2.0-flash"))
      case Threw => MessageController.MessageResponse(500, MessageController.Failed("Error generating personalized message"))
  }

  /** The compiled endpoint answers every request exactly as the source does,
      for every behaviour of the drafting service. */
  lemma AgreesWithSource(req: MessageRequest, generate: AiService.Profile -> Generation)
    ensures CreatePersonalizedMessage(req, generate) == MessageController.CreatePersonalizedMessage(req, generate)
  {
  }
}
