/**
 * The `send-application-email` handler: validates the request the same way as
 * `get-signed-url` (method, then secrets, then body), renders a fixed
 * plain-text message about the new application, hands it to the mail provider
 * and maps the provider's answer to a response.
 */
module ApplicationEmail {
  import opened Text
  import opened Json
  import opened Http

  /** The provider request: the API key, sender, single recipient, subject and plain-text body. */
  datatype Mail = Mail(apiKey: string, from: string, to: string, subject: string, content: string)

  /** The provider's HTTP answer (status and body text), or a failure to reach it. */
  datatype ProviderReply = Replied(status: int, text: string) | Unreachable(error: string)

  /** Either an early response, or the mail to send. */
  datatype Decision = Respond(response: Response) | Send(mail: Mail)

  const FirstLine := "A new application has been submitted."
  const LastLine := "Log into admin to review the full application."

  /** `SENDGRID_API_KEY`, `EMAIL_FROM` and `EMAIL_TO` are all set. */
  predicate Configured(env: Env) {
    IsSet(env, "SENDGRID_API_KEY") && IsSet(env, "EMAIL_FROM") && IsSet(env, "EMAIL_TO")
  }

  /** The subject line: `New application: <job title> — <applicant name>`. */
  function Subject(app: Value, job: Value): string {
    "New application: " + Interpolate(Member(job, "title")) + " \U{2014} " + Interpolate(Member(app, "full_name"))
  }

  /** The fifteen lines of the message body, before they are joined. */
  function ContentLines(app: Value, job: Value): seq<string> {
    [ FirstLine,
      "",
      "Job: " + Interpolate(Member(job, "title")),
      "Applicant: " + Interpolate(Member(app, "full_name")),
      "Email: " + Interpolate(Member(app, "email")),
      "Phone: " + Interpolate(Member(app, "phone_number")),
      "Location: " + Interpolate(Member(app, "location")),
      "",
      "Why interested:",
      InterpolateOr(Member(app, "why_interested"), "(none)"),
      "",
      "Resume path: " + InterpolateOr(Member(app, "resume_path"), "N/A"),
      "Cover letter path: " + InterpolateOr(Member(app, "cover_letter_path"), "N/A"),
      "",
      LastLine ]
  }

  /** The message body: the lines joined with newlines. */
  function Content(app: Value, job: Value): string {
    Join(ContentLines(app, job), '\n')
  }

  /** The validation chain, up to the provider call. */
  function Dispatch(req: Request, env: Env): (d: Decision)
    ensures req.httpMethod != "POST" ==> d == Respond(OnlyPost)
    ensures req.httpMethod == "POST" && !Configured(env) ==>
      d == Respond(ErrorResponse(StatusInternalServerError, "Missing email configuration in function secrets"))
    ensures d.Send? <==>
      && req.httpMethod == "POST" && Configured(env)
      && Truthy(ParsedBody(req))
      && Truthy(Member(ParsedBody(req), "application"))
      && Truthy(Member(ParsedBody(req), "job"))
    ensures req.httpMethod == "POST" && Configured(env) && !d.Send? ==>
      d == Respond(ErrorResponse(StatusBadRequest, "application and job required in body"))
    ensures d.Send? ==>
      var app := Member(ParsedBody(req), "application");
      var job := Member(ParsedBody(req), "job");
      d.mail == Mail(env["SENDGRID_API_KEY"], env["EMAIL_FROM"], env["EMAIL_TO"], Subject(app, job), Content(app, job))
  {
    if req.httpMethod != "POST" then
      Respond(OnlyPost)
    else if !Configured(env) then
      Respond(ErrorResponse(StatusInternalServerError, "Missing email configuration in function secrets"))
    else
      var payload := ParsedBody(req);
      if !Truthy(payload) || !Truthy(Member(payload, "application")) || !Truthy(Member(payload, "job")) then
        Respond(ErrorResponse(StatusBadRequest, "application and job required in body"))
      else
        var app := Member(payload, "application");
        var job := Member(payload, "job");
        Send(Mail(env["SENDGRID_API_KEY"], env["EMAIL_FROM"], env["EMAIL_TO"], Subject(app, job), Content(app, job)))
  }

  /** `res.ok`: a 2xx status. */
  predicate Accepted(reply: ProviderReply) {
    reply.Replied? && 200 <= reply.status <= 299
  }

  /** The response built from the provider's answer. */
  function Complete(reply: ProviderReply): (r: Response)
    ensures Accepted(reply) <==> r.status == StatusOk
    ensures Accepted(reply) ==> r == Response(StatusOk, JsonBody(Obj(map["ok" := Bool(true)])), true)
    ensures reply.Replied? && !Accepted(reply) ==>
      r == Response(StatusInternalServerError,
                    JsonBody(Obj(map["error" := Str("SendGrid error"), "detail" := Str(reply.text)])), false)
    ensures reply.Unreachable? ==> r == ErrorResponse(StatusInternalServerError, reply.error)
  {
    match reply
    case Replied(status, text) =>
      if 200 <= status <= 299 then
        Response(StatusOk, JsonBody(Obj(map["ok" := Bool(true)])), true)
      else
        Response(StatusInternalServerError,
                 JsonBody(Obj(map["error" := Str("SendGrid error"), "detail" := Str(text)])), false)
    case Unreachable(error) =>
      ErrorResponse(StatusInternalServerError, error)
  }

  /** The handler: `provider` answers the one mail request, when the handler gets that far. */
  function Handle(req: Request, env: Env, provider: Mail -> ProviderReply): Response {
    match Dispatch(req, env)
    case Respond(response) => response
    case Send(mail) => Complete(provider(mail))
  }

  /** Any method but POST gets 405 whatever the configuration, body and provider. */
  lemma MethodCheckedFirst(req: Request, env1: Env, env2: Env, p1: Mail -> ProviderReply, p2: Mail -> ProviderReply)
    requires req.httpMethod != "POST"
    ensures Handle(req, env1, p1) == Handle(req, env2, p2) == OnlyPost
  {
  }

  /** Missing secrets give 500 whatever the body: they are checked before the body is read. */
  lemma ConfigCheckedBeforeBody(req1: Request, req2: Request, env: Env, p1: Mail -> ProviderReply, p2: Mail -> ProviderReply)
    requires req1.httpMethod == "POST" && req2.httpMethod == "POST" && !Configured(env)
    ensures Handle(req1, env, p1) == Handle(req2, env, p2)
    ensures Handle(req1, env, p1).status == StatusInternalServerError
  {
  }

  /** A body that is not JSON, or lacks `job`, gets 400 once configured, and no mail is sent. */
  lemma MissingJobIsBadRequest(req: Request, env: Env, p1: Mail -> ProviderReply, p2: Mail -> ProviderReply)
    requires req.httpMethod == "POST" && Configured(env)
    requires req.body.None? || !Truthy(Member(req.body.value, "job"))
    ensures Handle(req, env, p1) == Handle(req, env, p2)
    ensures Handle(req, env, p1) == ErrorResponse(StatusBadRequest, "application and job required in body")
  {
  }

  /** 200 exactly when the request is valid and the provider accepts the mail. */
  lemma SuccessIff(req: Request, env: Env, provider: Mail -> ProviderReply)
    ensures Handle(req, env, provider).status == StatusOk <==>
      Dispatch(req, env).Send? && Accepted(provider(Dispatch(req, env).mail))
  {
  }

  /** The subject names the job title and the applicant, in that order. */
  lemma SubjectNamesJobAndApplicant(app: Value, job: Value, title: string, name: string)
    requires Member(job, "title") == Str(title) && Member(app, "full_name") == Str(name)
    ensures Subject(app, job) == "New application: " + title + " \U{2014} " + name
  {
  }

  /** The message opens with the announcement line and closes with the pointer to the admin page. */
  lemma ContentFrame(app: Value, job: Value)
    ensures FirstLine + "\n" <= Content(app, job)
    ensures var c := Content(app, job);
      |LastLine| + 1 <= |c| && c[|c| - |LastLine| - 1..] == "\n" + LastLine
  {
    FramedJoin(ContentLines(app, job), FirstLine, LastLine);
  }

  lemma FramedJoin(lines: seq<string>, first: string, last: string)
    requires |lines| >= 2 && lines[0] == first && lines[|lines| - 1] == last
    ensures first + "\n" <= Join(lines, '\n')
    ensures var c := Join(lines, '\n');
      |last| + 1 <= |c| && c[|c| - |last| - 1..] == "\n" + last
  {
    JoinFrame(lines, '\n');
  }

  /** Missing fields fall back: "(none)" for the motivation, "N/A" for the two file paths. */
  lemma Fallbacks(app: Value, job: Value)
    ensures !Truthy(Member(app, "why_interested")) ==> ContentLines(app, job)[9] == "(none)"
    ensures !Truthy(Member(app, "resume_path")) ==> ContentLines(app, job)[11] == "Resume path: N/A"
    ensures !Truthy(Member(app, "cover_letter_path")) ==> ContentLines(app, job)[12] == "Cover letter path: N/A"
  {
  }

  /**
   * When no field holds a line break, splitting the body at line breaks gives
   * back the fifteen lines: each field stays on its own line.
   */
  lemma LinesRecoverable(app: Value, job: Value)
    requires forall i :: 0 <= i < |ContentLines(app, job)| ==> '\n' !in ContentLines(app, job)[i]
    ensures |ContentLines(app, job)| == 15
    ensures Split(Content(app, job), '\n') == ContentLines(app, job)
  {
    SplitJoin(ContentLines(app, job), '\n');
  }
}
