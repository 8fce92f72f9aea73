/**
 * The `get-signed-url` handler: a stateless function from a request, the
 * function's secrets and the storage service's answer to a response. The
 * checks run in a fixed order and each one returns early: method, then
 * configuration, then the body's `path`, then the storage result.
 */
module SignedUrl {
  import opened Wrappers
  import opened Json
  import opened Http

  const DefaultBucket := "resumes"
  const DefaultExpires := 60

  /** The one storage operation the handler makes: `storage.from(bucket).createSignedUrl(path, expires)`. */
  datatype StoreCall = CreateSignedUrl(bucket: string, path: Value, expires: int)

  /** What the storage client gives back: `{ data }`, `{ error }`, or an exception. */
  datatype StoreReply = Signed(data: Value) | StoreError(message: string) | StoreThrew(error: string)

  /** Either an early response, or the storage call to make. */
  datatype Decision = Respond(response: Response) | Call(call: StoreCall)

  /** Both `SUPABASE_URL` and `SUPABASE_SERVICE_ROLE_KEY` are set. */
  predicate Configured(env: Env) {
    IsSet(env, "SUPABASE_URL") && IsSet(env, "SUPABASE_SERVICE_ROLE_KEY")
  }

  /** The bucket: `STORAGE_BUCKET` when set, `"resumes"` otherwise. */
  function Bucket(env: Env): (b: string)
    ensures b != ""
    ensures !IsSet(env, "STORAGE_BUCKET") ==> b == DefaultBucket
    ensures IsSet(env, "STORAGE_BUCKET") ==> b == env["STORAGE_BUCKET"]
  {
    EnvOr(env, "STORAGE_BUCKET", DefaultBucket)
  }

  /** `typeof body?.expires === "number" ? body.expires : 60`. */
  function Expires(body: Value): int {
    match Member(body, "expires")
    case Num(n) => n
    case _ => DefaultExpires
  }

  /** The validation chain of the handler, up to the storage call. */
  function Dispatch(req: Request, env: Env): (d: Decision)
    ensures req.httpMethod != "POST" ==> d == Respond(OnlyPost)
    ensures req.httpMethod == "POST" && !Configured(env) ==>
      d == Respond(ErrorResponse(StatusInternalServerError, "Missing SUPABASE_URL or SUPABASE_SERVICE_ROLE_KEY"))
    ensures req.httpMethod == "POST" && Configured(env) && !Truthy(Member(ParsedBody(req), "path")) ==>
      d == Respond(ErrorResponse(StatusBadRequest, "path is required in body"))
    ensures d.Call? <==> req.httpMethod == "POST" && Configured(env) && Truthy(Member(ParsedBody(req), "path"))
    ensures d.Call? ==> d.call.path == Member(ParsedBody(req), "path") && d.call.bucket == Bucket(env)
    ensures d.Call? && Member(ParsedBody(req), "expires").Num? ==> d.call.expires == Member(ParsedBody(req), "expires").n
    ensures d.Call? && !Member(ParsedBody(req), "expires").Num? ==> d.call.expires == DefaultExpires
  {
    if req.httpMethod != "POST" then
      Respond(OnlyPost)
    else if !Configured(env) then
      Respond(ErrorResponse(StatusInternalServerError, "Missing SUPABASE_URL or SUPABASE_SERVICE_ROLE_KEY"))
    else
      var body := ParsedBody(req);
      var path := Member(body, "path");
      if !Truthy(path) then
        Respond(ErrorResponse(StatusBadRequest, "path is required in body"))
      else
        Call(CreateSignedUrl(Bucket(env), path, Expires(body)))
  }

  /** The response built from the storage service's answer. */
  function Complete(reply: StoreReply): (r: Response)
    ensures reply.Signed? <==> r.status == StatusOk
    ensures reply.Signed? ==> r.body == JsonBody(Obj(map["signedUrl" := Member(reply.data, "signedUrl")])) && r.jsonType
    ensures reply.StoreError? ==> r == ErrorResponse(StatusInternalServerError, reply.message)
    ensures reply.StoreThrew? ==> r == ErrorResponse(StatusInternalServerError, reply.error)
  {
    match reply
    case Signed(data) =>
      Response(StatusOk, JsonBody(Obj(map["signedUrl" := Member(data, "signedUrl")])), true)
    case StoreError(message) =>
      ErrorResponse(StatusInternalServerError, message)
    case StoreThrew(error) =>
      ErrorResponse(StatusInternalServerError, error)
  }

  /** The handler: `store` answers the one storage call, when the handler gets that far. */
  function Handle(req: Request, env: Env, store: StoreCall -> StoreReply): Response {
    match Dispatch(req, env)
    case Respond(response) => response
    case Call(call) => Complete(store(call))
  }

  /** Any method but POST gets 405 whatever the configuration, body and storage. */
  lemma MethodCheckedFirst(req: Request, env1: Env, env2: Env, store1: StoreCall -> StoreReply, store2: StoreCall -> StoreReply)
    requires req.httpMethod != "POST"
    ensures Handle(req, env1, store1) == Handle(req, env2, store2) == OnlyPost
  {
  }

  /** Missing configuration gives 500 whatever the body: it is checked before the body is read. */
  lemma ConfigCheckedBeforeBody(req1: Request, req2: Request, env: Env, store1: StoreCall -> StoreReply, store2: StoreCall -> StoreReply)
    requires req1.httpMethod == "POST" && req2.httpMethod == "POST" && !Configured(env)
    ensures Handle(req1, env, store1) == Handle(req2, env, store2)
    ensures Handle(req1, env, store1).status == StatusInternalServerError
  {
  }

  /** A request that fails validation never reaches the storage service. */
  lemma StorageOnlyForValidRequests(req: Request, env: Env, store1: StoreCall -> StoreReply, store2: StoreCall -> StoreReply)
    requires !(req.httpMethod == "POST" && Configured(env) && Truthy(Member(ParsedBody(req), "path")))
    ensures Handle(req, env, store1) == Handle(req, env, store2)
    ensures Handle(req, env, store1).status in {StatusMethodNotAllowed, StatusInternalServerError, StatusBadRequest}
  {
  }

  /** 200 exactly when the request is valid and the storage service signs the URL. */
  lemma SuccessIff(req: Request, env: Env, store: StoreCall -> StoreReply)
    ensures Handle(req, env, store).status == StatusOk <==>
      Dispatch(req, env).Call? && store(Dispatch(req, env).call).Signed?
  {
  }

  /** A POST whose body is not JSON gets 400 "path is required in body" once configured. */
  lemma UnparsableBodyIsBadRequest(env: Env, store: StoreCall -> StoreReply)
    requires Configured(env)
    ensures Handle(Request("POST", None), env, store) == ErrorResponse(StatusBadRequest, "path is required in body")
  {
  }

  /** The documented example body: its path and `expires: 60` reach the store unchanged. */
  lemma ExampleRequest(env: Env)
    requires Configured(env)
    ensures
      var body := Obj(map["path" := Str("applications/12345-resume.pdf"), "expires" := Num(60)]);
      Dispatch(Request("POST", Some(body)), env) == Call(CreateSignedUrl(Bucket(env), Str("applications/12345-resume.pdf"), 60))
  {
  }
}
