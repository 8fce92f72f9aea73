/** Requests, responses and environment variables as the two serverless handlers see them. */
module Http {
  import opened Wrappers
  import opened Json

  /** 200 OK, section 15.3.1 of RFC 9110. */
  const StatusOk := 200
  /** 400 Bad Request, section 15.5.1 of RFC 9110. */
  const StatusBadRequest := 400
  /** 405 Method Not Allowed, section 15.5.6 of RFC 9110. */
  const StatusMethodNotAllowed := 405
  /** 500 Internal Server Error, section 15.6.1 of RFC 9110. */
  const StatusInternalServerError := 500

  /**
   * An incoming request: its method (`req.method`), and its body as `req.json()` parses it
   * (`None` when the body is not JSON at all).
   */
  datatype Request = Request(httpMethod: string, body: Option<Value>)

  /** `await req.json().catch(() => null)`. */
  function ParsedBody(req: Request): Value {
    req.body.GetOr(Null)
  }

  datatype Body = PlainText(text: string) | JsonBody(value: Value)

  /** A response; `jsonType` is set when it carries `Content-Type: application/json`. */
  datatype Response = Response(status: int, body: Body, jsonType: bool)

  /** The function's secrets: `Deno.env.get(key)` is `env[key]` when the key is present. */
  type Env = map<string, string>

  /** `Deno.env.get(key)` is truthy: present and non-empty. */
  predicate IsSet(env: Env, key: string) {
    key in env && env[key] != ""
  }

  /** `Deno.env.get(key) || default`. */
  function EnvOr(env: Env, key: string, default: string): string {
    if IsSet(env, key) then env[key] else default
  }

  /** `new Response("Only POST allowed", { status: 405 })`. */
  const OnlyPost := Response(StatusMethodNotAllowed, PlainText("Only POST allowed"), false)

  /** `new Response(JSON.stringify({ error: message }), { status })`. */
  function ErrorResponse(status: int, message: string): Response {
    Response(status, JsonBody(Obj(map["error" := Str(message)])), false)
  }
}
