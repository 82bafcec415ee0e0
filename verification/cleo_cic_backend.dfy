/**
 * The partner-platform backend of `src/tools/backends/cleo-cic-backend.js`:
 * the operation-to-path table, the request it would send, and how the
 * reply is classified. The environment, the JSON serialiser and the HTTP
 * exchange itself are parameters; a reply is reduced to its `ok` flag, its
 * status code and its body (`None` when the body is not JSON).
 */
module CleoCicBackend {
  import opened Base
  import opened Json

  const ApplyMappingPath := "/api/v1/mappings/apply"
  const ExecuteTestSuitePath := "/api/v1/tests/execute"
  const ExecuteToolPath := "/api/v1/tools/execute"

  /** `mapOperationPath`: two named operations have their own path, everything else the generic one. */
  function MapOperationPath(operation: Option<string>): (path: string)
    ensures operation == Some("apply_mapping") ==> path == ApplyMappingPath
    ensures operation == Some("execute_test_suite") ==> path == ExecuteTestSuitePath
    ensures operation != Some("apply_mapping") && operation != Some("execute_test_suite") ==> path == ExecuteToolPath
  {
    match operation
    case Some("apply_mapping") => ApplyMappingPath
    case Some("execute_test_suite") => ExecuteTestSuitePath
    case _ => ExecuteToolPath
  }

  /** `baseUrl.replace(/\/$/, '')`: drops at most one trailing slash. */
  function StripTrailingSlash(s: string): (r: string)
    ensures |s| > 0 && s[|s| - 1] == '/' ==> r + "/" == s
    ensures !(|s| > 0 && s[|s| - 1] == '/') ==> r == s
  {
    if |s| > 0 && s[|s| - 1] == '/' then s[..|s| - 1] else s
  }

  /** The three environment variables the backend reads. */
  datatype Env = Env(baseUrl: Option<string>, token: Option<string>, tenant: Option<string>)

  /** A set, non-empty variable. */
  predicate Set(v: Option<string>) {
    v.Some? && v.value != ""
  }

  predicate Configured(env: Env) {
    Set(env.baseUrl) && Set(env.token)
  }

  datatype Request = Request(endpoint: string, headers: map<string, string>, body: string)

  /** The POST the backend sends for a configured environment. */
  function BuildRequest(env: Env, operation: Option<string>, payload: Raw, stringify: Raw -> string): (req: Request)
    requires Configured(env)
    ensures req.endpoint == StripTrailingSlash(env.baseUrl.value) + MapOperationPath(operation)
    ensures "Content-Type" in req.headers && req.headers["Content-Type"] == "application/json"
    ensures "Authorization" in req.headers && req.headers["Authorization"] == "Bearer " + env.token.value
    ensures "X-CIC-Tenant" in req.headers <==> Set(env.tenant)
    ensures Set(env.tenant) ==> req.headers["X-CIC-Tenant"] == env.tenant.value
    ensures req.headers.Keys <= {"Content-Type", "Authorization", "X-CIC-Tenant"}
    ensures req.body == stringify(payload)
  {
    var headers := map["Content-Type" := "application/json", "Authorization" := "Bearer " + env.token.value];
    Request(StripTrailingSlash(env.baseUrl.value) + MapOperationPath(operation),
            if Set(env.tenant) then headers["X-CIC-Tenant" := env.tenant.value] else headers,
            stringify(payload))
  }

  /** A reply: success flag, status code and JSON body if it had one. */
  datatype Response = Response(ok: bool, status: nat, body: Option<Raw>)

  datatype Status = Executed | Skipped | Failed

  datatype Outcome = Outcome(status: Status, reason: Option<string>, response: Option<Raw>)

  const MissingConfigReason := "Missing CLEO_CIC_BASE_URL or CLEO_CIC_TOKEN"

  function FailureReason(status: nat): string {
    "Cleo CIC call failed: " + NatToString(status)
  }

  /** `callCleoCicBackend`, with the HTTP exchange supplied as `send`. */
  function CallCleoCicBackend(env: Env, operation: Option<string>, payload: Raw, stringify: Raw -> string,
                              send: Request -> Response): (out: Outcome)
    ensures out.status == Skipped <==> !Configured(env)
    ensures out.status == Skipped ==> out.reason == Some(MissingConfigReason) && out.response.None?
    ensures Configured(env) ==>
      var reply := send(BuildRequest(env, operation, payload, stringify));
      out.response == Some(reply.body.GetOr(RNull)) &&
      (out.status == Failed <==> !reply.ok) &&
      (out.status == Failed ==> out.reason == Some(FailureReason(reply.status))) &&
      (out.status == Executed ==> out.reason.None?)
  {
    if !Configured(env) then Outcome(Skipped, Some(MissingConfigReason), None)
    else
      var reply := send(BuildRequest(env, operation, payload, stringify));
      var body := reply.body.GetOr(RNull);
      if !reply.ok then Outcome(Failed, Some(FailureReason(reply.status)), Some(body))
      else Outcome(Executed, None, Some(body))
  }

  /** Without a base URL and token nothing is sent: the outcome is the same whatever the network does. */
  lemma UnconfiguredNeverSends(env: Env, operation: Option<string>, payload: Raw, stringify: Raw -> string,
                               send1: Request -> Response, send2: Request -> Response)
    requires !Configured(env)
    ensures CallCleoCicBackend(env, operation, payload, stringify, send1) ==
            CallCleoCicBackend(env, operation, payload, stringify, send2)
  {
  }

  /** A trailing slash on the base URL does not change where the request goes. */
  lemma TrailingSlashIgnored(base: string, operation: Option<string>)
    requires base == "" || base[|base| - 1] != '/'
    ensures StripTrailingSlash(base + "/") + MapOperationPath(operation) ==
            StripTrailingSlash(base) + MapOperationPath(operation)
  {
    assert (base + "/")[..|base|] == base;
  }

  /** The failure reason names the status code, which can be read back from it. */
  lemma FailureReasonNamesStatus(status: nat)
    ensures var prefix := "Cleo CIC call failed: ";
      |FailureReason(status)| > |prefix| && FailureReason(status)[..|prefix|] == prefix &&
      ParseNat(FailureReason(status)[|prefix|..]) == status
  {
    var prefix := "Cleo CIC call failed: ";
    assert FailureReason(status)[|prefix|..] == NatToString(status);
    NatToStringRoundTrip(status);
  }
}
