/**
 * The two POST routes of the backend: /agent/query, which runs the agent loop for an
 * authenticated user, and /agent/transfer/execute, which executes an approved draft.
 *
 * Request bodies arrive as JSON objects whose fields may be missing; FastAPI validates them
 * (and the Authorization header) before the handler runs, answering 422 and naming every
 * field that is missing or too long. Inside the handlers the token is checked before
 * anything else.
 */
module Api {
  import opened Wrappers
  import opened PyValues
  import opened Auth
  import opened Audit
  import opened BankingTools
  import opened Orchestrator

  const QueryMaxLength: nat := 1000
  const IntentMaxLength: nat := 50
  const ContextSummaryMaxLength: nat := 2000
  const SessionIdMaxLength: nat := 64

  /**
   * How a route fails: a 422 naming the invalid inputs, or an HTTPException. BadAction is the
   * 500 FastAPI sends when building an AgentAction raises pydantic's ValidationError (an action
   * payload with a key that is not a string); it carries those keys, not the error's text.
   */
  datatype ApiError =
    | Unprocessable(fields: seq<string>)
    | Http(error: HttpError)
    | BadAction(keys: set<string>)

  // ---------------------------------------------------------------------------
  // AgentQueryRequest
  // ---------------------------------------------------------------------------

  /** The JSON body of /agent/query as received. */
  datatype QueryBody = QueryBody(
    query: Option<string>,
    intent: Option<string>,
    contextSummary: Option<string>,
    approvedDraftIds: Option<seq<string>>,
    sessionId: Option<string>)

  /** A validated AgentQueryRequest. */
  datatype AgentQueryRequest = AgentQueryRequest(
    query: string,
    intent: string,
    contextSummary: string,
    approvedDraftIds: seq<string>,
    sessionId: string)

  /** A required string field with a `max_length`: present, and no longer than the bound. */
  predicate Bounded(field: Option<string>, maxLength: nat)
  {
    field.Some? && |field.value| <= maxLength
  }

  /** The invalid field, named as a one-element list, or nothing. */
  function Check(ok: bool, name: string): seq<string>
  {
    if ok then [] else [name]
  }

  /** The inputs of /agent/query that fail validation, header first, then the body in field order. */
  function InvalidQueryFields(body: QueryBody, authorization: Option<string>): (fs: seq<string>)
    ensures "authorization" in fs <==> authorization.None?
    ensures "query" in fs <==> !Bounded(body.query, QueryMaxLength)
    ensures "intent" in fs <==> !Bounded(body.intent, IntentMaxLength)
    ensures "context_summary" in fs <==> !Bounded(body.contextSummary, ContextSummaryMaxLength)
    ensures "session_id" in fs <==> !Bounded(body.sessionId, SessionIdMaxLength)
    ensures |fs| <= 5
  {
    Check(authorization.Some?, "authorization")
    + Check(Bounded(body.query, QueryMaxLength), "query")
    + Check(Bounded(body.intent, IntentMaxLength), "intent")
    + Check(Bounded(body.contextSummary, ContextSummaryMaxLength), "context_summary")
    + Check(Bounded(body.sessionId, SessionIdMaxLength), "session_id")
  }

  /** Every field of a request is within its `max_length`. */
  predicate WithinBounds(req: AgentQueryRequest)
  {
    && |req.query| <= QueryMaxLength && |req.intent| <= IntentMaxLength
    && |req.contextSummary| <= ContextSummaryMaxLength && |req.sessionId| <= SessionIdMaxLength
  }

  /**
   * Parsing the body into an AgentQueryRequest: every field of the body, with
   * approved_draft_ids defaulting to the empty list, or the 422 naming what is wrong.
   */
  function ParseQuery(body: QueryBody, authorization: Option<string>): (r: Result<(AgentQueryRequest, string), ApiError>)
    ensures r.Ok? <==> InvalidQueryFields(body, authorization) == []
    ensures r.Err? ==> r.error == Unprocessable(InvalidQueryFields(body, authorization))
    ensures r.Ok? ==> var (req, header) := r.value;
      && WithinBounds(req) && Some(header) == authorization
      && Some(req.query) == body.query && Some(req.intent) == body.intent
      && Some(req.contextSummary) == body.contextSummary && Some(req.sessionId) == body.sessionId
      && req.approvedDraftIds == body.approvedDraftIds.GetOr([])
  {
    var invalid := InvalidQueryFields(body, authorization);
    if invalid != [] then Err(Unprocessable(invalid))
    else
      Ok((AgentQueryRequest(body.query.value, body.intent.value, body.contextSummary.value,
                            body.approvedDraftIds.GetOr([]), body.sessionId.value),
          authorization.value))
  }

  /** The body a client sends for a request. */
  function BodyOf(req: AgentQueryRequest): QueryBody
  {
    QueryBody(Some(req.query), Some(req.intent), Some(req.contextSummary), Some(req.approvedDraftIds), Some(req.sessionId))
  }

  /** A request within bounds survives the trip through JSON unchanged. */
  lemma ParseQueryRoundTrip(req: AgentQueryRequest, authorization: string)
    requires WithinBounds(req)
    ensures ParseQuery(BodyOf(req), Some(authorization)) == Ok((req, authorization))
  {
    assert InvalidQueryFields(BodyOf(req), Some(authorization)) == [];
  }

  /** A missing approved_draft_ids is the empty list: no transfer can be executed by the agent. */
  lemma MissingApprovalsAreEmpty(body: QueryBody, authorization: Option<string>)
    requires body.approvedDraftIds.None? && ParseQuery(body, authorization).Ok?
    ensures ParseQuery(body, authorization).value.0.approvedDraftIds == []
  {
  }

  // ---------------------------------------------------------------------------
  // agent_query
  // ---------------------------------------------------------------------------

  /** An AgentAction: the action's type and its payload, which must map strings to strings. */
  datatype AgentAction = AgentAction(kind: string, payload: map<string, string>)

  datatype AgentQueryResponse = AgentQueryResponse(text: string, actions: seq<AgentAction>, sessionId: string)

  /** The keys of a payload whose values are not strings. */
  function NonStringKeys(payload: map<string, Value>): set<string>
  {
    set k | k in payload && !payload[k].Str?
  }

  /** `AgentAction(**a)`: payload values that are not strings fail validation, all of them reported. */
  function ToAgentAction(a: Action): (r: Result<AgentAction, ApiError>)
    ensures r.Ok? <==> NonStringKeys(a.payload) == {}
    ensures r.Ok? ==>
      && r.value.kind == a.kind && r.value.payload.Keys == a.payload.Keys
      && forall k | k in a.payload :: a.payload[k] == Str(r.value.payload[k])
    ensures r.Err? ==> r.error == BadAction(NonStringKeys(a.payload))
  {
    var bad := NonStringKeys(a.payload);
    if bad != {} then Err(BadAction(bad))
    else
      assert forall k | k in a.payload :: k !in bad;
      Ok(AgentAction(a.kind, map k | k in a.payload :: a.payload[k].s))
  }

  /** The list comprehension over the agent's actions; the first that fails validation raises. */
  function ToAgentActions(actions: seq<Action>): (r: Result<seq<AgentAction>, ApiError>)
    ensures r.Ok? <==> forall i | 0 <= i < |actions| :: ToAgentAction(actions[i]).Ok?
    ensures r.Ok? ==> |r.value| == |actions| && forall i | 0 <= i < |actions| :: r.value[i] == ToAgentAction(actions[i]).value
    decreases |actions|
  {
    if actions == [] then Ok([])
    else
      match ToAgentAction(actions[0])
      case Err(e) => Err(e)
      case Ok(a) =>
        match ToAgentActions(actions[1..])
        case Err(e) => Err(e)
        case Ok(rest) => Ok([a] + rest)
  }

  /** The user_context handed to the agent: the user id from the token, never from the body. */
  function UserContext(userId: string, req: AgentQueryRequest): map<string, string>
  {
    map["user_id" := userId, "context_summary" := req.contextSummary, "session_id" := req.sessionId]
  }

  /** The arguments run_cloud_agent is called with, max_iterations at its default. */
  function AgentInputOf(userId: string, req: AgentQueryRequest): AgentInput
  {
    AgentInput(req.query, req.intent, UserContext(userId, req), req.approvedDraftIds, DefaultMaxIterations)
  }

  /**
   * The response to an agent outcome. It always echoes the request's session id and carries
   * the agent's text and its actions, each converted, in order. An exception in the agent is a
   * 500 with its text, and so is an action that fails validation.
   */
  function Respond(req: AgentQueryRequest, outcome: Result<AgentResult, string>): (r: Result<AgentQueryResponse, ApiError>)
    ensures r.Ok? ==> outcome.Ok? && r.value.sessionId == req.sessionId && r.value.text == outcome.value.text
                      && |r.value.actions| == |outcome.value.actions|
                      && forall i | 0 <= i < |r.value.actions| :: Ok(r.value.actions[i]) == ToAgentAction(outcome.value.actions[i])
    ensures outcome.Ok? ==> (r.Ok? <==> forall i | 0 <= i < |outcome.value.actions| :: ToAgentAction(outcome.value.actions[i]).Ok?)
    ensures outcome.Err? ==> r == Err(Http(HttpError(500, outcome.error)))
  {
    match outcome
    case Err(e) => Err(Http(HttpError(500, e)))
    case Ok(result) =>
      match ToAgentActions(result.actions)
      case Err(e) => Err(e)
      case Ok(actions) => Ok(AgentQueryResponse(result.text, actions, req.sessionId))
  }

  /** When the handler reaches run_cloud_agent: a valid request with an accepted token. */
  function Admitted(body: QueryBody, authorization: Option<string>): Option<AgentInput>
  {
    match ParseQuery(body, authorization)
    case Err(_) => None
    case Ok((req, header)) =>
      match VerifyToken(header)
      case Err(_) => None
      case Ok(userId) => Some(AgentInputOf(userId, req))
  }

  /**
   * What agent_query answers, given the model and clocks the agent would see: a 422 or a 401
   * when the request is not admitted, else the response to the admitted agent's run.
   */
  function AgentQueryResult(body: QueryBody, authorization: Option<string>, o: Oracles): (r: Result<AgentQueryResponse, ApiError>)
    ensures Admitted(body, authorization).None?
            ==> r.Err? && (r.error.Unprocessable? || (r.error.Http? && r.error.error.status == 401))
    ensures Admitted(body, authorization).Some?
            ==> r == Respond(ParseQuery(body, authorization).value.0, AgentRun(Admitted(body, authorization).value, o, ExecuteTool).outcome)
  {
    match ParseQuery(body, authorization)
    case Err(e) => Err(e)
    case Ok((req, header)) =>
      match VerifyToken(header)
      case Err(e) => Err(Http(e))
      case Ok(userId) => Respond(req, AgentRun(AgentInputOf(userId, req), o, ExecuteTool).outcome)
  }

  /** The audit entries agent_query writes: the agent's, when it is reached, else none. */
  function AgentQueryLog(body: QueryBody, authorization: Option<string>, o: Oracles): seq<Entry>
  {
    match Admitted(body, authorization)
    case None => []
    case Some(input) => AgentRun(input, o, ExecuteTool).state.log
  }

  /** agent_query: validate, verify the token, run the agent, and shape its result. */
  method AgentQuery(body: QueryBody, authorization: Option<string>, o: Oracles, audit: AuditLogger)
    returns (r: Result<AgentQueryResponse, ApiError>)
    modifies audit
    ensures r == AgentQueryResult(body, authorization, o)
    ensures audit.entries == old(audit.entries) + AgentQueryLog(body, authorization, o)
  {
    var parsed := ParseQuery(body, authorization);
    if parsed.Err? {
      return Err(parsed.error);
    }
    var (req, header) := parsed.value;
    var user := VerifyToken(header);
    if user.Err? {
      return Err(Http(user.error));
    }
    var outcome := RunCloudAgent(AgentInputOf(user.value, req), o, ExecuteTool, audit);
    r := Respond(req, outcome);
  }

  /**
   * An invalid request is answered 422, and a refused token 401, without running the agent:
   * nothing is written to the audit log.
   */
  lemma RejectedQueriesDoNotRunTheAgent(body: QueryBody, authorization: Option<string>, o: Oracles)
    ensures var r := AgentQueryResult(body, authorization, o);
      && (InvalidQueryFields(body, authorization) != [] ==> r == Err(Unprocessable(InvalidQueryFields(body, authorization))))
      && (InvalidQueryFields(body, authorization) == [] && VerifyToken(authorization.value).Err?
          ==> r == Err(Http(VerifyToken(authorization.value).error)) && r.error.error.status == 401)
      && (Admitted(body, authorization).None? ==> AgentQueryLog(body, authorization, o) == [])
  {
  }

  /**
   * The agent runs for the token's user with the body's context summary, session id and
   * approvals, and at most eight model calls.
   */
  lemma AgentSeesTokenUser(body: QueryBody, authorization: Option<string>)
    requires Admitted(body, authorization).Some?
    ensures var input := Admitted(body, authorization).value;
      && input.context["user_id"] == DevUserId
      && Some(input.context["context_summary"]) == body.contextSummary
      && Some(input.context["session_id"]) == body.sessionId
      && input.approvedDraftIds == body.approvedDraftIds.GetOr([])
      && Some(input.userMessage) == body.query
      && input.maxIterations == 8
  {
    var (req, header) := ParseQuery(body, authorization).value;
    assert VerifyToken(header).value == DevUserId;
  }

  /**
   * The agent's staged transfers reach the app when their memo is a string; a memo of any
   * other type fails validation of the response, which the handler turns into a 500.
   */
  lemma StagedActionsConvert(from: string, to: string, amount: Value, memo: Value, hex: Hex8)
    ensures var a := StagedAction(Str(from), Str(to), amount, memo, hex);
      ToAgentAction(a).Ok? <==> memo.Str?
  {
    var a := StagedAction(Str(from), Str(to), amount, memo, hex);
    assert "memo" in a.payload && a.payload["memo"] == memo;
    if memo.Str? {
      assert NonStringKeys(a.payload) == {};
    } else {
      assert "memo" in NonStringKeys(a.payload);
    }
  }

  // ---------------------------------------------------------------------------
  // execute_transfer
  // ---------------------------------------------------------------------------

  /** The JSON body of /agent/transfer/execute as received. */
  datatype TransferBody = TransferBody(draftId: Option<string>, confirmationToken: Option<string>)

  datatype TransferReceipt = TransferReceipt(status: string, result: string)

  const InvalidRequest: HttpError := HttpError(400, "Invalid request")

  function InvalidTransferFields(body: TransferBody, authorization: Option<string>): (fs: seq<string>)
    ensures fs == [] <==> authorization.Some? && body.draftId.Some? && body.confirmationToken.Some?
  {
    Check(authorization.Some?, "authorization")
    + Check(body.draftId.Some?, "draft_id")
    + Check(body.confirmationToken.Some?, "confirmation_token")
  }

  /**
   * execute_transfer: validate, verify the token, refuse an empty draft id or token with a
   * 400, and otherwise execute through the banking API.
   */
  function ExecuteTransfer(body: TransferBody, authorization: Option<string>): (r: Result<TransferReceipt, ApiError>)
    ensures r.Ok? <==> && InvalidTransferFields(body, authorization) == []
                       && VerifyToken(authorization.value).Ok?
                       && body.draftId.value != [] && body.confirmationToken.value != []
    ensures r.Ok? ==> r.value == TransferReceipt("executed",
                        ExecuteTransferApi(body.draftId.value, DevUserId, body.confirmationToken.value))
    ensures InvalidTransferFields(body, authorization) != [] ==> r == Err(Unprocessable(InvalidTransferFields(body, authorization)))
    ensures InvalidTransferFields(body, authorization) == [] && VerifyToken(authorization.value).Err?
            ==> r == Err(Http(VerifyToken(authorization.value).error))
  {
    var invalid := InvalidTransferFields(body, authorization);
    if invalid != [] then Err(Unprocessable(invalid))
    else
      match VerifyToken(authorization.value)
      case Err(e) => Err(Http(e))
      case Ok(userId) =>
        if body.draftId.value == [] || body.confirmationToken.value == [] then Err(Http(InvalidRequest))
        else Ok(TransferReceipt("executed", ExecuteTransferApi(body.draftId.value, userId, body.confirmationToken.value)))
  }

  /** With a valid header, an empty draft id or token is a 400 whatever else the body holds. */
  lemma EmptyFieldsAreBadRequests(draftId: string, token: string, authorization: string)
    requires VerifyToken(authorization).Ok?
    requires draftId == [] || token == []
    ensures ExecuteTransfer(TransferBody(Some(draftId), Some(token)), Some(authorization)) == Err(Http(InvalidRequest))
  {
  }
}
