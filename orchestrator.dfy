/**
 * run_cloud_agent and execute_tool: the bounded tool-use loop between the language model and
 * the banking tools.
 *
 * The model, the uuid generator and the two clocks are oracles. Each call of the model sees
 * the conversation so far; the n-th staged draft gets the n-th uuid prefix; a clock reading
 * is indexed by the iteration and by the number of tool results gathered in it so far.
 *
 * The loop is given twice: once as the function AgentRun, whose properties are proved as
 * lemmas, and once as the imperative method RunCloudAgent, which is proved to return what
 * AgentRun returns and to append to the audit log exactly the entries AgentRun records.
 */
module Orchestrator {
  import opened Wrappers
  import opened Text
  import opened PyValues
  import opened Guardrails
  import opened Audit
  import opened BankingTools

  // ---------------------------------------------------------------------------
  // The conversation with the model
  // ---------------------------------------------------------------------------

  /** A content block of a model response. */
  datatype Block =
    | TextBlock(text: string)
    | ToolUse(id: string, name: string, input: map<string, Value>)
    | OtherBlock(kind: string)

  datatype ModelResponse = ModelResponse(stopReason: string, content: seq<Block>)

  datatype ToolResult = ToolResult(toolUseId: string, content: string)

  /** An entry of `messages`: the opening user prompt, an assistant turn, or a user turn of tool results. */
  datatype Message =
    | UserPrompt(text: string)
    | AssistantTurn(content: seq<Block>)
    | ToolResults(results: seq<ToolResult>)

  /** An action reported to the app, such as a staged transfer awaiting confirmation. */
  datatype Action = Action(kind: string, payload: map<string, Value>)

  /** What execute_tool returns: the tool's text and, for a staged transfer, its action. */
  datatype ToolOutput = ToolOutput(output: string, action: Option<Action>)

  /** The first eight characters of `uuid4().hex`. */
  type Hex8 = s: string | |s| == 8 && forall i | 0 <= i < 8 :: IsLowerHex(s[i]) witness "00000000"

  const EndTurn: string := "end_turn"
  const LlmCallEvent: string := "llm_call"
  const ToolCallEvent: string := "tool_call"

  const GetAccountSummaryTool: string := "get_account_summary"
  const StageTransferTool: string := "stage_transfer"
  const ExecuteTransferTool: string := "execute_transfer"
  const GetInvestmentPortfolioTool: string := "get_investment_portfolio"
  const GetMarketRatesTool: string := "get_market_rates"
  const FileFraudDisputeTool: string := "file_fraud_dispute"
  const GetSpendingAnalysisTool: string := "get_spending_analysis"

  /** The tools execute_tool knows. */
  const ToolNames: set<string> := {
    GetAccountSummaryTool, StageTransferTool, ExecuteTransferTool, GetInvestmentPortfolioTool,
    GetMarketRatesTool, FileFraudDisputeTool, GetSpendingAnalysisTool
  }

  const TimeoutText: string := "I wasn't able to complete " + "that in time. Please try " + "again."
  const NotApprovedText: string :=
    "ERROR: This transfer has " + "not been approved by the " + "user. Please show them " + "the confirmation UI first."
  const DefaultMaxIterations: int := 8

  function BlockedText(v: Violation): string
  {
    "Blocked by guardrail: " + ViolationMessage(v)
  }

  // ---------------------------------------------------------------------------
  // execute_tool
  // ---------------------------------------------------------------------------

  /** `args[key]`, or the KeyError it raises. */
  function Required(args: map<string, Value>, key: string): (r: Result<Value, string>)
    ensures r.Ok? <==> key in args
    ensures r.Ok? ==> r.value == args[key]
  {
    if key in args then Ok(args[key]) else Err("'" + key + "'")
  }

  /** `f"{v:.2f}"`: numbers (a bool counts as 0 or 1) are rounded to cents; anything else raises. */
  function FormatAmount(v: Value): (r: Result<string, string>)
    ensures r.Ok? <==> v.Int? || v.Bool? || v.Float?
  {
    match v
    case Int(i) => Ok(FormatCents(i * 100))
    case Bool(b) => Ok(FormatCents(if b then 100 else 0))
    case Float(x, _) => Ok(FormatCents(RoundCents(x)))
    case Str(_) => Err("Unknown format code 'f' " + "for object of type 'str'")
    case Null => Err("unsupported format string " + "passed to NoneType.__format__")
    case Compound(t, _) => Err("unsupported format string " + "passed to " + t + ".__format__")
  }

  function DraftId(hex: Hex8): string
  {
    "draft_" + hex
  }

  /** The shape of every draft id the agent hands out. */
  predicate IsDraftId(s: string)
  {
    |s| == 14 && s[..6] == "draft_" && forall i | 6 <= i < 14 :: IsLowerHex(s[i])
  }

  lemma DraftIdShape(hex: Hex8)
    ensures IsDraftId(DraftId(hex))
  {
    assert DraftId(hex)[..6] == "draft_";
    forall i | 6 <= i < 14
      ensures IsLowerHex(DraftId(hex)[i])
    {
      assert DraftId(hex)[i] == hex[i - 6];
    }
  }

  function StagedText(from: Value, to: Value, amountText: string, memo: Value, draftId: string): string
  {
    "Transfer staged:\n" + "        From: " + PyStr(from) + " \U{2192} To: " + PyStr(to)
    + "\n        Amount: $" + amountText
    + "\n        Memo: " + PyStr(memo)
    + "\n        Draft ID: " + draftId
    + "\n        Status: Awaiting " + "user confirmation in app"
  }

  /** The `transfer_staged` action: the draft id and the transfer's fields, the amount as `str(amount)`. */
  function StagedAction(from: Value, to: Value, amount: Value, memo: Value, hex: Hex8): Action
  {
    Action("transfer_staged", map[
      "draft_id" := Str(DraftId(hex)),
      "from_account" := from,
      "to_account" := to,
      "amount" := Str(PyStr(amount)),
      "memo" := memo
    ])
  }

  /** The draft a stage_transfer call with these arguments stages under `hex`. */
  function StagedDraft(args: map<string, Value>, hex: Hex8): Action
  {
    StagedAction(Get(args, "from_account", Null), Get(args, "to_account", Null), Get(args, "amount", Null), Get(args, "memo", Str("")), hex)
  }

  /**
   * Exactly the stage_transfer calls that succeed yield an action, and that action is the
   * staged draft of the call's own arguments.
   */
  predicate StagesOnly(name: string, args: map<string, Value>, hex: Hex8, r: Result<ToolOutput, string>)
  {
    && (name == StageTransferTool && r.Ok? ==> r.value.action.Some?)
    && (r.Ok? && r.value.action.Some? ==>
          && name == StageTransferTool
          && "from_account" in args && "to_account" in args && "amount" in args
          && r.value.action.value == StagedDraft(args, hex))
  }

  /**
   * The stage_transfer branch of execute_tool, with `uuid4().hex[:8]` passed in. It reads
   * `from_account`, `to_account` and `amount` (a KeyError for the first one missing), then
   * formats the amount; `memo` shows as "none" in the text and is "" in the action when absent.
   */
  function StageTransfer(args: map<string, Value>, hex: Hex8): (r: Result<ToolOutput, string>)
    ensures r.Ok? <==> "from_account" in args && "to_account" in args && "amount" in args && FormatAmount(args["amount"]).Ok?
    ensures StagesOnly(StageTransferTool, args, hex, r)
  {
    match Required(args, "from_account")
    case Err(e) => Err(e)
    case Ok(from) =>
      match Required(args, "to_account")
      case Err(e) => Err(e)
      case Ok(to) =>
        match Required(args, "amount")
        case Err(e) => Err(e)
        case Ok(amount) =>
          match FormatAmount(amount)
          case Err(e) => Err(e)
          case Ok(amountText) =>
            Ok(ToolOutput(
              StagedText(from, to, amountText, Get(args, "memo", Str("none")), DraftId(hex)),
              Some(StagedAction(from, to, amount, Get(args, "memo", Str("")), hex))))
  }

  /**
   * Every other branch of execute_tool: the tool's text, or the exception it raises. Optional
   * arguments take the defaults of the banking tool functions; a missing required one raises KeyError.
   */
  function ToolText(name: string, args: map<string, Value>, userId: string, now: DateTime): (r: Result<string, string>)
    ensures name !in ToolNames ==> r == Ok("Unknown tool: " + name)
    ensures name == GetAccountSummaryTool && "account_type" !in args ==> r == GetAccountSummary(userId, Str("all"))
    ensures name == GetMarketRatesTool && "rate_type" !in args ==> r == GetMarketRates(Str("hysa"))
    ensures name == GetSpendingAnalysisTool && "days" !in args && "category" !in args
            ==> r == Ok(GetSpendingAnalysis(userId, Int(30), Str("all")))
  {
    if name == GetAccountSummaryTool then
      GetAccountSummary(userId, Get(args, "account_type", Str("all")))
    else if name == ExecuteTransferTool then
      match Required(args, "approved_draft_id")
      case Err(e) => Err(e)
      case Ok(draftId) =>
        match Required(args, "confirmation_token")
        case Err(e) => Err(e)
        case Ok(token) =>
          if draftId.Str? then Ok(ExecuteTransferApi(draftId.s, userId, PyStr(token)))
          else Err(SliceUpperError(draftId, 8))
    else if name == GetInvestmentPortfolioTool then
      Ok(GetInvestmentPortfolio(userId))
    else if name == GetMarketRatesTool then
      GetMarketRates(Get(args, "rate_type", Str("hysa")))
    else if name == FileFraudDisputeTool then
      match Required(args, "transaction_id")
      case Err(e) => Err(e)
      case Ok(transactionId) =>
        match Required(args, "reason")
        case Err(e) => Err(e)
        case Ok(reason) => FileFraudDispute(transactionId, reason, userId, now)
    else if name == GetSpendingAnalysisTool then
      Ok(GetSpendingAnalysis(userId, Get(args, "days", Int(30)), Get(args, "category", Str("all"))))
    else
      Ok("Unknown tool: " + name)
  }

  function Plain(r: Result<string, string>): Result<ToolOutput, string>
  {
    match r
    case Ok(text) => Ok(ToolOutput(text, None))
    case Err(e) => Err(e)
  }

  /**
   * execute_tool: dispatch on the tool name; the user id comes from the context, "unknown"
   * when it has none. The tool names are distinct, so testing stage_transfer first selects the
   * same branch as execute_tool's chain of `elif`s.
   */
  function ExecuteTool(name: string, args: map<string, Value>, ctx: map<string, string>, hex: Hex8, now: DateTime): (r: Result<ToolOutput, string>)
    ensures StagesOnly(name, args, hex, r)
  {
    if name == StageTransferTool then StageTransfer(args, hex)
    else Plain(ToolText(name, args, GetText(ctx, "user_id", "unknown"), now))
  }

  /** An unknown tool is answered, not raised: its name is echoed back and no action is taken. */
  lemma UnknownToolIsEchoed(name: string, args: map<string, Value>, ctx: map<string, string>, hex: Hex8, now: DateTime)
    requires name !in ToolNames
    ensures ExecuteTool(name, args, ctx, hex, now) == Ok(ToolOutput("Unknown tool: " + name, None))
  {
    assert StageTransferTool in ToolNames;
  }

  /**
   * A string amount gets past validate_transfer, which converts it with float(), but `:.2f`
   * then raises on it, and nothing in the loop catches that.
   */
  lemma StringAmountPassesGuardButNotStaging(parseFloat: string -> Option<real>, ctx: map<string, string>, hex: Hex8, now: DateTime)
    requires parseFloat("50") == Some(50.0)
    ensures var args := map["from_account" := Str("checking"), "to_account" := Str("savings"), "amount" := Str("50")];
      && ValidateTransfer(args, parseFloat).Ok?
      && ExecuteTool(StageTransferTool, args, ctx, hex, now) == Err("Unknown format code 'f' " + "for object of type 'str'")
  {
    assert Lower("checking") == "checking";
    assert Lower("savings") == "savings";
  }

  /** execute_tool's signature: name, arguments, user context, the uuid prefix and the local clock reading. */
  type ToolRunner = (string, map<string, Value>, map<string, string>, Hex8, DateTime) -> Result<ToolOutput, string>

  /** What the loop relies on from execute_tool: a successful stage_transfer, and nothing else, stages its own arguments. */
  ghost predicate ToolContract(run: ToolRunner)
  {
    forall name, args, ctx, hex, now :: StagesOnly(name, args, hex, run(name, args, ctx, hex, now))
  }

  lemma ExecuteToolMeetsContract()
    ensures ToolContract(ExecuteTool)
  {
    forall name, args, ctx, hex, now
      ensures StagesOnly(name, args, hex, ExecuteTool(name, args, ctx, hex, now))
    {
    }
  }

  // ---------------------------------------------------------------------------
  // The loop as a function of its inputs and oracles
  // ---------------------------------------------------------------------------

  /** The arguments of run_cloud_agent. */
  datatype AgentInput = AgentInput(
    userMessage: string,
    intent: string,
    context: map<string, string>,
    approvedDraftIds: seq<string>,
    maxIterations: int)

  /**
   * Everything the loop reads from outside: the model, float(), uuid4 and the clocks. uuid4 is
   * indexed by the number of actions staged so far; a clock reading by the iteration and the
   * number of tool results gathered in it when the clock is read.
   */
  datatype Oracles = Oracles(
    model: seq<Message> -> ModelResponse,
    parseFloat: string -> Option<real>,
    draftHex: nat -> Hex8,
    utcClock: (nat, nat) -> DateTime,
    localClock: (nat, nat) -> DateTime)

  datatype AgentResult = AgentResult(text: string, actions: seq<Action>)

  /** A tool call that reached execute_tool. */
  datatype ToolCall = ToolCall(name: string, args: map<string, Value>)

  /**
   * The loop's state: the conversation, the actions taken, and, for the proofs, the audit
   * entries written and the tool calls executed in this run.
   */
  datatype RunState = RunState(messages: seq<Message>, actions: seq<Action>, log: seq<Entry>, calls: seq<ToolCall>)

  /** The state within one iteration: the tool results gathered so far. */
  datatype Turn = Turn(results: seq<ToolResult>, state: RunState)

  /** Handling a block either goes on or raises out of the loop. */
  datatype Flow = Next(turn: Turn) | Raised(error: string, failed: RunState)

  /** How one iteration ends: the loop returns or raises, or it continues with a new state. */
  datatype Step = Done(outcome: Result<AgentResult, string>, state: RunState) | Continue(state: RunState)

  /** How the loop ended: its outcome, final state, number of model calls and whether it ran out of iterations. */
  datatype Finish = Finish(outcome: Result<AgentResult, string>, state: RunState, modelCalls: nat, timedOut: bool)

  function UserId(input: AgentInput): string
  {
    GetText(input.context, "user_id", "unknown")
  }

  /** The opening user message: the query, the context summary, the intent and the session. */
  function InitialPrompt(input: AgentInput): string
  {
    input.userMessage + "\n\nUser context: " + GetText(input.context, "context_summary", "No context")
    + "\nIntent: " + input.intent + "\nSession: " + GetText(input.context, "session_id", "unknown")
  }

  function LlmCallMetadata(input: AgentInput, iteration: nat, stopReason: string): map<string, string>
  {
    map[
      "user_id" := UserId(input),
      "session_id" := GetText(input.context, "session_id", ""),
      "iteration" := NatToString(iteration),
      "stop_reason" := stopReason,
      "intent" := input.intent
    ]
  }

  function ToolCallMetadata(input: AgentInput, tool: string): map<string, string>
  {
    map["user_id" := UserId(input), "tool" := tool, "has_result" := "yes"]
  }

  /** The llm_call entry written after the model answered in iteration `it`. */
  function ModelCallEntry(input: AgentInput, o: Oracles, it: nat, stopReason: string): Entry
  {
    Entry(LlmCallEvent, o.utcClock(it, 0), LlmCallMetadata(input, it, stopReason))
  }

  /** The tool_call entry written after a tool ran in iteration `it`, once `results` were gathered. */
  function ToolCallEntry(input: AgentInput, o: Oracles, it: nat, name: string, results: seq<ToolResult>): Entry
  {
    Entry(ToolCallEvent, o.utcClock(it, |results|), ToolCallMetadata(input, name))
  }

  /** An execute_transfer call is let through only if its `approved_draft_id` (default "") was approved. */
  predicate Approved(args: map<string, Value>, approvedDraftIds: seq<string>)
  {
    var d := Get(args, "approved_draft_id", Str(""));
    d.Str? && d.s in approvedDraftIds
  }

  /** The `text` of every block that has one. */
  function TextsOf(blocks: seq<Block>): seq<string>
  {
    if blocks == [] then []
    else (if blocks[0].TextBlock? then [blocks[0].text] else []) + TextsOf(blocks[1..])
  }

  function ActionList(a: Option<Action>): seq<Action>
  {
    if a.Some? then [a.value] else []
  }

  /** A tool_use answered by the loop itself, without running the tool. */
  function Answer(t: Turn, id: string, text: string): Flow
  {
    Next(t.(results := t.results + [ToolResult(id, text)]))
  }

  /**
   * A tool_use that passed the guardrails: execute_tool runs and either raises, or its output
   * becomes the tool result, its action is kept and a tool_call entry is logged.
   */
  function Dispatch(input: AgentInput, o: Oracles, run: ToolRunner, it: nat, id: string, name: string, args: map<string, Value>, t: Turn): Flow
  {
    var st := t.state;
    var dispatched := st.(calls := st.calls + [ToolCall(name, args)]);
    match run(name, args, input.context, o.draftHex(|st.actions|), o.localClock(it, |t.results|))
    case Err(e) => Raised(e, dispatched)
    case Ok(out) =>
      var results := t.results + [ToolResult(id, out.output)];
      Next(Turn(results, dispatched.(
        actions := st.actions + ActionList(out.action),
        log := st.log + [ToolCallEntry(input, o, it, name, results)])))
  }

  /** One content block of a response, in iteration `it`, that did not end the turn; `run` is execute_tool. */
  function HandleBlock(input: AgentInput, o: Oracles, run: ToolRunner, it: nat, b: Block, t: Turn): Flow
  {
    match b
    case ToolUse(id, name, args) =>
      if name == StageTransferTool && ValidateTransfer(args, o.parseFloat).Err? then
        Answer(t, id, BlockedText(ValidateTransfer(args, o.parseFloat).error))
      else if name == ExecuteTransferTool && !Approved(args, input.approvedDraftIds) then
        Answer(t, id, NotApprovedText)
      else
        Dispatch(input, o, run, it, id, name, args, t)
    case _ => Next(t)
  }

  /** The blocks of a response, in order, until one raises. */
  function HandleBlocks(input: AgentInput, o: Oracles, run: ToolRunner, it: nat, blocks: seq<Block>, t: Turn): Flow
    decreases |blocks|
  {
    if blocks == [] then Next(t)
    else
      match HandleBlock(input, o, run, it, blocks[0], t)
      case Raised(e, s) => Raised(e, s)
      case Next(t1) => HandleBlocks(input, o, run, it, blocks[1..], t1)
  }

  /** The iteration numbered `it`: ask the model, log the call, then answer or run the tools. */
  function Iteration(input: AgentInput, o: Oracles, run: ToolRunner, it: nat, st: RunState): Step
  {
    var response := o.model(st.messages);
    var logged := st.(log := st.log + [ModelCallEntry(input, o, it, response.stopReason)]);
    if response.stopReason == EndTurn then
      match OutputVerdict(Join(" ", TextsOf(response.content)))
      case Ok(text) => Done(Ok(AgentResult(text, logged.actions)), logged)
      case Err(e) => Done(Err(e), logged)
    else
      match HandleBlocks(input, o, run, it, response.content, Turn([], logged))
      case Raised(e, failed) => Done(Err(e), failed)
      case Next(turn) =>
        Continue(turn.state.(messages := turn.state.messages + [AssistantTurn(response.content), ToolResults(turn.results)]))
  }

  /** The loop from the start of the iteration numbered `iteration` + 1. */
  function AgentFrom(input: AgentInput, o: Oracles, run: ToolRunner, iteration: nat, st: RunState): Finish
    decreases if iteration < input.maxIterations then input.maxIterations - iteration else 0
  {
    if iteration >= input.maxIterations then Finish(Ok(AgentResult(TimeoutText, st.actions)), st, iteration, true)
    else
      match Iteration(input, o, run, iteration + 1, st)
      case Done(outcome, s) => Finish(outcome, s, iteration + 1, false)
      case Continue(s) => AgentFrom(input, o, run, iteration + 1, s)
  }

  function InitialState(input: AgentInput): RunState
  {
    RunState([UserPrompt(InitialPrompt(input))], [], [], [])
  }

  /** run_cloud_agent, with execute_tool given as `run`. */
  function AgentRun(input: AgentInput, o: Oracles, run: ToolRunner): Finish
  {
    AgentFrom(input, o, run, 0, InitialState(input))
  }

  // ---------------------------------------------------------------------------
  // What the loop guarantees
  // ---------------------------------------------------------------------------

  /** The guardrails let this call through: a staged transfer passed validate_transfer, an executed one was approved. */
  predicate Guarded(input: AgentInput, o: Oracles, c: ToolCall)
  {
    && (c.name == StageTransferTool ==> ValidateTransfer(c.args, o.parseFloat).Ok?)
    && (c.name == ExecuteTransferTool ==> Approved(c.args, input.approvedDraftIds))
  }

  predicate CallsGuarded(input: AgentInput, o: Oracles, calls: seq<ToolCall>)
  {
    forall c | c in calls :: Guarded(input, o, c)
  }

  /** A staged transfer as the app receives it: a draft id of the right shape and two different, non-empty accounts. */
  predicate WellFormedAction(a: Action)
  {
    && a.kind == "transfer_staged"
    && "draft_id" in a.payload && a.payload["draft_id"].Str? && IsDraftId(a.payload["draft_id"].s)
    && "from_account" in a.payload && a.payload["from_account"].Str? && a.payload["from_account"].s != ""
    && "to_account" in a.payload && a.payload["to_account"].Str? && a.payload["to_account"].s != ""
    && Lower(a.payload["from_account"].s) != Lower(a.payload["to_account"].s)
    && "amount" in a.payload && a.payload["amount"].Str?
    && "memo" in a.payload
  }

  predicate ActionsWellFormed(actions: seq<Action>)
  {
    forall a | a in actions :: WellFormedAction(a)
  }

  /** A transfer that passed validate_transfer stages a well-formed action. */
  lemma GuardedStagingIsWellFormed(args: map<string, Value>, parseFloat: string -> Option<real>, hex: Hex8)
    requires ValidateTransfer(args, parseFloat).Ok?
    ensures WellFormedAction(StagedDraft(args, hex))
  {
    DraftIdShape(hex);
  }

  /**
   * The drafts the stage_transfer calls among `calls` stage, in order; the n-th draft is named
   * by the n-th uuid drawn.
   */
  function Drafts(calls: seq<ToolCall>, o: Oracles): seq<Action>
  {
    if calls == [] then []
    else
      var prior := Drafts(calls[..|calls| - 1], o);
      var c := calls[|calls| - 1];
      prior + (if c.name == StageTransferTool then [StagedDraft(c.args, o.draftHex(|prior|))] else [])
  }

  /** The action is the draft the stage_transfer call `c` stages, under some uuid. */
  ghost predicate DraftOf(a: Action, c: ToolCall)
  {
    c.name == StageTransferTool && exists hex :: a == StagedDraft(c.args, hex)
  }

  lemma DraftsAppend(calls: seq<ToolCall>, c: ToolCall, o: Oracles)
    ensures Drafts(calls + [c], o)
            == Drafts(calls, o) + (if c.name == StageTransferTool then [StagedDraft(c.args, o.draftHex(|Drafts(calls, o)|))] else [])
  {
    assert (calls + [c])[..|calls|] == calls;
  }

  /** Every draft comes from a stage_transfer call among `calls` and stages that call's own arguments. */
  lemma {:induction false} DraftsComeFromCalls(calls: seq<ToolCall>, o: Oracles)
    ensures forall a | a in Drafts(calls, o) :: exists c | c in calls :: DraftOf(a, c)
  {
    if calls != [] {
      var prior := calls[..|calls| - 1];
      var c := calls[|calls| - 1];
      DraftsComeFromCalls(prior, o);
      assert calls == prior + [c];
      forall a | a in Drafts(calls, o)
        ensures exists c' | c' in calls :: DraftOf(a, c')
      {
        if a in Drafts(prior, o) {
          var c' :| c' in prior && DraftOf(a, c');
          assert c' in calls;
        } else {
          assert a == StagedDraft(c.args, o.draftHex(|Drafts(prior, o)|));
          assert DraftOf(a, c);
        }
      }
    }
  }

  /** The names of the calls, in order. */
  function CallNames(calls: seq<ToolCall>): seq<string>
  {
    if calls == [] then [] else CallNames(calls[..|calls| - 1]) + [calls[|calls| - 1].name]
  }

  /** The tool named by each tool_call entry of the log, in order. */
  function ToolCallTools(log: seq<Entry>): seq<string>
  {
    if log == [] then []
    else
      var e := log[|log| - 1];
      ToolCallTools(log[..|log| - 1]) + (if e.event == ToolCallEvent && "tool" in e.metadata then [e.metadata["tool"]] else [])
  }

  /** How many entries of the log record `event`. */
  function EventCount(log: seq<Entry>, event: string): nat
  {
    if log == [] then 0
    else EventCount(log[..|log| - 1], event) + (if log[|log| - 1].event == event then 1 else 0)
  }

  /** Every executed call has its tool_call entry, in order. */
  predicate Logged(st: RunState)
  {
    ToolCallTools(st.log) == CallNames(st.calls)
  }

  /** Every executed call but the last, which raised, has its tool_call entry. */
  predicate LoggedButLast(st: RunState)
  {
    |st.calls| > 0 && ToolCallTools(st.log) == CallNames(st.calls[..|st.calls| - 1])
  }

  /** The tool_use_ids the results answer, in order. */
  function ResultIds(results: seq<ToolResult>): seq<string>
  {
    if results == [] then [] else ResultIds(results[..|results| - 1]) + [results[|results| - 1].toolUseId]
  }

  /** The ids of the tool_use blocks, in order. */
  function ToolUseIds(blocks: seq<Block>): seq<string>
  {
    if blocks == [] then []
    else (if blocks[0].ToolUse? then [blocks[0].id] else []) + ToolUseIds(blocks[1..])
  }

  /**
   * The conversation the model sees: the opening prompt, then assistant turns each followed
   * by the user turn answering every tool_use of it, in order.
   */
  predicate Conversation(messages: seq<Message>, prompt: string)
    decreases |messages|
  {
    if |messages| < 3 then messages == [UserPrompt(prompt)]
    else
      && messages[|messages| - 2].AssistantTurn? && messages[|messages| - 1].ToolResults?
      && ResultIds(messages[|messages| - 1].results) == ToolUseIds(messages[|messages| - 2].content)
      && Conversation(messages[..|messages| - 2], prompt)
  }

  /** No PII pattern occurs in the text. */
  predicate NoPii(text: string)
  {
    forall k | 0 <= k < |PiiPatterns| :: !Found(PiiPatterns[k], text)
  }

  lemma AcceptedOutputIsClean(text: string)
    requires OutputVerdict(text).Ok?
    ensures OutputVerdict(text).value == text && NoPii(text)
  {
  }

  function FlowState(f: Flow): RunState
  {
    match f
    case Next(t) => t.state
    case Raised(_, s) => s
  }

  lemma CallNamesAppend(calls: seq<ToolCall>, c: ToolCall)
    ensures CallNames(calls + [c]) == CallNames(calls) + [c.name]
  {
    assert (calls + [c])[..|calls|] == calls;
  }

  lemma ToolCallToolsAppend(log: seq<Entry>, e: Entry)
    ensures ToolCallTools(log + [e]) == ToolCallTools(log) + (if e.event == ToolCallEvent && "tool" in e.metadata then [e.metadata["tool"]] else [])
  {
    assert (log + [e])[..|log|] == log;
  }

  lemma EventCountAppend(log: seq<Entry>, e: Entry, event: string)
    ensures EventCount(log + [e], event) == EventCount(log, event) + (if e.event == event then 1 else 0)
  {
    assert (log + [e])[..|log|] == log;
  }

  lemma ResultIdsAppend(results: seq<ToolResult>, r: ToolResult)
    ensures ResultIds(results + [r]) == ResultIds(results) + [r.toolUseId]
  {
    assert (results + [r])[..|results|] == results;
  }

  lemma ToolUseIdsSplit(blocks: seq<Block>)
    requires blocks != []
    ensures ToolUseIds(blocks) == ToolUseIds([blocks[0]]) + ToolUseIds(blocks[1..])
  {
    assert [blocks[0]][1..] == [];
  }

  /**
   * Between the blocks of a response: every executed call was guarded and logged, and the
   * actions are the drafts of the executed stage_transfer calls, each well formed.
   */
  predicate Tracked(input: AgentInput, o: Oracles, st: RunState)
  {
    CallsGuarded(input, o, st.calls) && ActionsWellFormed(st.actions) && Logged(st) && st.actions == Drafts(st.calls, o)
  }

  /**
   * Handling blocks from state `before` to flow `f` keeps the conversation and the model-call
   * count, and dispatches only guarded calls and stages only well-formed actions, never
   * dropping one; going on, every call that ran has its log entry and its draft; raising, only
   * the raising call has neither.
   */
  predicate Keeps(input: AgentInput, o: Oracles, before: RunState, f: Flow)
  {
    && FlowState(f).messages == before.messages
    && CallsGuarded(input, o, FlowState(f).calls) && ActionsWellFormed(FlowState(f).actions)
    && before.actions <= FlowState(f).actions
    && EventCount(FlowState(f).log, LlmCallEvent) == EventCount(before.log, LlmCallEvent)
    && (f.Next? ==> Logged(f.turn.state) && f.turn.state.actions == Drafts(f.turn.state.calls, o))
    && (f.Raised? ==> LoggedButLast(f.failed) && f.failed.actions == Drafts(f.failed.calls[..|f.failed.calls| - 1], o))
  }

  /** A call the guardrails let through keeps Tracked, or raises with only its own entry missing. */
  lemma DispatchKeeps(input: AgentInput, o: Oracles, run: ToolRunner, it: nat, id: string, name: string, args: map<string, Value>, t: Turn)
    requires ToolContract(run) && Tracked(input, o, t.state) && Guarded(input, o, ToolCall(name, args))
    ensures Keeps(input, o, t.state, Dispatch(input, o, run, it, id, name, args, t))
  {
    var st := t.state;
    var hex := o.draftHex(|st.actions|);
    var r := run(name, args, input.context, hex, o.localClock(it, |t.results|));
    assert StagesOnly(name, args, hex, r);
    var calls := st.calls + [ToolCall(name, args)];
    CallNamesAppend(st.calls, ToolCall(name, args));
    DraftsAppend(st.calls, ToolCall(name, args), o);
    assert calls[..|calls| - 1] == st.calls;
    if r.Ok? {
      var e := ToolCallEntry(input, o, it, name, t.results + [ToolResult(id, r.value.output)]);
      ToolCallToolsAppend(st.log, e);
      EventCountAppend(st.log, e, LlmCallEvent);
      if r.value.action.Some? {
        GuardedStagingIsWellFormed(args, o.parseFloat, hex);
      }
    }
  }

  lemma HandleBlockKeeps(input: AgentInput, o: Oracles, run: ToolRunner, it: nat, b: Block, t: Turn)
    requires ToolContract(run) && Tracked(input, o, t.state)
    ensures Keeps(input, o, t.state, HandleBlock(input, o, run, it, b, t))
  {
    if b.ToolUse? {
      var name, args := b.name, b.input;
      if !(name == StageTransferTool && ValidateTransfer(args, o.parseFloat).Err?)
         && !(name == ExecuteTransferTool && !Approved(args, input.approvedDraftIds)) {
        DispatchKeeps(input, o, run, it, b.id, name, args, t);
      }
    }
  }

  /** One block adds one tool result if it is a tool_use block, answering its id, and none otherwise. */
  lemma HandleBlockIds(input: AgentInput, o: Oracles, run: ToolRunner, it: nat, b: Block, t: Turn)
    ensures var f := HandleBlock(input, o, run, it, b, t);
      f.Next? ==> ResultIds(f.turn.results) == ResultIds(t.results) + ToolUseIds([b])
  {
    assert [b][1..] == [];
    var f := HandleBlock(input, o, run, it, b, t);
    if f.Next? && b.ToolUse? {
      var r := f.turn.results[|f.turn.results| - 1];
      assert f.turn.results == t.results + [r];
      ResultIdsAppend(t.results, r);
    }
  }

  /**
   * What one block answers: nothing for a block that is not a tool_use; the blocked text for a
   * stage_transfer validate_transfer refuses; the not-approved text for an execute_transfer
   * without an approved draft; otherwise execute_tool's output, or its exception raised out of
   * the loop. The conversation is not touched.
   */
  lemma HandleBlockAnswers(input: AgentInput, o: Oracles, run: ToolRunner, it: nat, b: Block, t: Turn)
    ensures var f := HandleBlock(input, o, run, it, b, t);
      && FlowState(f).messages == t.state.messages
      && (!b.ToolUse? ==> f == Next(t))
      && (b.ToolUse? && b.name == StageTransferTool && ValidateTransfer(b.input, o.parseFloat).Err? ==>
            f == Next(t.(results := t.results + [ToolResult(b.id, BlockedText(ValidateTransfer(b.input, o.parseFloat).error))])))
      && (b.ToolUse? && b.name == ExecuteTransferTool && !Approved(b.input, input.approvedDraftIds) ==>
            f == Next(t.(results := t.results + [ToolResult(b.id, NotApprovedText)])))
      && (b.ToolUse? && Guarded(input, o, ToolCall(b.name, b.input)) ==>
            var r := run(b.name, b.input, input.context, o.draftHex(|t.state.actions|), o.localClock(it, |t.results|));
            && FlowState(f).calls == t.state.calls + [ToolCall(b.name, b.input)]
            && (r.Err? ==> f.Raised? && f.error == r.error)
            && (r.Ok? ==> f.Next? && f.turn.results == t.results + [ToolResult(b.id, r.value.output)]))
  {
    if b.ToolUse? && b.name == ExecuteTransferTool {
      assert b.name != StageTransferTool by { assert b.name[0] == 'e'; }
    }
  }

  /**
   * execute_tool raised e on the last call of st: with the draft id the next action would
   * take, and the clock of some tool result of iteration `it`.
   */
  ghost predicate RaisedBy(input: AgentInput, o: Oracles, run: ToolRunner, it: nat, st: RunState, e: string)
  {
    && |st.calls| > 0
    && var c := st.calls[|st.calls| - 1];
      exists k: nat :: run(c.name, c.args, input.context, o.draftHex(|st.actions|), o.localClock(it, k)) == Err(e)
  }

  /** A block raises only when execute_tool raises on it; the call is recorded and nothing else changes. */
  lemma HandleBlockRaises(input: AgentInput, o: Oracles, run: ToolRunner, it: nat, b: Block, t: Turn)
    ensures var f := HandleBlock(input, o, run, it, b, t);
      f.Raised? ==>
        && b.ToolUse?
        && f.failed == t.state.(calls := t.state.calls + [ToolCall(b.name, b.input)])
        && run(b.name, b.input, input.context, o.draftHex(|t.state.actions|), o.localClock(it, |t.results|)) == Err(f.error)
  {
  }

  /** All the blocks of a response keep what each block keeps. */
  lemma {:induction false} HandleBlocksKeep(input: AgentInput, o: Oracles, run: ToolRunner, it: nat, blocks: seq<Block>, t: Turn)
    requires ToolContract(run) && Tracked(input, o, t.state)
    ensures Keeps(input, o, t.state, HandleBlocks(input, o, run, it, blocks, t))
    decreases |blocks|
  {
    if blocks != [] {
      HandleBlockKeeps(input, o, run, it, blocks[0], t);
      var f0 := HandleBlock(input, o, run, it, blocks[0], t);
      if f0.Next? {
        HandleBlocksKeep(input, o, run, it, blocks[1..], f0.turn);
      }
    }
  }

  /** A response's blocks that all went through get one tool result per tool_use block, in order. */
  lemma {:induction false} HandleBlocksAnswer(input: AgentInput, o: Oracles, run: ToolRunner, it: nat, blocks: seq<Block>, t: Turn)
    ensures var f := HandleBlocks(input, o, run, it, blocks, t);
      f.Next? ==> ResultIds(f.turn.results) == ResultIds(t.results) + ToolUseIds(blocks)
    decreases |blocks|
  {
    if blocks != [] {
      HandleBlockIds(input, o, run, it, blocks[0], t);
      var f0 := HandleBlock(input, o, run, it, blocks[0], t);
      if f0.Next? {
        HandleBlocksAnswer(input, o, run, it, blocks[1..], f0.turn);
        ToolUseIdsSplit(blocks);
        var f := HandleBlocks(input, o, run, it, blocks[1..], f0.turn);
        assert HandleBlocks(input, o, run, it, blocks, t) == f;
        if f.Next? {
          assert ResultIds(f.turn.results)
              == (ResultIds(t.results) + ToolUseIds([blocks[0]])) + ToolUseIds(blocks[1..]);
        }
      }
    }
  }

  /** The blocks of a response raise only with the exception execute_tool raised on the last call made. */
  lemma {:induction false} HandleBlocksRaise(input: AgentInput, o: Oracles, run: ToolRunner, it: nat, blocks: seq<Block>, t: Turn)
    ensures var f := HandleBlocks(input, o, run, it, blocks, t);
      f.Raised? ==> RaisedBy(input, o, run, it, f.failed, f.error)
    decreases |blocks|
  {
    if blocks != [] {
      HandleBlockRaises(input, o, run, it, blocks[0], t);
      var f0 := HandleBlock(input, o, run, it, blocks[0], t);
      if f0.Next? {
        HandleBlocksRaise(input, o, run, it, blocks[1..], f0.turn);
      } else {
        var c := f0.failed.calls[|f0.failed.calls| - 1];
        assert run(c.name, c.args, input.context, o.draftHex(|f0.failed.actions|), o.localClock(it, |t.results|)) == Err(f0.error);
      }
    }
  }

  /** What holds of the state between iterations. */
  predicate Between(input: AgentInput, o: Oracles, st: RunState)
  {
    Tracked(input, o, st) && Conversation(st.messages, InitialPrompt(input))
  }

  /** What holds of the state the loop ends in: as Between, except that a raising call has no log entry. */
  predicate Ended(input: AgentInput, o: Oracles, outcome: Result<AgentResult, string>, st: RunState)
  {
    && CallsGuarded(input, o, st.calls) && ActionsWellFormed(st.actions)
    && Conversation(st.messages, InitialPrompt(input))
    && (Logged(st) || (outcome.Err? && LoggedButLast(st)))
    && (outcome.Ok? ==> outcome.value.actions == st.actions && st.actions == Drafts(st.calls, o))
  }

  /** One iteration logs one model call, keeps Between and drops no action; an answer it returns passed validate_output. */
  lemma IterationKeeps(input: AgentInput, o: Oracles, run: ToolRunner, it: nat, st: RunState)
    requires ToolContract(run) && Between(input, o, st)
    ensures var step := Iteration(input, o, run, it, st);
      && EventCount(step.state.log, LlmCallEvent) == EventCount(st.log, LlmCallEvent) + 1
      && st.actions <= step.state.actions
      && (step.Continue? ==> Between(input, o, step.state))
      && (step.Done? ==> Ended(input, o, step.outcome, step.state))
      && (step.Done? && step.outcome.Ok? ==> NoPii(step.outcome.value.text))
  {
    var response := o.model(st.messages);
    var logged := st.(log := st.log + [ModelCallEntry(input, o, it, response.stopReason)]);
    EventCountAppend(st.log, ModelCallEntry(input, o, it, response.stopReason), LlmCallEvent);
    ToolCallToolsAppend(st.log, ModelCallEntry(input, o, it, response.stopReason));
    if response.stopReason == EndTurn {
      var verdict := OutputVerdict(Join(" ", TextsOf(response.content)));
      if verdict.Ok? {
        AcceptedOutputIsClean(Join(" ", TextsOf(response.content)));
      }
    } else {
      HandleBlocksKeep(input, o, run, it, response.content, Turn([], logged));
      HandleBlocksAnswer(input, o, run, it, response.content, Turn([], logged));
      var f := HandleBlocks(input, o, run, it, response.content, Turn([], logged));
      if f.Next? {
        var ms := f.turn.state.messages + [AssistantTurn(response.content), ToolResults(f.turn.results)];
        assert ms[..|ms| - 2] == st.messages;
      }
    }
  }

  /**
   * What one iteration answers. An end_turn response returns its text blocks joined by spaces,
   * exactly when validate_output accepts them, with the actions staged so far and the
   * conversation as it was; only an end_turn response is answered. Any other response has its
   * tool_use blocks handled, and the conversation grows by exactly the assistant turn and the
   * user turn of their results, in order.
   */
  lemma IterationAnswers(input: AgentInput, o: Oracles, run: ToolRunner, it: nat, st: RunState)
    requires ToolContract(run) && Between(input, o, st)
    ensures var step := Iteration(input, o, run, it, st);
      var response := o.model(st.messages);
      var text := Join(" ", TextsOf(response.content));
      && (response.stopReason == EndTurn ==>
            && step.Done? && step.state.messages == st.messages
            && (step.outcome.Ok? <==> OutputVerdict(text).Ok?)
            && (step.outcome.Ok? ==> step.outcome.value == AgentResult(text, st.actions))
            && (OutputVerdict(text).Err? ==> step.outcome == Err(OutputVerdict(text).error)))
      && (step.Done? && step.outcome.Ok? ==> response.stopReason == EndTurn)
      && (step.Done? && response.stopReason != EndTurn ==>
            step.outcome.Err? && RaisedBy(input, o, run, it, step.state, step.outcome.error))
      && (step.Continue? ==>
            && |step.state.messages| == |st.messages| + 2
            && step.state.messages[..|st.messages|] == st.messages
            && step.state.messages[|st.messages|] == AssistantTurn(response.content)
            && step.state.messages[|st.messages| + 1].ToolResults?
            && ResultIds(step.state.messages[|st.messages| + 1].results) == ToolUseIds(response.content))
  {
    var response := o.model(st.messages);
    var logged := st.(log := st.log + [ModelCallEntry(input, o, it, response.stopReason)]);
    ToolCallToolsAppend(st.log, ModelCallEntry(input, o, it, response.stopReason));
    if response.stopReason != EndTurn {
      HandleBlocksKeep(input, o, run, it, response.content, Turn([], logged));
      HandleBlocksAnswer(input, o, run, it, response.content, Turn([], logged));
      HandleBlocksRaise(input, o, run, it, response.content, Turn([], logged));
      assert ResultIds([]) == [];
    }
  }

  /** The rest of the loop, by induction on the iterations left. */
  lemma {:induction false} AgentFromKeeps(input: AgentInput, o: Oracles, run: ToolRunner, iteration: nat, st: RunState)
    requires ToolContract(run) && Between(input, o, st) && EventCount(st.log, LlmCallEvent) == iteration
    ensures var f := AgentFrom(input, o, run, iteration, st);
      && iteration <= f.modelCalls <= (if input.maxIterations > iteration then input.maxIterations else iteration)
      && EventCount(f.state.log, LlmCallEvent) == f.modelCalls
      && (f.timedOut ==> f.outcome == Ok(AgentResult(TimeoutText, f.state.actions)) && f.modelCalls == iteration + (if input.maxIterations > iteration then input.maxIterations - iteration else 0))
      && Ended(input, o, f.outcome, f.state)
      && (f.outcome.Ok? && !f.timedOut ==> NoPii(f.outcome.value.text))
    decreases if iteration < input.maxIterations then input.maxIterations - iteration else 0
  {
    if iteration < input.maxIterations {
      IterationKeeps(input, o, run, iteration + 1, st);
      var step := Iteration(input, o, run, iteration + 1, st);
      if step.Continue? {
        AgentFromKeeps(input, o, run, iteration + 1, step.state);
      }
    }
  }

  /**
   * The rest of the loop drops no action, and an answer it returns is the text blocks of the
   * model's end_turn response to the final conversation, joined by spaces.
   */
  lemma {:induction false} AgentFromAnswers(input: AgentInput, o: Oracles, run: ToolRunner, iteration: nat, st: RunState)
    requires ToolContract(run) && Between(input, o, st)
    ensures var f := AgentFrom(input, o, run, iteration, st);
      && st.actions <= f.state.actions
      && (f.outcome.Ok? && !f.timedOut ==>
            && o.model(f.state.messages).stopReason == EndTurn
            && f.outcome.value.text == Join(" ", TextsOf(o.model(f.state.messages).content)))
      && (f.outcome.Err? ==>
            || (&& o.model(f.state.messages).stopReason == EndTurn
                && OutputVerdict(Join(" ", TextsOf(o.model(f.state.messages).content))).Err?
                && f.outcome.error == OutputVerdict(Join(" ", TextsOf(o.model(f.state.messages).content))).error)
            || RaisedBy(input, o, run, f.modelCalls, f.state, f.outcome.error))
    decreases if iteration < input.maxIterations then input.maxIterations - iteration else 0
  {
    if iteration < input.maxIterations {
      IterationKeeps(input, o, run, iteration + 1, st);
      IterationAnswers(input, o, run, iteration + 1, st);
      var step := Iteration(input, o, run, iteration + 1, st);
      if step.Continue? {
        AgentFromAnswers(input, o, run, iteration + 1, step.state);
      }
    }
  }

  /** The opening state satisfies Between. */
  lemma InitialStateIsBetween(input: AgentInput, o: Oracles)
    ensures Between(input, o, InitialState(input)) && EventCount(InitialState(input).log, LlmCallEvent) == 0
  {
  }

  /**
   * The loop calls the model at most max_iterations times, and logs one llm_call entry per
   * call; when it runs out of iterations it has made them all and returns the timeout text
   * with the actions staged.
   */
  lemma ModelCallsBounded(input: AgentInput, o: Oracles, run: ToolRunner)
    requires ToolContract(run)
    ensures var f := AgentRun(input, o, run);
      && f.modelCalls <= (if input.maxIterations > 0 then input.maxIterations else 0)
      && EventCount(f.state.log, LlmCallEvent) == f.modelCalls
      && (f.timedOut ==> f.modelCalls == (if input.maxIterations > 0 then input.maxIterations else 0)
                         && f.outcome == Ok(AgentResult(TimeoutText, f.state.actions)))
  {
    InitialStateIsBetween(input, o);
    AgentFromKeeps(input, o, run, 0, InitialState(input));
  }

  /**
   * No stage_transfer reaches execute_tool without passing validate_transfer, and no
   * execute_transfer without an approved draft id.
   */
  lemma EveryDispatchedCallIsGuarded(input: AgentInput, o: Oracles, run: ToolRunner)
    requires ToolContract(run)
    ensures forall c | c in AgentRun(input, o, run).state.calls ::
      && (c.name == StageTransferTool ==> ValidateTransfer(c.args, o.parseFloat).Ok?)
      && (c.name == ExecuteTransferTool ==> Approved(c.args, input.approvedDraftIds))
  {
    InitialStateIsBetween(input, o);
    AgentFromKeeps(input, o, run, 0, InitialState(input));
  }

  /**
   * The actions returned are all the drafts staged in the run, in order: one per stage_transfer
   * call that reached execute_tool, each staging the arguments of a call that passed
   * validate_transfer, between two different accounts, with a draft id of the right shape.
   */
  lemma ActionsAreStagedDrafts(input: AgentInput, o: Oracles, run: ToolRunner)
    requires ToolContract(run)
    ensures var f := AgentRun(input, o, run);
      f.outcome.Ok? ==>
        && f.outcome.value.actions == f.state.actions == Drafts(f.state.calls, o)
        && (forall a | a in f.outcome.value.actions :: WellFormedAction(a))
        && (forall a | a in f.outcome.value.actions ::
              exists c | c in f.state.calls :: DraftOf(a, c) && ValidateTransfer(c.args, o.parseFloat).Ok?)
  {
    InitialStateIsBetween(input, o);
    AgentFromKeeps(input, o, run, 0, InitialState(input));
    var f := AgentRun(input, o, run);
    if f.outcome.Ok? {
      DraftsComeFromCalls(f.state.calls, o);
      forall a | a in f.outcome.value.actions
        ensures exists c | c in f.state.calls :: DraftOf(a, c) && ValidateTransfer(c.args, o.parseFloat).Ok?
      {
        var c :| c in f.state.calls && DraftOf(a, c);
        assert Guarded(input, o, c);
      }
    }
  }

  /**
   * The audit log has a tool_call entry for every tool that ran, in order; only when a tool
   * raised does its call lack one.
   */
  lemma ExecutedToolsAreAudited(input: AgentInput, o: Oracles, run: ToolRunner)
    requires ToolContract(run)
    ensures var f := AgentRun(input, o, run);
      && (f.outcome.Ok? ==> ToolCallTools(f.state.log) == CallNames(f.state.calls))
      && (ToolCallTools(f.state.log) == CallNames(f.state.calls)
          || (|f.state.calls| > 0 && ToolCallTools(f.state.log) == CallNames(f.state.calls[..|f.state.calls| - 1])))
  {
    InitialStateIsBetween(input, o);
    AgentFromKeeps(input, o, run, 0, InitialState(input));
  }

  /**
   * The text returned is the timeout notice, or the text blocks of the model's end_turn answer
   * to the final conversation, joined by spaces, in which validate_output found no PII.
   */
  lemma ReturnedTextIsSafe(input: AgentInput, o: Oracles, run: ToolRunner)
    requires ToolContract(run)
    ensures var f := AgentRun(input, o, run);
      f.outcome.Ok? ==>
        || (f.timedOut && f.outcome.value.text == TimeoutText)
        || (&& o.model(f.state.messages).stopReason == EndTurn
            && f.outcome.value.text == Join(" ", TextsOf(o.model(f.state.messages).content))
            && NoPii(f.outcome.value.text))
  {
    InitialStateIsBetween(input, o);
    AgentFromKeeps(input, o, run, 0, InitialState(input));
    AgentFromAnswers(input, o, run, 0, InitialState(input));
  }

  /**
   * An error the loop returns is validate_output's refusal of the text blocks of the model's
   * end_turn answer to the final conversation, or the exception execute_tool raised on the
   * last call made.
   */
  lemma ReturnedErrorIsExplained(input: AgentInput, o: Oracles, run: ToolRunner)
    requires ToolContract(run)
    ensures var f := AgentRun(input, o, run);
      f.outcome.Err? ==>
        || (&& o.model(f.state.messages).stopReason == EndTurn
            && OutputVerdict(Join(" ", TextsOf(o.model(f.state.messages).content))).Err?
            && f.outcome.error == OutputVerdict(Join(" ", TextsOf(o.model(f.state.messages).content))).error)
        || RaisedBy(input, o, run, f.modelCalls, f.state, f.outcome.error)
  {
    InitialStateIsBetween(input, o);
    AgentFromAnswers(input, o, run, 0, InitialState(input));
  }

  /** The conversation opens with the prompt, and every tool_use the model asked for was answered, in order. */
  lemma ToolUsesAreAnswered(input: AgentInput, o: Oracles, run: ToolRunner)
    requires ToolContract(run)
    ensures Conversation(AgentRun(input, o, run).state.messages, InitialPrompt(input))
  {
    InitialStateIsBetween(input, o);
    AgentFromKeeps(input, o, run, 0, InitialState(input));
  }

  // ---------------------------------------------------------------------------
  // The loop as run_cloud_agent writes it
  // ---------------------------------------------------------------------------

  /** What handling blocks came to: raised with `failure`, or gone on with `t`. */
  function FlowOf(failure: Option<string>, t: Turn): Flow
  {
    if failure.Some? then Raised(failure.value, t.state) else Next(t)
  }

  /**
   * The body of the `for block` loop for one block: the two guardrails, then execute_tool and
   * its audit entry. `failure` is the text of an exception execute_tool raised.
   */
  method RunBlock(input: AgentInput, o: Oracles, run: ToolRunner, it: nat, block: Block, results0: seq<ToolResult>,
                  messages: seq<Message>, actions0: seq<Action>, ghost log0: seq<Entry>, ghost calls0: seq<ToolCall>,
                  ghost base: seq<Entry>, audit: AuditLogger)
    returns (results: seq<ToolResult>, actions: seq<Action>, failure: Option<string>, ghost log: seq<Entry>, ghost calls: seq<ToolCall>)
    requires audit.entries == base + log0
    modifies audit
    ensures audit.entries == base + log
    ensures HandleBlock(input, o, run, it, block, Turn(results0, RunState(messages, actions0, log0, calls0)))
            == FlowOf(failure, Turn(results, RunState(messages, actions, log, calls)))
  {
    results, actions, failure, log, calls := results0, actions0, None, log0, calls0;
    if !block.ToolUse? {
      return;
    }
    var name, args := block.name, block.input;
    if name == StageTransferTool {
      var checked := ValidateTransfer(args, o.parseFloat);
      if checked.Err? {
        results := results + [ToolResult(block.id, BlockedText(checked.error))];
        return;
      }
    }
    if name == ExecuteTransferTool && !Approved(args, input.approvedDraftIds) {
      results := results + [ToolResult(block.id, NotApprovedText)];
      return;
    }
    var result := run(name, args, input.context, o.draftHex(|actions|), o.localClock(it, |results|));
    calls := calls + [ToolCall(name, args)];
    if result.Err? {
      failure := Some(result.error);
      return;
    }
    results := results + [ToolResult(block.id, result.value.output)];
    if result.value.action.Some? {
      actions := actions + [result.value.action.value];
    }
    audit.Log(ToolCallEvent, ToolCallMetadata(input, name), o.utcClock(it, |results|));
    log := log + [ToolCallEntry(input, o, it, name, results)];
  }

  /** The `for block in response.content` loop of iteration `it`. */
  method RunBlocks(input: AgentInput, o: Oracles, run: ToolRunner, it: nat, content: seq<Block>,
                   messages: seq<Message>, actions0: seq<Action>, ghost log0: seq<Entry>, ghost calls0: seq<ToolCall>,
                   ghost base: seq<Entry>, audit: AuditLogger)
    returns (results: seq<ToolResult>, actions: seq<Action>, failure: Option<string>, ghost log: seq<Entry>, ghost calls: seq<ToolCall>)
    requires audit.entries == base + log0
    modifies audit
    ensures audit.entries == base + log
    ensures HandleBlocks(input, o, run, it, content, Turn([], RunState(messages, actions0, log0, calls0)))
            == FlowOf(failure, Turn(results, RunState(messages, actions, log, calls)))
  {
    results, actions, failure, log, calls := [], actions0, None, log0, calls0;
    for k := 0 to |content|
      invariant HandleBlocks(input, o, run, it, content[k..], Turn(results, RunState(messages, actions, log, calls)))
                == HandleBlocks(input, o, run, it, content, Turn([], RunState(messages, actions0, log0, calls0)))
      invariant audit.entries == base + log
      invariant failure.None?
    {
      assert content[k..][1..] == content[k + 1..];
      results, actions, failure, log, calls := RunBlock(input, o, run, it, content[k], results, messages, actions, log, calls, base, audit);
      if failure.Some? {
        return;
      }
    }
    assert content[|content|..] == [];
  }

  /** How an iteration came out: returned with `done`, or going on with `st`. */
  function StepOf(done: Option<Result<AgentResult, string>>, st: RunState): Step
  {
    if done.Some? then Done(done.value, st) else Continue(st)
  }

  /**
   * One pass of the `while` loop, numbered `it`: ask the model and log the call, then either
   * answer through validate_output or run the tool_use blocks and extend the conversation.
   */
  method RunIteration(input: AgentInput, o: Oracles, run: ToolRunner, it: nat,
                      messages0: seq<Message>, actions0: seq<Action>, ghost log0: seq<Entry>, ghost calls0: seq<ToolCall>,
                      ghost base: seq<Entry>, audit: AuditLogger)
    returns (done: Option<Result<AgentResult, string>>, messages: seq<Message>, actions: seq<Action>, ghost log: seq<Entry>, ghost calls: seq<ToolCall>)
    requires audit.entries == base + log0
    modifies audit
    ensures audit.entries == base + log
    ensures Iteration(input, o, run, it, RunState(messages0, actions0, log0, calls0))
            == StepOf(done, RunState(messages, actions, log, calls))
  {
    messages, actions, calls := messages0, actions0, calls0;
    var response := o.model(messages);
    audit.Log(LlmCallEvent, LlmCallMetadata(input, it, response.stopReason), o.utcClock(it, 0));
    log := log0 + [ModelCallEntry(input, o, it, response.stopReason)];

    if response.stopReason == EndTurn {
      var safe := ValidateOutput(Join(" ", TextsOf(response.content)));
      if safe.Err? {
        return Some(Err(safe.error)), messages, actions, log, calls;
      }
      return Some(Ok(AgentResult(safe.value, actions))), messages, actions, log, calls;
    }

    var toolResults, failure;
    toolResults, actions, failure, log, calls :=
      RunBlocks(input, o, run, it, response.content, messages, actions, log, calls, base, audit);
    if failure.Some? {
      return Some(Err(failure.value)), messages, actions, log, calls;
    }
    messages := messages + [AssistantTurn(response.content), ToolResults(toolResults)];
    done := None;
  }

  /**
   * run_cloud_agent, with execute_tool given as `run`: returns what AgentRun returns, `Err`
   * carrying the text of the exception that escapes (a blocked output, or a tool that raised),
   * and appends to the audit log exactly the entries AgentRun records, in order.
   */
  method RunCloudAgent(input: AgentInput, o: Oracles, run: ToolRunner, audit: AuditLogger) returns (outcome: Result<AgentResult, string>)
    modifies audit
    ensures outcome == AgentRun(input, o, run).outcome
    ensures audit.entries == old(audit.entries) + AgentRun(input, o, run).state.log
  {
    var messages := [UserPrompt(InitialPrompt(input))];
    var actionsTaken: seq<Action> := [];
    var iteration: nat := 0;
    ghost var log: seq<Entry> := [];
    ghost var calls: seq<ToolCall> := [];
    while iteration < input.maxIterations
      invariant AgentFrom(input, o, run, iteration, RunState(messages, actionsTaken, log, calls)) == AgentRun(input, o, run)
      invariant audit.entries == old(audit.entries) + log
      decreases input.maxIterations - iteration
    {
      iteration := iteration + 1;
      var done;
      done, messages, actionsTaken, log, calls :=
        RunIteration(input, o, run, iteration, messages, actionsTaken, log, calls, old(audit.entries), audit);
      if done.Some? {
        return done.value;
      }
    }
    return Ok(AgentResult(TimeoutText, actionsTaken));
  }
}
