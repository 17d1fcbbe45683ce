# Chase agentic AI backend: guardrails, agent loop and API handlers in Dafny

This project models the Python cloud backend of the assistant. It covers the layer that decides what
the language model may see, do and say. The pieces are:

- the **guardrails**: the hard transfer bounds and account checks, the first-match PII scan that
  blocks model output, and the pattern-by-pattern redaction of context values;
- the **agent loop** `run_cloud_agent`, which alternates model calls and tool calls for at most
  `max_iterations` rounds, plus the tool dispatcher `execute_tool`;
- **bearer-header parsing** (`verify_token`);
- the **append-only audit log** (`AuditLogger.log`);
- the **mock banking tools** (account summary, transfer execution, market rates, fraud dispute,
  spending analysis, investment portfolio);
- the two **API handlers**, `agent_query` and `execute_transfer`, with the request bounds.

Files and modules:

| file | module | what it holds |
|---|---|---|
| wrappers.dfy | Wrappers | `Option` (for `dict.get` defaults) and `Result` (the `Err` side carries `str(e)` of the raised exception) |
| text.dfy | Text | `str.lower`/`upper`/`title`/`replace`, slicing from the end, `join`/`split`, `str(n)` and zero padding, `:.2f` |
| py_values.dfy | PyValues | the JSON-like values the model sends as tool arguments, and `str()` of them |
| guardrails.dfy | Guardrails | `validate_transfer`, `validate_output`, `sanitize_context`, `PII_PATTERNS` as hand-written matchers |
| auth.dfy | Auth | `verify_token` |
| audit.dfy | Audit | the ISO timestamp, and the class `AuditLogger`, whose `entries` field is the log file |
| banking_tools.dfy | BankingTools | the tool functions, as text |
| orchestrator.dfy | Orchestrator | `execute_tool`, the loop as the function `AgentRun`, and the loop as the method `RunCloudAgent` |
| api.dfy | Api | request validation, `agent_query` and `execute_transfer` |

Outside inputs are parameters:

- The model is a function from the conversation so far to a response.
- `float()` on a string is the function `parseFloat`.
- `uuid4().hex[:8]` is `draftHex(n)` for the n-th staged draft.
- The clocks are `utcClock(it, n)` and `localClock(it, n)`, indexed by the iteration and by the
  number of tool results gathered in it when the clock is read:
  - the llm_call entry of iteration `it` is stamped `utcClock(it, 0)`;
  - a tool_call entry is stamped `utcClock(it, n)`, where `n` counts that tool's own result;
  - the dispute tool reads `localClock(it, n)`, where `n` counts the results before it.

The loop is written over a dispatcher `run` with the signature of `execute_tool`. What the loop
needs from the dispatcher is the predicate `ToolContract`: a successful `stage_transfer`, and
nothing else, yields an action, and that action is the staged draft of its own arguments. `ExecuteToolMeetsContract` proves that
`ExecuteTool` satisfies it, and `Api.AgentQuery` runs the loop with `ExecuteTool`.

The imperative method `RunCloudAgent` keeps run_cloud_agent's `while` loop and its `for block` loop.
Its postcondition ties it to the function `AgentRun`: it returns `AgentRun`'s outcome and appends
to the audit log exactly the entries `AgentRun` records. The properties of the loop are proved as
lemmas about `AgentRun`.

Two behaviours of the backend show up as lemmas:

- A string amount such as `"50"` passes `validate_transfer`, because `float("50")` succeeds. The
  staging then raises on `:.2f`, nothing in the loop catches the exception, and `agent_query`
  answers 500.
- A staged transfer whose `memo` is not a string (the model can send any JSON value) fails
  validation of `AgentAction`'s `dict[str, str]` payload, so `agent_query` answers 500.

## Model

| member | source | states |
|---|---|---|
| Text.Lower | backend/security/guardrails.py:51-52 | `str.lower()` on ASCII: same length, each upper-case letter lowered, everything else kept |
| Text.Upper | backend/security/guardrails.py:71 | `str.upper()` on ASCII: same length, each lower-case letter raised, everything else kept |
| Text.ReplaceChar | backend/security/guardrails.py:71 | `replace(' ', '_')`: same length, exactly the matching characters replaced |
| Text.Title | backend/tools/banking_tools.py:32 | `str.title()`: same length, non-letters unchanged, and each letter upper-cased when it starts a run of letters and lower-cased otherwise |
| Text.Suffix | backend/tools/banking_tools.py:44 | `s[-n:]`: the last `n` characters, or all of `s` when it is shorter |
| Text.SplitJoin | backend/tools/banking_tools.py:37 | lines joined with "\n" that contain no "\n" split back into exactly those lines |
| Text.NatToStringRoundTrip | backend/security/audit.py:18 | the decimal text of `n` reads back as `n` |
| Text.PadRoundTrip | backend/security/audit.py:18 | a number below `10^w`, zero-padded to width `w`, has exactly `w` digits that read back as the number |
| Text.FormatCents | backend/tools/banking_tools.py:32 | the `:.2f` text of an amount in cents holds only digits, the point and a sign |
| Text.FormatCentsReadBack | backend/tools/banking_tools.py:32 | the `:.2f` text reads back: a leading "-" exactly for a negative amount, then digits worth the whole units, a point, and two digits worth the cents |
| Text.RoundCents | backend/agents/orchestrator.py:263 | rounding to cents stays within half a cent of the exact amount |
| Guardrails.RunLength | backend/security/guardrails.py:19-23 | a run of `[\s:]`, `[\s:=]` or `\S` is maximal: every character in it matches and the next one does not |
| Guardrails.KeywordDigits | backend/security/guardrails.py:19-20 | a CVV or PIN match, when there is one, is non-empty and inside the text |
| Guardrails.LastNonSpace | backend/security/guardrails.py:21-23 | where `[\s:=]+` backs off to at the end of the text: the last later position whose character is not blank, every character after it blank; `None` only when all of them are blank |
| Guardrails.AssignedValue | backend/security/guardrails.py:21-23 | a `[\s:=]+\S+` match, when there is one, is non-empty and inside the text |
| Guardrails.KeywordValue | backend/security/guardrails.py:21-22 | a password or secret match, when there is one, is non-empty and inside the text |
| Guardrails.MatchAt | backend/security/guardrails.py:14-24 | a match of a pattern at position i is non-empty and lies inside the text |
| Guardrails.FirstFound | backend/security/guardrails.py:31-35 | the index of the first pattern, in list order, that occurs in the text; none before it occurs; `None` only when no pattern occurs |
| Guardrails.ValidateOutput | backend/security/guardrails.py:29-36 | returns the text unchanged exactly when no pattern occurs; otherwise raises "Blocked: possible <label> in response" naming the earliest pattern that occurs |
| Guardrails.ToFloat | backend/security/guardrails.py:40 | `float()` succeeds exactly on an int, a float, a bool and a string `float` parses; an int converts to its value, a float is its value, a string its parsed value |
| Guardrails.ValidateTransfer | backend/security/guardrails.py:38-61 | accepts exactly when the amount converts, lies in [0.01, 10000], and both accounts are non-empty strings that differ after lowercasing; on success returns the arguments unchanged; the checks run in validate_transfer's order and the first failing one is reported: conversion, min, max, a non-string account (its `lower()` AttributeError, from_account first), an empty account, the same account; a failed conversion reports the conversion's own error; a missing amount is too small |
| Guardrails.BoundsAreInclusive | backend/security/guardrails.py:26-49 | 0.01 and 10000 are accepted, 10000.01 is too large, and a missing amount is too small |
| Guardrails.SanitizeContext | backend/security/guardrails.py:63-75 | the same keys; every string value redacted by every pattern in list order; every other value untouched |
| Guardrails.SanitizeEntry | backend/security/guardrails.py:67-74 | one value: a string is redacted, anything else is kept |
| Guardrails.RedactString | backend/security/guardrails.py:69-71 | the inner loop applies `re.sub` for each pattern of `PII_PATTERNS`, each to the result of the previous one |
| Guardrails.RedactEach | backend/security/guardrails.py:70-71 | the loop over any list of patterns computes their substitutions composed in list order |
| Guardrails.Matches | backend/security/guardrails.py:71 | the table of the pattern's matches has one entry per position of the text, and each match is non-empty and ends inside the text |
| Guardrails.SubFrom | backend/security/guardrails.py:71 | `re.sub` from a position on keeps the text as it is when the pattern matches nowhere after it |
| Guardrails.SubFromKeepsUpTo | backend/security/guardrails.py:71 | `re.sub` copies, character for character, the text up to the next position where a match starts |
| Guardrails.SubFromSkipsToMatch | backend/security/guardrails.py:71 | `re.sub` keeps the text before the next match, replaces that match by the tag and goes on right after it, without overlap |
| Guardrails.SubFromFirstMatch | backend/security/guardrails.py:71 | text in which the pattern matches has a first match; `re.sub` keeps what comes before it, turns it into the tag and substitutes the rest |
| Guardrails.FoundInTable | backend/security/guardrails.py:32 | `re.search` finds the pattern exactly when the table of its matches holds one |
| Guardrails.Redact | backend/security/guardrails.py:71 | one pattern's substitution keeps text in which the pattern does not occur |
| Guardrails.RedactReplacesFirstMatch | backend/security/guardrails.py:71 | when the pattern occurs, its substitution is the text before its first match, then "[<NAME>-REDACTED]" with the pattern's name, then the substitution of the rest |
| Guardrails.RedactAll | backend/security/guardrails.py:70-71 | the whole redaction keeps text in which no pattern occurs; what each pattern changes is stated by RedactReplacesFirstMatch and the order by RedactAllStep |
| Guardrails.RedactAllStep | backend/security/guardrails.py:70-71 | redacting from pattern k on is redacting by pattern k and then from pattern k + 1 on |
| Guardrails.AcceptedOutputNeedsNoRedaction | backend/security/guardrails.py:29-75 | text that `validate_output` accepts is left exactly as it is by `sanitize_context`'s redaction |
| Guardrails.CardNumberRedacted | backend/security/guardrails.py:15 | a bare 16-digit number is replaced by "[16-DIGIT_CARD_NUMBER-REDACTED]" |
| Guardrails.CardTag | backend/security/guardrails.py:71 | the redaction tag of the first pattern is "[16-DIGIT_CARD_NUMBER-REDACTED]" |
| Guardrails.CardNumberBlocked | backend/security/guardrails.py:15 | `validate_output` blocks a bare 16-digit number under the label "16-digit card number" |
| Auth.VerifyToken | backend/security/auth.py:5-14 | accepts exactly the headers that start with "Bearer " and have something after it; every accepted header gives "dev_user_001"; any other prefix gives 401 "Invalid authorization header"; "Bearer " alone gives 401 "Missing token" |
| Auth.AfterFirstSpaceSkips | backend/security/auth.py:9 | `split(" ", 1)[1]` is everything after the first space |
| Auth.TokenIsRestOfHeader | backend/security/auth.py:9 | the token is the whole rest of the header after "Bearer ", spaces included |
| Auth.SchemeIsCaseSensitive | backend/security/auth.py:7-8 | "bearer " in lower case is refused whatever follows |
| Audit.PadFields | backend/security/audit.py:18 | every field of a valid date-time pads to its fixed width and reads back as its value |
| Audit.DateFields | backend/security/audit.py:18 | YYYY-MM-DD has ten characters, dashes at 4 and 7, and fields that read back as year, month, day |
| Audit.TimeFields | backend/security/audit.py:18 | HH:MM:SS has eight characters, colons at 2 and 5, and fields that read back as hour, minute, second |
| Audit.FractionFields | backend/security/audit.py:18 | the fraction is empty exactly at a whole second, else a point and six digits that read back as the microseconds |
| Audit.TimestampLayout | backend/security/audit.py:18 | the timestamp is date, "T", time, fraction and a closing "Z": 20 or 27 characters |
| Audit.TimestampInjective | backend/security/audit.py:18 | two valid instants with the same timestamp are the same instant |
| Audit.AuditLogger.constructor | backend/security/audit.py:11-12 | the log path is `AUDIT_LOG_PATH` when set, else "audit.jsonl"; the existing file is kept |
| Audit.AuditLogger.Log | backend/security/audit.py:14-24 | appends exactly one entry, with the given event and metadata and the clock reading, and leaves every earlier entry as it was |
| BankingTools.BulletLines | backend/tools/banking_tools.py:34-36 | one bullet line per account, in table order |
| BankingTools.FindAccount | backend/tools/banking_tools.py:30 | the position of the named account in the table, or `None` exactly when no account has that name |
| BankingTools.GetAccountSummary | backend/tools/banking_tools.py:15-37 | the summary fails exactly when the account type cannot be looked up in the table (a list or a dict) |
| BankingTools.FindsEveryAccount | backend/tools/banking_tools.py:24-30 | every account of the table is found at its own position, and none is named "all" |
| BankingTools.SummaryOfOneAccount | backend/tools/banking_tools.py:30-32 | for "checking", "savings" or "credit" the summary is that account's single detail line (last four digits, current and available balance) |
| BankingTools.BulletLinesAreLines | backend/tools/banking_tools.py:34-36 | no bullet holds a line break |
| BankingTools.ListingText | backend/tools/banking_tools.py:34-37 | for "all" or an unknown type the summary is the header and the bullets joined by line breaks |
| BankingTools.SummaryListsEveryAccount | backend/tools/banking_tools.py:34-37 | the lines of that summary are exactly the header followed by one bullet per account, in table order |
| BankingTools.ConfirmationForStagedDraft | backend/tools/banking_tools.py:44 | for a draft id "draft_" + 8 characters the confirmation is "TXN_" + those 8 upper-cased |
| BankingTools.ConfirmationOfShortId | backend/tools/banking_tools.py:44 | an id of at most 8 characters is upper-cased whole |
| BankingTools.ConfirmationIdentifiesDraft | backend/tools/banking_tools.py:44 | two drafts the agent can stage with the same confirmation have the same id |
| BankingTools.ExecuteTransferApi | backend/tools/banking_tools.py:40-44 | the confirmation text opens with "Transfer " and the draft id and closes with the draft's TXN_ code |
| BankingTools.PortfolioIgnoresUser | backend/tools/banking_tools.py:47-56 | the portfolio shown is the same for every user |
| BankingTools.GetMarketRates | backend/tools/banking_tools.py:59-68 | a known key gives its rate line; any other hashable value gives "Rate data unavailable"; an unhashable one raises |
| BankingTools.RateTableIsClosed | backend/tools/banking_tools.py:62-67 | exactly the four keys hysa, cd_6mo, cd_1yr and money_market, with four different lines |
| BankingTools.FileFraudDispute | backend/tools/banking_tools.py:71-81 | a dispute is filed exactly when the transaction id is a string (slicing and `upper()` raise otherwise) |
| BankingTools.DisputeErrors | backend/tools/banking_tools.py:74 | a non-string transaction id raises: a dict the KeyError "slice(-6, None, None)", a list "'list' object has no attribute 'upper'", anything else "'<type>' object is not subscriptable" |
| BankingTools.DictSliceErrorText | backend/tools/banking_tools.py:74 | `d[-6:]` on a dict raises KeyError with the text "slice(-6, None, None)" |
| BankingTools.ListSliceErrorText | backend/tools/banking_tools.py:74 | `l[-6:].upper()` on a list raises "'list' object has no attribute 'upper'" |
| BankingTools.MonthDayDigits | backend/tools/banking_tools.py:74 | MMDD has four digits that read back as month and day |
| BankingTools.CaseIdLayout | backend/tools/banking_tools.py:74 | the case id is "DISP-", the upper-cased last six characters of the id, "-" and MMDD |
| BankingTools.DisputeQuotesCaseIdTwice | backend/tools/banking_tools.py:75-81 | the same case id opens the dispute text as its Case ID and closes it as its Reference |
| BankingTools.SpendingDependsOnlyOnDays | backend/tools/banking_tools.py:84-100 | two analyses are equal exactly when `str(days)` is equal: the user and the category play no part |
| BankingTools.GetSpendingAnalysis | backend/tools/banking_tools.py:84-100 | the analysis opens with its header and `str(days)` |
| Orchestrator.Required | backend/agents/orchestrator.py:262-263 | `args[key]` succeeds exactly when the key is present, else raises KeyError |
| Orchestrator.FormatAmount | backend/agents/orchestrator.py:263 | `:.2f` succeeds exactly on numbers (int, float, bool) |
| Orchestrator.DraftIdShape | backend/agents/orchestrator.py:260 | every draft id is "draft_" followed by 8 lower-case hex digits |
| Orchestrator.StageTransfer | backend/agents/orchestrator.py:258-279 | staging succeeds exactly when from, to and amount are present and the amount formats; it then yields the transfer_staged action of its own arguments |
| Orchestrator.ToolText | backend/agents/orchestrator.py:250-301 | an unknown tool is answered "Unknown tool: <name>"; missing optional arguments take the defaults "all", "hysa", 30 days and "all" |
| Orchestrator.ExecuteTool | backend/agents/orchestrator.py:250-301 | a successful stage_transfer, and nothing else, yields an action: the staged draft of its own arguments |
| Orchestrator.UnknownToolIsEchoed | backend/agents/orchestrator.py:301 | an unknown tool name is echoed back with no action, never raised |
| Orchestrator.StringAmountPassesGuardButNotStaging | backend/agents/orchestrator.py:258-266 | a string amount "50" passes `validate_transfer` but staging raises on `:.2f` |
| Orchestrator.ExecuteToolMeetsContract | backend/agents/orchestrator.py:250-301 | `execute_tool` satisfies what the loop relies on (ToolContract) |
| Orchestrator.GuardedStagingIsWellFormed | backend/agents/orchestrator.py:258-279 | a staging that passed `validate_transfer` yields an action with a draft id of the right shape and two different non-empty string accounts |
| Orchestrator.DraftsComeFromCalls | backend/agents/orchestrator.py:233-235 | every draft comes from a stage_transfer call and stages that call's own arguments |
| Orchestrator.AcceptedOutputIsClean | backend/agents/orchestrator.py:186-191 | text that `validate_output` accepts contains none of the patterns |
| Orchestrator.DispatchKeeps | backend/agents/orchestrator.py:225-241 | an executed tool keeps the conversation, logs its tool_call entry and adds only its own well-formed draft, dropping no action; if it raises, only its own entry and draft are missing |
| Orchestrator.HandleBlockKeeps | backend/agents/orchestrator.py:195-241 | one block dispatches only guarded calls, keeps every action well formed and the actions the drafts of the executed calls, and logs every executed call |
| Orchestrator.HandleBlockAnswers | backend/agents/orchestrator.py:195-235 | a block that is not a tool_use changes nothing; a refused stage_transfer is answered with the guardrail's blocked text, an unapproved execute_transfer with the not-approved text, and a guarded call with execute_tool's output, or its exception raised out of the loop; the conversation is untouched |
| Orchestrator.HandleBlockIds | backend/agents/orchestrator.py:195-231 | when handling goes on, a tool_use block has added exactly one tool result, answering its id, and any other block none |
| Orchestrator.HandleBlocksKeep | backend/agents/orchestrator.py:194-241 | all the blocks of a response keep what each block keeps |
| Orchestrator.HandleBlocksRaise | backend/agents/orchestrator.py:194-232 | the tool_use blocks of a response raise only with the exception execute_tool raised on the last call made |
| Orchestrator.HandleBlocksAnswer | backend/agents/orchestrator.py:194-241 | the tool results of a response answer its tool_use ids one for one, in order |
| Orchestrator.IterationKeeps | backend/agents/orchestrator.py:165-245 | each iteration writes exactly one llm_call entry, keeps Between and drops no action; an answer it returns passed `validate_output` |
| Orchestrator.IterationAnswers | backend/agents/orchestrator.py:165-245 | an end_turn response returns its text blocks joined by spaces, exactly when `validate_output` accepts them, with the actions so far and the conversation unchanged, and only an end_turn response is answered; an end_turn response that `validate_output` refuses returns exactly its refusal; a response that is not end_turn ends the iteration only with the exception execute_tool raised on the last call made; otherwise the conversation grows by exactly the assistant turn and a user turn answering its tool_use ids in order |
| Orchestrator.AgentFromKeeps | backend/agents/orchestrator.py:165-247 | the rest of the loop makes one model call per iteration, no more than remain, and keeps all of the above |
| Orchestrator.AgentFromAnswers | backend/agents/orchestrator.py:165-247 | the rest of the loop drops no action; an answer it returns is the text blocks of the model's end_turn response to the final conversation, joined by spaces; an error it returns is `validate_output`'s refusal of that text or the exception execute_tool raised on the last call made |
| Orchestrator.ReturnedErrorIsExplained | backend/agents/orchestrator.py:185-226 | an error `run_cloud_agent` raises is `validate_output`'s refusal of the model's end_turn text, or the exception execute_tool raised on the last call made, in the final iteration |
| Orchestrator.InitialStateIsBetween | backend/agents/orchestrator.py:151-163 | the loop starts from the prompt alone, with no actions and no log |
| Orchestrator.ModelCallsBounded | backend/agents/orchestrator.py:145-247 | at most `max_iterations` model calls, one llm_call entry each; on running out, all of them were made and the timeout text comes back with the actions gathered |
| Orchestrator.EveryDispatchedCallIsGuarded | backend/agents/orchestrator.py:202-226 | no stage_transfer reaches `execute_tool` without passing `validate_transfer`, and no execute_transfer without an approved draft id |
| Orchestrator.ActionsAreStagedDrafts | backend/agents/orchestrator.py:191-279 | the returned actions are exactly the drafts of the stage_transfer calls that ran, in order, the n-th under the n-th uuid; each stages the arguments of a call that passed `validate_transfer`, between two different accounts, with a draft id of the right shape |
| Orchestrator.ExecutedToolsAreAudited | backend/agents/orchestrator.py:225-241 | the tool_call entries name exactly the tools executed, in order; only a tool that raised lacks one |
| Orchestrator.ReturnedTextIsSafe | backend/agents/orchestrator.py:186-191 | the returned text is the timeout notice, or the text blocks of the model's end_turn answer to the final conversation, joined by spaces, in which `validate_output` found no pattern |
| Orchestrator.ToolUsesAreAnswered | backend/agents/orchestrator.py:194-245 | the conversation opens with the prompt, and every assistant turn is followed by results answering each of its tool_use ids, in order |
| Orchestrator.RunBlock | backend/agents/orchestrator.py:195-241 | the body of the `for block` loop does what HandleBlock says, and appends its audit entry to the log |
| Orchestrator.RunBlocks | backend/agents/orchestrator.py:194-241 | the `for block` loop does what HandleBlocks says, stopping at a tool that raises |
| Orchestrator.RunIteration | backend/agents/orchestrator.py:165-245 | one pass of the `while` loop does what Iteration says |
| Orchestrator.RunCloudAgent | backend/agents/orchestrator.py:140-247 | returns AgentRun's outcome and appends to the audit log exactly the entries AgentRun records, in order |
| Api.InvalidQueryFields | backend/api/main.py:31-36 | a field is reported exactly when it is missing or longer than its bound (1000, 50, 2000, 64), and so is a missing Authorization header |
| Api.ParseQuery | backend/api/main.py:31-36 | a request is accepted exactly when nothing is invalid, else 422 naming every invalid input; an accepted request holds the body's fields within bounds, with approved_draft_ids defaulting to [] |
| Api.ParseQueryRoundTrip | backend/api/main.py:31-36 | a request within bounds parses back to itself |
| Api.MissingApprovalsAreEmpty | backend/api/main.py:35 | a missing approved_draft_ids becomes the empty list |
| Api.ToAgentAction | backend/api/main.py:38-40 | an action converts exactly when every payload value is a string, keeping its type, keys and texts; otherwise validation reports every non-string key |
| Api.ToAgentActions | backend/api/main.py:75 | the actions convert one for one, in order, exactly when each converts |
| Api.AgentQueryResult | backend/api/main.py:53-80 | a request that is not admitted is a 422 or a 401; an admitted one is answered with the response to the agent's run for the token's user |
| Api.AgentQuery | backend/api/main.py:53-80 | the handler answers what AgentQueryResult says, and the audit log gains exactly the agent's entries when the agent runs, none otherwise |
| Api.RejectedQueriesDoNotRunTheAgent | backend/api/main.py:53-59 | an invalid request is a 422 and a refused token a 401, and neither runs the agent nor writes to the log |
| Api.AgentSeesTokenUser | backend/api/main.py:59-71 | the agent runs for the token's user (never one from the body), with the body's context summary, session id, query and approvals, and eight iterations |
| Api.Respond | backend/api/main.py:73-80 | a response echoes the request's session id and carries the agent's text and its actions, each converted, in order; it succeeds exactly when every action converts; an exception in the agent is a 500 with its text |
| Api.StagedActionsConvert | backend/api/main.py:75 | a staged transfer converts to an AgentAction exactly when its memo is a string |
| Api.InvalidTransferFields | backend/api/main.py:47-49 | nothing is invalid exactly when the header, draft_id and confirmation_token are all present |
| Api.ExecuteTransfer | backend/api/main.py:83-102 | succeeds exactly when the inputs are present, the token is accepted and neither draft id nor token is empty, with status "executed" and the banking API's text; missing inputs are the 422 naming them; a refused token is its 401 |
| Api.EmptyFieldsAreBadRequests | backend/api/main.py:92-93 | with an accepted token, an empty draft id or token is a 400 "Invalid request" |

## Left out

- The Anthropic client call is a function from the conversation to a response. The system prompt,
  the tool schemas, the model name and `max_tokens` are not modelled.
- `asyncio.sleep`, `httpx` and `CHASE_API_BASE`/`CHASE_API_KEY` are left out. `AUDIT_LOG_PATH` is a
  constructor parameter of `AuditLogger`.
- The file write is modelled as appending to a sequence of entries. `json.dumps` of the line is not
  modelled; an entry keeps the clock reading, and `Audit.Stamp` gives the text of its "timestamp" field.
- The regular expressions of `PII_PATTERNS` are hand-written matchers. `\d`, `\w` and `\s` and the
  case-insensitive letters are ASCII only, where Python's `re` also matches Unicode digits, letters
  and spaces.
- `float()` of a string is the parameter `parseFloat`; NaN and infinities are not modelled.
  Numbers are exact reals, and `:.2f` is rounding to the nearest cent.
- `get_investment_portfolio` is its fixed text; only its independence of the user is stated.
- The async awaits run one after another; no concurrency is modelled.
- The `/health` route, CORS and uvicorn are not modelled.
- Body fields of the wrong JSON type, which pydantic also rejects with 422, are not modelled; the
  422 detail is modelled only as the names of the invalid inputs.
- The text of pydantic's `ValidationError` for a non-string payload value is not modelled:
  `Api.BadAction` stands for the 500 FastAPI answers with when building an AgentAction raises
  that error, and carries the offending keys instead of the error's text. String payload values are taken as pydantic v2
  checks them, so a number is refused rather than converted.
- Orchestrator.ToolText: its contract states only the unknown-tool answer and the defaults of the
  optional arguments; each branch's text is stated by the banking-tool lemmas it calls.
- Api.ToAgentActions: when several actions fail, the contract does not say which one is reported.
- Guardrails.ValidateTransfer: `lower()` is ASCII only, so accounts that differ only in the case
  of a non-ASCII letter ("Ä" and "ä") are not refused as the same account, where Python refuses them.
- BankingTools.ConfirmationCode: `upper()` is ASCII only, so a non-ASCII letter in the draft id
  is kept as it is, where Python upper-cases it (and turns "ß" into "SS").
- BankingTools.CaseId: the same ASCII-only `upper()` applies to the transaction id's last six
  characters.
- BankingTools.DisputeErrors: the KeyError text of a dict id is that of Python 3.12 and later; before
  3.12 slicing a dict raises TypeError "unhashable type: 'slice'". Either way the tool raises.
- Guardrails.ToFloat: the ValueError text quotes the string between single quotes rather than
  with `repr()`, which differs for strings holding quotes or escapes; an int too large for a double,
  which Python refuses with OverflowError, converts here and is then refused as too large. In both
  cases the loop's tool result quotes a different text, but the transfer is blocked either way.
- Training scripts and the on-device components are not part of this model.
