/** Values shared by the agent runtime: messages, budgets, events, errors.
    A `string` stands for the UTF-8 bytes of a Rust `String`, one `char` per byte, so
    `|s|` is the byte length the source compares with its limits. */
module AgentTypes {
  import opened Wrappers

  // ---------------------------------------------------------------- messages

  datatype Role = System | User | Assistant | Tool

  datatype Placement = AttachedToPreviousPart | StandalonePart

  /** `arguments` is the serialized JSON object, so its length is the size the runner checks. */
  datatype ToolCall = ToolCall(id: string, name: string, arguments: string)

  datatype ToolOutput = ToolOutput(content: Option<string>, handle: Option<string>)

  datatype ToolResult = ToolResult(callId: string, name: Option<string>, output: ToolOutput)

  datatype Block =
    | TextBlock(text: string)
    | CallBlock(call: ToolCall)
    | ResultBlock(result: ToolResult)
    | ContinuationBlock(placement: Placement, value: string)

  datatype Message = Message(role: Role, blocks: seq<Block>)

  function TextMessage(role: Role, text: string): Message {
    Message(role, [TextBlock(text)])
  }

  /** All blocks of a transcript, in order. */
  function Blocks(ms: seq<Message>): seq<Block> {
    if ms == [] then [] else ms[0].blocks + Blocks(ms[1..])
  }

  lemma {:induction false} BlocksConcat(a: seq<Message>, b: seq<Message>)
    ensures Blocks(a + b) == Blocks(a) + Blocks(b)
  {
    if a == [] {
      assert a + b == b;
    } else {
      assert (a + b)[1..] == a[1..] + b;
      BlocksConcat(a[1..], b);
    }
  }

  // ---------------------------------------------------------------- machine words

  const WORD_MAX: nat := 0xFFFF_FFFF_FFFF_FFFF

  /** `usize` and `u64` of a 64-bit target. */
  type word = x: nat | x <= WORD_MAX

  function SaturatingAdd(a: word, b: word): word {
    if a + b <= WORD_MAX then a + b else WORD_MAX
  }

  function SaturatingMul(a: word, b: word): word {
    if a * b <= WORD_MAX then a * b else WORD_MAX
  }

  function CheckedAdd(a: nat, b: nat): Option<word> {
    if a + b <= WORD_MAX then Some(a + b) else None
  }

  function Max(a: word, b: word): word {
    if a >= b then a else b
  }

  // ---------------------------------------------------------------- provider side

  datatype Usage = Usage(inputTokens: word, outputTokens: word, totalTokens: word)

  const NO_USAGE := Usage(0, 0, 0)

  datatype StopReason = Stop | ToolCalls | Length | ContentFilter | Other(why: string)

  datatype ProviderEvent =
    | Delta(delta: string)
    | Requested(call: ToolCall)
    | Continued(placement: Placement, value: string)
    | Metered(usage: Usage)
    | Completed(reason: StopReason)

  datatype ProviderError = ProviderCancelled | ProviderFailed(message: string)

  /** What a provider's stream yields, in order. */
  type Items = seq<Result<ProviderEvent, ProviderError>>

  datatype ContextUsage = ContextUsage(estimatedTokens: word, serializedBytes: word)

  // ---------------------------------------------------------------- failures

  datatype ExecutionOutcome = NotStarted | Failed | Unknown

  datatype ToolFailure = ToolFailure(code: string, message: string, outcome: ExecutionOutcome)

  datatype AgentError =
    | Cancelled
    | DeadlineExceeded
    | Provider(cause: ProviderError)
    | UnknownTool(name: string)
    | DuplicateToolCall(id: string)
    | ToolArgumentsTooLarge(id: string, limit: nat)
    | ModelTextTooLarge(round: nat, limit: nat)
    | RoundToolLimit(round: nat, limit: nat)
    | TotalToolLimit(limit: nat)
    | ModelRoundLimit(limit: nat)
    | IncompleteProviderStream
    | DuplicateProviderCompletion
    | InconsistentProviderCompletion
    | ToolError(tool: string, source: ToolFailure)
    | ContextBudgetExceeded
    | InvalidInput(reason: string)

  /** The stable codes of a failed run, one per error kind. */
  datatype FailureCode =
    | CodeCancelled
    | CodeDeadlineExceeded
    | CodeProvider
    | CodeUnknownTool
    | CodeDuplicateToolCall
    | CodeToolArgumentsTooLarge
    | CodeModelTextTooLarge
    | CodeRoundToolLimit
    | CodeTotalToolLimit
    | CodeModelRoundLimit
    | CodeIncompleteProviderStream
    | CodeDuplicateProviderCompletion
    | CodeInconsistentProviderCompletion
    | CodeToolError
    | CodeContextBudgetExceeded
    | CodeInvalidInput

  function ErrorCode(e: AgentError): FailureCode {
    match e
    case Cancelled => CodeCancelled
    case DeadlineExceeded => CodeDeadlineExceeded
    case Provider(_) => CodeProvider
    case UnknownTool(_) => CodeUnknownTool
    case DuplicateToolCall(_) => CodeDuplicateToolCall
    case ToolArgumentsTooLarge(_, _) => CodeToolArgumentsTooLarge
    case ModelTextTooLarge(_, _) => CodeModelTextTooLarge
    case RoundToolLimit(_, _) => CodeRoundToolLimit
    case TotalToolLimit(_) => CodeTotalToolLimit
    case ModelRoundLimit(_) => CodeModelRoundLimit
    case IncompleteProviderStream => CodeIncompleteProviderStream
    case DuplicateProviderCompletion => CodeDuplicateProviderCompletion
    case InconsistentProviderCompletion => CodeInconsistentProviderCompletion
    case ToolError(_, _) => CodeToolError
    case ContextBudgetExceeded => CodeContextBudgetExceeded
    case InvalidInput(_) => CodeInvalidInput
  }

  // ---------------------------------------------------------------- limits, compaction

  datatype Limits = Limits(
    maxModelRounds: nat,
    maxTotalToolCalls: nat,
    maxToolCallsPerRound: nat,
    maxToolArgumentBytes: nat)
  {
    /** What `AgentLimits::new` accepts. */
    predicate Valid() {
      maxModelRounds > 0 && maxTotalToolCalls > 0 && maxToolCallsPerRound > 0 && maxToolArgumentBytes > 0
    }
  }

  /** Every limit of a run must be greater than zero, and nothing else. */
  lemma {:induction false} ValidLimits(l: Limits)
    ensures l.Valid() <==>
            && l.maxModelRounds != 0 && l.maxTotalToolCalls != 0
            && l.maxToolCallsPerRound != 0 && l.maxToolArgumentBytes != 0
  {
  }

  datatype Range = Range(start: nat, end: nat)

  datatype CompactionCause = TokenThreshold | ByteThreshold | BothThresholds
  datatype CompactionStrategy = Summary | DeterministicTrim

  datatype CompactionEvent = CompactionEvent(
    cause: CompactionCause,
    strategy: CompactionStrategy,
    removedTurns: nat,
    summaryFailed: bool,
    before: ContextUsage,
    after: ContextUsage,
    replacementSummary: Option<string>,
    compactedRange: Option<Range>)
}
