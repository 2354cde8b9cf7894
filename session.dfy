/**
 * The conversation-session engine of `GptModel` as values: its configuration,
 * its conversation state, the effect of `request` and of `new_session` on that
 * state, and the invariant both keep. The class in module ApiWrapper performs
 * these steps in place and is proved to agree with them.
 */
module Session {
  import opened Wrappers
  import opened Errors
  import opened Pricing
  import opened FinishReasons
  import opened Messages

  const DefaultSystemMessage: string := "You are a helpful assistant."

  /**
   * What `__init__` fixes: the model, the system record, the context budget
   * (`window_token_limit`) and the key the client is built with.
   */
  datatype Config = Config(model: string, sysMsg: Message, windowTokenLimit: int, apiKey: string)

  predicate ValidConfig(c: Config)
  {
    c.model in ModelVersions && c.sysMsg.role == System
  }

  /**
   * The validation part of `__init__`. `dotenvKey` is what `.env` holds under
   * OPENAI_API_KEY (read only when `fromDotenv`), `apiKey` the `ApiKey`
   * argument. The key is resolved before the version is checked, and every
   * failure is re-raised wrapped in `Creating`.
   */
  function Configure(version: string, systemMsg: string, fromDotenv: bool,
                     dotenvKey: Option<string>, apiKey: Option<string>, maxContext: int): (r: Result<Config, Error>)
    ensures r.Success? <==> (if fromDotenv then dotenvKey.Some? else apiKey.Some?) && version in ModelVersions
    ensures fromDotenv && dotenvKey.None? ==> r == Failure(Creating(MissingDotenvKey))
    ensures !fromDotenv && apiKey.None? ==> r == Failure(Creating(MissingApiKey))
    ensures (if fromDotenv then dotenvKey.Some? else apiKey.Some?) && version !in ModelVersions
            ==> r == Failure(Creating(UnsupportedVersion(version)))
    ensures r.Success? ==> ValidConfig(r.value)
    ensures r.Success? ==>
      && r.value.model == version
      && r.value.sysMsg.content == (if systemMsg == "default" then DefaultSystemMessage else systemMsg)
      && r.value.windowTokenLimit == maxContext
      && r.value.apiKey == (if fromDotenv then dotenvKey.value else apiKey.value)
  {
    var key :=
      if fromDotenv then
        if dotenvKey.None? then Failure(MissingDotenvKey) else Success(dotenvKey.value)
      else if apiKey.Some? then Success(apiKey.value)
      else Failure(MissingApiKey);
    if key.Failure? then
      Failure(Creating(key.error))
    else if version !in ModelVersions then
      Failure(Creating(UnsupportedVersion(version)))
    else
      var systemMessage := if systemMsg == "default" then DefaultSystemMessage else systemMsg;
      Success(Config(version, Message(System, systemMessage), maxContext, key.value))
  }

  /**
   * What the completion service answered: the reply text, the three usage
   * fields (`None` when a field is absent or `int()` rejects it) and the finish
   * signal of the first choice.
   */
  datatype Completion = Completion(
    content: string,
    promptTokens: Option<int>,
    completionTokens: Option<int>,
    totalTokens: Option<int>,
    finishReason: string)

  /** The outcome of `chat.completions.create`. */
  datatype Reply = ServiceFailed(message: string) | Answered(completion: Completion)

  /** What `request` hands to the completion service. */
  datatype ChatRequest = ChatRequest(model: string, messages: seq<Message>)

  /** The remote completion call, which the model cannot see into. */
  type Service = ChatRequest -> Reply

  /** One entry of `requests_info`: the dictionary `process_output` returns. */
  datatype RequestInfo = RequestInfo(
    output: string,
    promptTokens: int,
    outputTokens: int,
    totalTokens: int,
    finishReason: FinishCode,
    price: real)

  predicate UsageReadable(response: Completion)
  {
    response.promptTokens.Some? && response.completionTokens.Some? && response.totalTokens.Some?
  }

  /**
   * `GptModel.process_output`: read the usage, price it, classify the finish
   * signal. Usage and pricing failures are wrapped in `TokenConversion`; an
   * unknown signal is an error of its own.
   */
  function ProcessOutput(response: Completion, model: string): (r: Result<RequestInfo, Error>)
    ensures r.Success? <==> UsageReadable(response) && model in ModelVersions && Classify(response.finishReason).Some?
    ensures !UsageReadable(response) || model !in ModelVersions ==> r.Failure? && r.error.TokenConversion?
    ensures UsageReadable(response) && model in ModelVersions && Classify(response.finishReason).None?
            ==> r == Failure(UnexpectedFinishReason(response.finishReason))
    ensures r.Success? ==>
      && r.value.output == response.content
      && response.promptTokens == Some(r.value.promptTokens)
      && response.completionTokens == Some(r.value.outputTokens)
      && response.totalTokens == Some(r.value.totalTokens)
      && Signals[r.value.finishReason] == response.finishReason
      && ResponsePrice(model, r.value.promptTokens, r.value.outputTokens) == Success(r.value.price)
  {
    if response.promptTokens.None? then
      Failure(TokenConversion(NotAnInteger("prompt_tokens")))
    else if response.completionTokens.None? then
      Failure(TokenConversion(NotAnInteger("completion_tokens")))
    else if response.totalTokens.None? then
      Failure(TokenConversion(NotAnInteger("total_tokens")))
    else
      var promptTokens := response.promptTokens.value;
      var outputTokens := response.completionTokens.value;
      var price := ResponsePrice(model, promptTokens, outputTokens);
      if price.Failure? then
        Failure(TokenConversion(price.error))
      else
        var code := Classify(response.finishReason);
        if code.None? then
          Failure(UnexpectedFinishReason(response.finishReason))
        else
          Success(RequestInfo(response.content, promptTokens, outputTokens,
                              response.totalTokens.value, code.value, price.value))
  }

  /** What a successful `request` returns. */
  datatype Exchange = Exchange(prompt: string, response: string)

  /** One entry of `sessions_info`: the session as it stood when `new_session` closed it. */
  datatype Archive = Archive(
    totalTokens: Option<int>,
    totalPrice: real,
    inputs: seq<string>,
    outputs: seq<string>,
    requestsInfo: seq<RequestInfo>,
    inputTokens: Option<int>,
    outputTokens: Option<int>,
    requestCount: nat)

  /** The mutable fields of a `GptModel`. */
  datatype Conversation = Conversation(
    messages: seq<Message>,
    outputs: seq<string>,
    inputs: seq<string>,
    totalPrice: real,
    totalTokens: Option<int>,
    inputTokens: Option<int>,
    requestCount: nat,
    outputTokens: Option<int>,
    requestsInfo: seq<RequestInfo>,
    sessionsInfo: seq<Archive>,
    textFinishinReasons: seq<string>)
  {
    /** The dictionary `new_session` archives. */
    function Current(): Archive
    {
      Archive(totalTokens, totalPrice, inputs, outputs, requestsInfo, inputTokens, outputTokens, requestCount)
    }
  }

  /** The state `__init__` leaves behind. */
  function Initial(c: Config): Conversation
  {
    Conversation([c.sysMsg], [], [], 0.0, None, None, 0, None, [], [], [])
  }

  /** The budget check of `request`: it looks at the usage of the previous request only. */
  predicate OverBudget(c: Config, s: Conversation)
    requires s.requestCount > 0 ==> s.totalTokens.Some?
  {
    s.requestCount > 0 && s.totalTokens.value >= c.windowTokenLimit
  }

  /** The outcome of one `request`: the new state, what it returns or raises, and what it sent. */
  datatype Step = Step(next: Conversation, result: Result<Exchange, Error>, sent: Option<ChatRequest>)

  /**
   * `GptModel.request`. The prompt is recorded (in `inputs` and as a user
   * record) before anything can fail, and stays recorded whatever happens next.
   * A budget refusal is raised as it is and sends nothing; a failure of the
   * service or of `process_output` is re-raised wrapped in `Requesting`.
   */
  function RequestStep(c: Config, s: Conversation, prompt: string, service: Service): Step
    requires s.requestCount > 0 ==> s.totalTokens.Some?
  {
    var recorded := RecordPrompt(s, prompt);
    if OverBudget(c, s) then
      Step(recorded, Failure(MaxContextExceeded), None)
    else
      var request := ChatRequest(c.model, recorded.messages);
      match service(request)
      case ServiceFailed(message) =>
        Step(recorded, Failure(Requesting(ServiceError(message))), Some(request))
      case Answered(completion) =>
        match ProcessOutput(completion, c.model)
        case Failure(e) =>
          Step(recorded, Failure(Requesting(e)), Some(request))
        case Success(info) =>
          Step(RecordReply(recorded, info), Success(Exchange(prompt, info.output)), Some(request))
  }

  /** The first two lines of `request`: the prompt joins `inputs` and the conversation. */
  function RecordPrompt(s: Conversation, prompt: string): Conversation
  {
    s.(inputs := s.inputs + [prompt], messages := s.messages + [FormatInput(prompt)])
  }

  /** The success path of `request`, once `process_output` has produced `info`. */
  function RecordReply(s: Conversation, info: RequestInfo): Conversation
  {
    s.(requestsInfo := s.requestsInfo + [info],
       outputs := s.outputs + [info.output],
       messages := s.messages + [FormatOutput(info.output)],
       inputTokens := Some(info.promptTokens),
       outputTokens := Some(info.outputTokens),
       totalTokens := Some(info.totalTokens),
       totalPrice := s.totalPrice + info.price,
       requestCount := s.requestCount + 1,
       textFinishinReasons := s.textFinishinReasons + [Description(info.finishReason)])
  }

  /**
   * Whatever its outcome, `request` records the prompt first, leaves the
   * archives alone, and calls the service, with the model and the whole
   * conversation, exactly when the budget check lets it through.
   */
  lemma RequestRecordsPrompt(c: Config, s: Conversation, prompt: string, service: Service)
    requires s.requestCount > 0 ==> s.totalTokens.Some?
    ensures var r := RequestStep(c, s, prompt, service);
      && r.next.inputs == s.inputs + [prompt]
      && |r.next.messages| > |s.messages|
      && r.next.messages[..|s.messages| + 1] == s.messages + [FormatInput(prompt)]
      && r.next.sessionsInfo == s.sessionsInfo
      && (r.sent.None? <==> OverBudget(c, s))
      && (r.sent.Some? ==> r.sent.value == ChatRequest(c.model, s.messages + [FormatInput(prompt)]))
  {
  }

  /**
   * The budget check: once a request has succeeded and its total token count
   * reached the budget, `request` raises without calling the service, and only
   * the prompt it recorded first remains.
   */
  lemma BudgetRefusal(c: Config, s: Conversation, prompt: string, service: Service)
    requires s.requestCount > 0 && s.totalTokens.Some? && s.totalTokens.value >= c.windowTokenLimit
    ensures RequestStep(c, s, prompt, service) == Step(RecordPrompt(s, prompt), Failure(MaxContextExceeded), None)
  {
  }

  /**
   * A failed `request` changes nothing but the recorded prompt: no output,
   * detail record, counter, price or finish description. A budget refusal is
   * raised as it is; a failure of the service or of `process_output` is
   * re-raised wrapped in `Requesting`.
   */
  lemma RequestFailure(c: Config, s: Conversation, prompt: string, service: Service)
    requires s.requestCount > 0 ==> s.totalTokens.Some?
    ensures var r := RequestStep(c, s, prompt, service);
      && (r.result.Failure? ==> r.next == RecordPrompt(s, prompt))
      && (OverBudget(c, s) ==> r.result == Failure(MaxContextExceeded))
      && (r.sent.Some? && service(r.sent.value).ServiceFailed? ==>
            r.result == Failure(Requesting(ServiceError(service(r.sent.value).message))))
      && (r.sent.Some? && service(r.sent.value).Answered?
          && ProcessOutput(service(r.sent.value).completion, c.model).Failure? ==>
            r.result == Failure(Requesting(ProcessOutput(service(r.sent.value).completion, c.model).error)))
  {
  }

  /**
   * `request` succeeds exactly when it was let through, the service answered
   * and `process_output` accepted the answer. Then there is one more request,
   * detail record, output and finish description, the conversation gains the
   * user and the assistant record, the token fields hold the latest usage and
   * the price grows by the request's price.
   */
  lemma RequestSuccess(c: Config, s: Conversation, prompt: string, service: Service)
    requires s.requestCount > 0 ==> s.totalTokens.Some?
    ensures var r := RequestStep(c, s, prompt, service);
      r.result.Success? <==>
        && !OverBudget(c, s)
        && var reply := service(ChatRequest(c.model, s.messages + [FormatInput(prompt)]));
        && reply.Answered?
        && ProcessOutput(reply.completion, c.model).Success?
    ensures var r := RequestStep(c, s, prompt, service);
      r.result.Success? ==>
        var info := ProcessOutput(service(r.sent.value).completion, c.model).value;
        && r.result.value == Exchange(prompt, info.output)
        && r.next.requestCount == s.requestCount + 1
        && r.next.requestsInfo == s.requestsInfo + [info]
        && r.next.outputs == s.outputs + [info.output]
        && r.next.messages == s.messages + [FormatInput(prompt), FormatOutput(info.output)]
        && r.next.inputTokens == Some(info.promptTokens)
        && r.next.outputTokens == Some(info.outputTokens)
        && r.next.totalTokens == Some(info.totalTokens)
        && r.next.totalPrice == s.totalPrice + info.price
        && r.next.textFinishinReasons == s.textFinishinReasons + [Description(info.finishReason)]
        && r.next.inputs == s.inputs + [prompt]
        && r.next.sessionsInfo == s.sessionsInfo
  {
  }

  /**
   * `GptModel.new_session`: archive the current session, then start a new one
   * under the same system record. `text_finishin_reasons` is not reset.
   */
  function NewSessionStep(c: Config, s: Conversation): (r: Conversation)
    ensures r.sessionsInfo == s.sessionsInfo + [s.Current()]
    ensures r.messages == [c.sysMsg]
    ensures r.inputs == [] && r.outputs == [] && r.requestsInfo == []
    ensures r.totalPrice == 0.0 && r.requestCount == 0
    ensures r.totalTokens.None? && r.inputTokens.None? && r.outputTokens.None?
    ensures r.textFinishinReasons == s.textFinishinReasons
  {
    s.(sessionsInfo := s.sessionsInfo + [s.Current()],
       messages := [c.sysMsg],
       outputs := [],
       inputs := [],
       totalPrice := 0.0,
       totalTokens := None,
       inputTokens := None,
       requestCount := 0,
       outputTokens := None,
       requestsInfo := [])
  }

  // ---------------------------------------------------------------------------
  // The bookkeeping a session keeps, and the invariant of the engine.

  /** The replies recorded in `infos`. */
  function Outputs(infos: seq<RequestInfo>): (r: seq<string>)
    ensures |r| == |infos|
  {
    if infos == [] then [] else Outputs(infos[..|infos| - 1]) + [infos[|infos| - 1].output]
  }

  /** The sum of the prices recorded in `infos`. */
  function PriceSum(infos: seq<RequestInfo>): real
  {
    if infos == [] then 0.0 else PriceSum(infos[..|infos| - 1]) + infos[|infos| - 1].price
  }

  /** The finish descriptions of `infos`, in order. */
  function Reasons(infos: seq<RequestInfo>): (r: seq<string>)
    ensures |r| == |infos|
  {
    if infos == [] then [] else Reasons(infos[..|infos| - 1]) + [Description(infos[|infos| - 1].finishReason)]
  }

  /** Every request of the archived sessions, oldest first. */
  function ArchivedRequests(archives: seq<Archive>): seq<RequestInfo>
  {
    if archives == [] then []
    else ArchivedRequests(archives[..|archives| - 1]) + archives[|archives| - 1].requestsInfo
  }

  /** The number of requests the archived sessions report. */
  function ArchivedCount(archives: seq<Archive>): nat
  {
    if archives == [] then 0
    else ArchivedCount(archives[..|archives| - 1]) + archives[|archives| - 1].requestCount
  }

  /**
   * What holds of a session, live or archived: one output, one detail record
   * and one counted request per successful request, never more outputs than
   * inputs, the price is the sum of the per-request prices, and the token
   * fields are those of the latest request (none before the first).
   */
  ghost predicate SessionConsistent(a: Archive)
  {
    && a.requestCount == |a.requestsInfo|
    && a.outputs == Outputs(a.requestsInfo)
    && |a.outputs| <= |a.inputs|
    && a.totalPrice == PriceSum(a.requestsInfo)
    && (if a.requestsInfo == [] then
          a.inputTokens.None? && a.outputTokens.None? && a.totalTokens.None?
        else
          var last := a.requestsInfo[|a.requestsInfo| - 1];
          && a.inputTokens == Some(last.promptTokens)
          && a.outputTokens == Some(last.outputTokens)
          && a.totalTokens == Some(last.totalTokens))
  }

  /** Every archive in `archives` is consistent. */
  ghost predicate AllConsistent(archives: seq<Archive>)
  {
    archives != [] ==> AllConsistent(archives[..|archives| - 1]) && SessionConsistent(archives[|archives| - 1])
  }

  /**
   * The invariant of a `GptModel`: the conversation starts with the system
   * record and holds no other; its user records are the inputs and its
   * assistant records the outputs, in order, each assistant record directly
   * after a user record; the live session and every
   * archived one are consistent; and `text_finishin_reasons` describes every
   * successful request since construction, archived or not.
   */
  ghost predicate ValidConversation(c: Config, s: Conversation)
  {
    && |s.messages| >= 1
    && s.messages[0] == c.sysMsg
    && ContentsWith(User, s.messages[1..]) == s.inputs
    && ContentsWith(Assistant, s.messages[1..]) == s.outputs
    && ContentsWith(System, s.messages[1..]) == []
    && Paired(s.messages[1..])
    && SessionConsistent(s.Current())
    && AllConsistent(s.sessionsInfo)
    && s.textFinishinReasons == Reasons(ArchivedRequests(s.sessionsInfo) + s.requestsInfo)
  }

  lemma OutputsAppend(infos: seq<RequestInfo>, info: RequestInfo)
    ensures Outputs(infos + [info]) == Outputs(infos) + [info.output]
    ensures PriceSum(infos + [info]) == PriceSum(infos) + info.price
    ensures Reasons(infos + [info]) == Reasons(infos) + [Description(info.finishReason)]
  {
    assert (infos + [info])[..|infos|] == infos;
  }

  lemma ArchivedAppend(archives: seq<Archive>, a: Archive)
    ensures ArchivedRequests(archives + [a]) == ArchivedRequests(archives) + a.requestsInfo
    ensures ArchivedCount(archives + [a]) == ArchivedCount(archives) + a.requestCount
    ensures AllConsistent(archives + [a]) <==> AllConsistent(archives) && SessionConsistent(a)
  {
    assert (archives + [a])[..|archives|] == archives;
  }

  /** A freshly constructed engine satisfies the invariant. */
  lemma InitialValid(c: Config)
    requires ValidConfig(c)
    ensures ValidConversation(c, Initial(c))
  {
  }

  /** Appending a record to the conversation appends to the contents after the system record. */
  lemma TailAppend(ms: seq<Message>, m: Message)
    requires |ms| >= 1
    ensures (ms + [m])[1..] == ms[1..] + [m]
  {
  }

  /** Recording a prompt keeps the invariant, with one input more than before. */
  lemma RecordPromptValid(c: Config, s: Conversation, prompt: string)
    requires ValidConversation(c, s)
    ensures ValidConversation(c, RecordPrompt(s, prompt))
    ensures |RecordPrompt(s, prompt).outputs| < |RecordPrompt(s, prompt).inputs|
  {
    TailAppend(s.messages, FormatInput(prompt));
    FormatInputContents(s.messages[1..], prompt);
    PairedAppendInput(s.messages[1..], prompt);
  }

  /** Recording a reply right after the prompt it answers keeps the invariant. */
  lemma RecordReplyValid(c: Config, s: Conversation, info: RequestInfo)
    requires ValidConversation(c, s)
    requires |s.messages| >= 2 && s.messages[|s.messages| - 1].role == User
    ensures ValidConversation(c, RecordReply(s, info))
  {
    var r := RecordReply(s, info);
    var tail := s.messages[1..];
    assert tail[|tail| - 1] == s.messages[|s.messages| - 1];
    PairedCounts(tail);
    TailAppend(s.messages, FormatOutput(info.output));
    FormatOutputContents(tail, info.output);
    PairedAppendOutput(tail, info.output);
    OutputsAppend(s.requestsInfo, info);
    var archived := ArchivedRequests(s.sessionsInfo);
    assert archived + (s.requestsInfo + [info]) == (archived + s.requestsInfo) + [info];
    OutputsAppend(archived + s.requestsInfo, info);
    assert SessionConsistent(r.Current());
  }

  /** `request` keeps the invariant, whether it succeeds or fails. */
  lemma RequestPreservesValid(c: Config, s: Conversation, prompt: string, service: Service)
    requires ValidConfig(c) && ValidConversation(c, s)
    ensures ValidConversation(c, RequestStep(c, s, prompt, service).next)
  {
    var recorded := RecordPrompt(s, prompt);
    RecordPromptValid(c, s, prompt);
    if OverBudget(c, s) {
      BudgetRefusal(c, s, prompt, service);
    } else {
      var reply := service(ChatRequest(c.model, recorded.messages));
      if reply.Answered? && ProcessOutput(reply.completion, c.model).Success? {
        var info := ProcessOutput(reply.completion, c.model).value;
        RecordReplyValid(c, recorded, info);
        assert RequestStep(c, s, prompt, service).next == RecordReply(recorded, info);
      } else {
        assert RequestStep(c, s, prompt, service).next == recorded;
      }
    }
  }

  /** `new_session` keeps the invariant. */
  lemma NewSessionPreservesValid(c: Config, s: Conversation)
    requires ValidConfig(c) && ValidConversation(c, s)
    ensures ValidConversation(c, NewSessionStep(c, s))
  {
    var r := NewSessionStep(c, s);
    ArchivedAppend(s.sessionsInfo, s.Current());
    assert ArchivedRequests(r.sessionsInfo) + r.requestsInfo == ArchivedRequests(s.sessionsInfo) + s.requestsInfo;
  }

  /**
   * What the invariant means for the fields: the conversation is the system
   * record plus one user record per input and one assistant record per output;
   * outputs, detail records and the request count agree; and once a request
   * has succeeded there is a total token count for the budget check to read.
   */
  lemma SessionShape(c: Config, s: Conversation)
    requires ValidConversation(c, s)
    ensures s.messages[0] == c.sysMsg
    ensures |s.messages| == 1 + |s.inputs| + |s.outputs|
    ensures |s.outputs| == |s.requestsInfo| == s.requestCount
    ensures s.requestCount > 0 ==> s.totalTokens.Some?
  {
    RoleCount(s.messages[1..]);
  }

  /**
   * When no request of the session has failed, the conversation is the system
   * record followed by one prompt and its reply per request, in order.
   */
  lemma NoFailureMessageCount(c: Config, s: Conversation)
    requires ValidConversation(c, s)
    requires |s.inputs| == s.requestCount
    ensures |s.messages| == 1 + 2 * s.requestCount
    ensures forall i :: 0 <= i < s.requestCount ==>
      && s.messages[2 * i + 1] == FormatInput(s.inputs[i])
      && s.messages[2 * i + 2] == FormatOutput(s.outputs[i])
  {
    SessionShape(c, s);
    var tail := s.messages[1..];
    Alternating(tail);
    forall i | 0 <= i < s.requestCount
      ensures s.messages[2 * i + 1] == FormatInput(s.inputs[i])
      ensures s.messages[2 * i + 2] == FormatOutput(s.outputs[i])
    {
      assert s.messages[2 * i + 1] == tail[2 * i] && s.messages[2 * i + 2] == tail[2 * i + 1];
    }
  }

  lemma {:induction false} ArchivedRequestsCount(archives: seq<Archive>)
    requires AllConsistent(archives)
    ensures |ArchivedRequests(archives)| == ArchivedCount(archives)
  {
    if archives != [] {
      ArchivedRequestsCount(archives[..|archives| - 1]);
    }
  }

  /** Since `new_session` does not clear it, `text_finishin_reasons` counts the requests of every session so far. */
  lemma FinishReasonCount(c: Config, s: Conversation)
    requires ValidConversation(c, s)
    ensures |s.textFinishinReasons| == ArchivedCount(s.sessionsInfo) + s.requestCount
  {
    ArchivedRequestsCount(s.sessionsInfo);
  }

  // ---------------------------------------------------------------------------
  // Any sequence of operations.

  datatype Operation = Ask(prompt: string, service: Service) | Reset

  /** The number of `new_session` calls in `ops`. */
  function Resets(ops: seq<Operation>): nat
  {
    if ops == [] then 0 else (if ops[0].Reset? then 1 else 0) + Resets(ops[1..])
  }

  /** One operation on the engine. */
  function Apply(c: Config, s: Conversation, op: Operation): (r: Conversation)
    requires ValidConfig(c) && ValidConversation(c, s)
    ensures ValidConversation(c, r)
    ensures r.sessionsInfo == if op.Reset? then s.sessionsInfo + [s.Current()] else s.sessionsInfo
    ensures s.textFinishinReasons <= r.textFinishinReasons
  {
    match op
    case Ask(prompt, service) =>
      RequestPreservesValid(c, s, prompt, service);
      RequestStep(c, s, prompt, service).next
    case Reset =>
      NewSessionPreservesValid(c, s);
      NewSessionStep(c, s)
  }

  /**
   * The state after `ops`, each a `request` (whatever its outcome) or a
   * `new_session`. The invariant holds throughout, and the history only grows:
   * one archive per `new_session`, earlier archives and finish descriptions
   * never altered or dropped.
   */
  function Run(c: Config, s: Conversation, ops: seq<Operation>): (r: Conversation)
    requires ValidConfig(c) && ValidConversation(c, s)
    ensures ValidConversation(c, r)
    ensures s.sessionsInfo <= r.sessionsInfo
    ensures |r.sessionsInfo| == |s.sessionsInfo| + Resets(ops)
    ensures s.textFinishinReasons <= r.textFinishinReasons
    decreases |ops|
  {
    if ops == [] then s else Run(c, Apply(c, s, ops[0]), ops[1..])
  }
}
