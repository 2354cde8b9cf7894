/**
 * `GptModel` as the object the source builds: configuration and conversation
 * fields updated in place by `request` and `new_session`. Every method is
 * proved to leave the fields exactly as the matching step of module Session
 * says, and to keep that module's invariant.
 */
module ApiWrapper {
  import opened Wrappers
  import opened Errors
  import opened FinishReasons
  import opened Messages
  import opened Session

  class GptModel {
    // Fixed by the constructor.
    const model: string
    const sysMsg: Message
    const windowTokenLimit: int
    const apiKey: string

    // The conversation state.
    var messages: seq<Message>
    var outputs: seq<string>
    var inputs: seq<string>
    var totalPrice: real
    var totalTokens: Option<int>
    var inputTokens: Option<int>
    var requestCount: nat
    var outputTokens: Option<int>
    var requestsInfo: seq<RequestInfo>
    var sessionsInfo: seq<Archive>
    var textFinishinReasons: seq<string>

    function Configuration(): Config
    {
      Config(model, sysMsg, windowTokenLimit, apiKey)
    }

    function State(): Conversation
      reads this
    {
      Conversation(messages, outputs, inputs, totalPrice, totalTokens, inputTokens,
                   requestCount, outputTokens, requestsInfo, sessionsInfo, textFinishinReasons)
    }

    ghost predicate Valid()
      reads this
    {
      ValidConfig(Configuration()) && ValidConversation(Configuration(), State())
    }

    /** The initialisation half of `__init__`, from a configuration `Configure` accepted. */
    constructor (config: Config)
      requires ValidConfig(config)
      ensures Valid()
      ensures Configuration() == config
      ensures State() == Initial(config)
    {
      model := config.model;
      sysMsg := config.sysMsg;
      windowTokenLimit := config.windowTokenLimit;
      apiKey := config.apiKey;
      messages := [config.sysMsg];
      outputs := [];
      inputs := [];
      totalPrice := 0.0;
      totalTokens := None;
      inputTokens := None;
      requestCount := 0;
      outputTokens := None;
      requestsInfo := [];
      sessionsInfo := [];
      textFinishinReasons := [];
      new;
      InitialValid(config);
    }

    /** `GptModel.request`: ask the service for a reply to `prompt`. */
    method Request(prompt: string, service: Service) returns (r: Result<Exchange, Error>, sent: Option<ChatRequest>)
      requires Valid()
      modifies this
      ensures Valid()
      ensures Step(State(), r, sent) == RequestStep(Configuration(), old(State()), prompt, service)
    {
      ghost var before := State();
      ghost var step := RequestStep(Configuration(), before, prompt, service);
      RequestPreservesValid(Configuration(), before, prompt, service);
      AppendPrompt(prompt);
      if requestCount > 0 && totalTokens.value >= windowTokenLimit {
        r, sent := Failure(MaxContextExceeded), None;
        return;
      }
      var request := ChatRequest(model, messages);
      sent := Some(request);
      var reply := service(request);
      if reply.ServiceFailed? {
        r := Failure(Requesting(ServiceError(reply.message)));
        return;
      }
      var processed := ProcessOutput(reply.completion, model);
      if processed.Failure? {
        r := Failure(Requesting(processed.error));
        return;
      }
      var info := processed.value;
      AppendReply(info);
      r := Success(Exchange(prompt, info.output));
    }

    // The methods below are the statement groups of `Request` and `NewSession`,
    // not operations of their own: called alone they need not keep `Valid()`.

    /** The first two statements of `request`: record the prompt. */
    method AppendPrompt(prompt: string)
      modifies this
      ensures State() == RecordPrompt(old(State()), prompt)
    {
      inputs := inputs + [prompt];
      messages := messages + [FormatInput(prompt)];
    }

    /** The success path of `request`: record what `process_output` produced. */
    method AppendReply(info: RequestInfo)
      modifies this
      ensures State() == RecordReply(old(State()), info)
    {
      AppendExchange(info);
      UpdateUsage(info);
    }

    /** The reply joins `requests_info`, `outputs` and the conversation. */
    method AppendExchange(info: RequestInfo)
      modifies this
      ensures State() == old(State()).(requestsInfo := old(requestsInfo) + [info],
                                       outputs := old(outputs) + [info.output],
                                       messages := old(messages) + [FormatOutput(info.output)])
    {
      requestsInfo := requestsInfo + [info];
      outputs := outputs + [info.output];
      messages := messages + [FormatOutput(info.output)];
    }

    /** The counters take the latest usage, the price accumulates, the finish reason is described. */
    method UpdateUsage(info: RequestInfo)
      modifies this
      ensures State() == old(State()).(inputTokens := Some(info.promptTokens),
                                       outputTokens := Some(info.outputTokens),
                                       totalTokens := Some(info.totalTokens),
                                       totalPrice := old(totalPrice) + info.price,
                                       requestCount := old(requestCount) + 1,
                                       textFinishinReasons := old(textFinishinReasons) + [Description(info.finishReason)])
    {
      inputTokens := Some(info.promptTokens);
      outputTokens := Some(info.outputTokens);
      totalTokens := Some(info.totalTokens);
      totalPrice := totalPrice + info.price;
      requestCount := requestCount + 1;
      textFinishinReasons := textFinishinReasons + [Description(info.finishReason)];
    }

    /** `GptModel.new_session`: archive the session and start an empty one. */
    method NewSession()
      requires Valid()
      modifies this
      ensures Valid()
      ensures State() == NewSessionStep(Configuration(), old(State()))
    {
      ghost var before := State();
      NewSessionPreservesValid(Configuration(), before);
      ArchiveSession();
      ClearSession();
    }

    /** The first statement of `new_session`: archive the session as it stands. */
    method ArchiveSession()
      modifies this
      ensures State() == old(State()).(sessionsInfo := old(sessionsInfo) + [old(State()).Current()])
    {
      var sessionInfo := Session.Archive(totalTokens, totalPrice, inputs, outputs, requestsInfo,
                                         inputTokens, outputTokens, requestCount);
      sessionsInfo := sessionsInfo + [sessionInfo];
    }

    /** The rest of `new_session`: an empty session under the same system record. */
    method ClearSession()
      modifies this
      ensures State() == old(State()).(messages := [sysMsg], outputs := [], inputs := [], totalPrice := 0.0,
                                       totalTokens := None, inputTokens := None, requestCount := 0,
                                       outputTokens := None, requestsInfo := [])
    {
      messages := [sysMsg];
      outputs := [];
      inputs := [];
      totalPrice := 0.0;
      totalTokens := None;
      inputTokens := None;
      requestCount := 0;
      outputTokens := None;
      requestsInfo := [];
    }
  }

  /**
   * `GptModel.__init__`: validate the arguments and, when they pass, build an
   * engine with an empty conversation under the chosen system message.
   * `dotenvKey` is what `.env` holds under OPENAI_API_KEY; the other
   * parameters carry the defaults of `__init__`.
   */
  method Create(version: string, dotenvKey: Option<string>, systemMsg: string := "default",
                fromDotenv: bool := true, apiKey: Option<string> := None, maxContext: int := 100000)
    returns (r: Result<GptModel, Error>)
    ensures r.Failure? <==> Configure(version, systemMsg, fromDotenv, dotenvKey, apiKey, maxContext).Failure?
    ensures r.Failure? ==> r.error == Configure(version, systemMsg, fromDotenv, dotenvKey, apiKey, maxContext).error
    ensures r.Success? ==>
      && fresh(r.value)
      && r.value.Valid()
      && r.value.Configuration() == Configure(version, systemMsg, fromDotenv, dotenvKey, apiKey, maxContext).value
      && r.value.State() == Initial(r.value.Configuration())
  {
    var config := Configure(version, systemMsg, fromDotenv, dotenvKey, apiKey, maxContext);
    if config.Failure? {
      return Failure(config.error);
    }
    var engine := new GptModel(config.value);
    return Success(engine);
  }

  /**
   * A client: build an engine on the cheapest model, get one reply, then start
   * a new session. Everything asserted follows from the contracts above.
   */
  method HelloThenNewSession()
  {
    var created := Create("gpt-4o-mini", None, fromDotenv := false, apiKey := Some("sk-example"));
    assert created.Success?;
    var engine := created.value;
    var answer := Completion("Hi!", Some(9), Some(3), Some(12), "stop");
    var service: Service := (request: ChatRequest) => Answered(answer);
    ghost var before := engine.State();
    var r, sent := engine.Request("Hello", service);
    RequestSuccess(engine.Configuration(), before, "Hello", service);
    assert r == Success(Exchange("Hello", "Hi!"));
    assert engine.requestCount == 1 && |engine.messages| == 3;
    assert engine.textFinishinReasons == [Fr0];
    engine.NewSession();
    assert engine.messages == [Message(System, DefaultSystemMessage)];
    assert engine.requestCount == 0 && engine.inputs == [];
    assert |engine.sessionsInfo| == 1 && engine.sessionsInfo[0].requestCount == 1;
    assert engine.textFinishinReasons == [Fr0];
  }

  /**
   * A client relying on the defaults of `__init__`: the key comes from `.env`,
   * the system message is the default one and the budget is 100000 tokens;
   * without a key in `.env` construction fails even though none was needed.
   */
  method DefaultArguments()
  {
    var created := Create("gpt-4o", Some("sk-from-env"));
    assert created.Success?;
    var engine := created.value;
    assert engine.sysMsg == Message(System, DefaultSystemMessage);
    assert engine.windowTokenLimit == 100000 && engine.apiKey == "sk-from-env";
    var missing := Create("gpt-4o", None, apiKey := Some("sk-example"));
    assert missing == Failure(Creating(MissingDotenvKey));
  }

  /**
   * A client of the budget check, first half: an engine whose budget of 10
   * tokens the first reply already exceeds. The request is let through, since
   * the check only reads the usage of the previous request.
   */
  method OverspentEngine() returns (engine: GptModel)
    ensures fresh(engine) && engine.Valid()
    ensures engine.windowTokenLimit == 10 && engine.totalTokens == Some(12) && engine.requestCount == 1
    ensures engine.inputs == ["Hello"] && engine.outputs == ["Ok."] && |engine.messages| == 3
  {
    engine := new GptModel(Config("gpt-4o", Message(System, "Be terse"), 10, "sk-example"));
    var service: Service := (request: ChatRequest) => Answered(Completion("Ok.", Some(9), Some(3), Some(12), "length"));
    var r, sent := engine.Request("Hello", service);
    assert r.Success?;
  }

  /**
   * Second half: the next request is refused without calling the service, yet
   * its prompt stays recorded and nothing else changes.
   */
  method BudgetRefusesSecondRequest()
  {
    var engine := OverspentEngine();
    var service: Service := (request: ChatRequest) => Answered(Completion("Ok.", Some(9), Some(3), Some(12), "stop"));
    BudgetRefusal(engine.Configuration(), engine.State(), "Again", service);
    var r, sent := engine.Request("Again", service);
    assert r == Failure(MaxContextExceeded) && sent.None?;
    assert engine.inputs == ["Hello", "Again"] && engine.outputs == ["Ok."];
    assert |engine.messages| == 4 && engine.requestCount == 1 && engine.totalTokens == Some(12);
  }
}
