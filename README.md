# GptModel session engine, in Dafny

This project models `GptModel` from `openai_api_wrapper.py`. It is the conversation-session engine of a small
desktop chat client for a hosted chat-completion API. One `GptModel` object does all of the following:

- holds the chosen model, the system message and a context budget (`window_token_limit`);
- accumulates the conversation (`messages`, `inputs`, `outputs`);
- tracks the token usage of the latest request and the running price;
- records one detail dictionary and one finish-reason description per successful request;
- archives the whole session into `sessions_info` when a new session starts.

The project is organised as follows:

- `wrappers.dfy` (module `Wrappers`): `Option` and `Result`.
- `errors.dfy` (module `Errors`): the exceptions the class raises, as a datatype. Each place where the source
  catches an exception and re-raises it with a prefix (`Error while cretaing Model Object`,
  `Error converting token counts to int`, `Error Requesting`) is a wrapping constructor
  (`Creating`, `TokenConversion`, `Requesting`).
- `pricing.dfy` (module `Pricing`): `model_versions`, `pricing_dict` and `response_price`. Prices are exact reals.
- `finish_reasons.dfy` (module `FinishReasons`): the finish-signal classification inside `process_output` and
  the description table `finish_reason_code_dict`.
- `messages.dfy` (module `Messages`): role-tagged records, `format_input` and `format_output`.
- `session.dfy` (module `Session`): the engine as values.
  - `Configure` is the validation half of `__init__`.
  - `ProcessOutput` is `process_output`.
  - `RequestStep` and `NewSessionStep` give the state after `request` and after `new_session`.
  - `ValidConversation` is the invariant the engine keeps.
  - `Run` applies any sequence of requests and session resets.
- `gpt_model.dfy` (module `ApiWrapper`): class `GptModel`.
  - Its mutable fields are those of the Python object. Its methods update them in place, statement by statement.
  - `Request` and `NewSession` are each proved to leave exactly the state that `RequestStep` or `NewSessionStep` describes,
    and to keep the invariant.
  - `AppendPrompt`, `AppendReply` (made of `AppendExchange` and `UpdateUsage`), `ArchiveSession` and `ClearSession`
    are the statement groups of those two methods. Each one states the whole new state it leaves, but called
    alone it need not keep the invariant.
  - `Create` is `__init__`, with its default arguments (`system_msg='default'`, `from_dotenv=True`, `ApiKey=None`,
    `max_context=100000`). Its one extra parameter, `dotenvKey`, comes second, before the defaulted ones.
  - Four client methods (`HelloThenNewSession`, `DefaultArguments`, `OverspentEngine`, `BudgetRefusesSecondRequest`) show what a
    caller can conclude from the contracts alone.

The remote completion call is a parameter, `service: ChatRequest -> Reply`. A `Reply` is either a failure
with a message or an answer: the reply text, three usage fields and a finish signal. A usage field is
`None` when it is absent or `int()` would reject it. `Request` also returns `sent`: the request handed to
the service, or `None` when the budget check refused before any call. Reading `.env` is a parameter too:
`dotenvKey` is what the file holds under OPENAI_API_KEY.

In these places the code does something a reader might not expect, and the model follows the code:

- `request` appends the prompt to `inputs` and a user record to `messages` before the budget check.
  Nothing removes them when the check, the service or `process_output` fails. So the conversation holds
  `1 + |inputs| + |outputs|` records, which is `1 + 2 * request_count` only when no request of the session
  failed (`Session.SessionShape`, `Session.NoFailureMessageCount`).
- `new_session` does not clear `text_finishin_reasons`. That list therefore describes every successful
  request since construction, across archived sessions (`Session.FinishReasonCount`).
- `__init__` does not check that `max_context` is positive. The model accepts any integer.
- `__init__` reads the key from `.env` whenever `from_dotenv` is set, even when `ApiKey` is also given.
  `ApiKey` is used only when `from_dotenv` is false.
- A pricing failure inside `process_output` is re-raised as a token-conversion error, not as an error of its own.

## Model

| member | source | states |
|---|---|---|
| `Pricing.PricingCoversVersions` | openai_api_wrapper.py:8-13 | the price table is keyed by exactly the four supported models, and every rate is positive |
| `Pricing.ResponsePrice` | openai_api_wrapper.py:86-95 | fails with `UnsupportedModel(model)` exactly when the model is not supported; otherwise the price times one million equals input tokens times the input rate plus output tokens times the output rate |
| `Pricing.PriceOfNoTokens` | openai_api_wrapper.py:86-95 | a completion with no tokens costs 0 on every supported model |
| `Pricing.PriceMonotone` | openai_api_wrapper.py:86-95 | the price never decreases when either token count grows |
| `Pricing.PriceAdditive` | openai_api_wrapper.py:86-95 | pricing two usages separately gives the same total as pricing their sum |
| `FinishReasons.Classify` | openai_api_wrapper.py:113-126 | a signal gets a code exactly when it is one of stop, length, function_call, content_filter, null, and the code is its position in that list; anything else is rejected |
| `FinishReasons.ClassifySignal` | openai_api_wrapper.py:114-123 | each of the codes 0 to 4 is what its own signal classifies to |
| `FinishReasons.DescriptionVerdict` | openai_api_wrapper.py:16-26 | the description of code 0 ends in ",Complete Message" and those of codes 1 to 4 in ",Incomplete Message", and neither the other way round |
| `FinishReasons.DescriptionInjective` | openai_api_wrapper.py:16-26 | distinct codes have distinct descriptions |
| `FinishReasons.Description` | openai_api_wrapper.py:16-26 | the description table, character for character; it has no contract of its own, and `DescriptionVerdict` and `DescriptionInjective` state what it promises |
| `Messages.FormatInput` | openai_api_wrapper.py:77-79 | a prompt as a user record; it has no contract of its own, and `FormatInputContents` states what appending it does |
| `Messages.FormatOutput` | openai_api_wrapper.py:81-83 | a reply as an assistant record; it has no contract of its own, and `FormatOutputContents` states what appending it does |
| `Messages.PairedCounts` | openai_api_wrapper.py:152-165 | when every reply comes right after a prompt, there are never more replies than prompts, and strictly fewer while the last record is an unanswered prompt |
| `Messages.Alternating` | openai_api_wrapper.py:152-165 | when every reply comes right after a prompt, there are no system records, and replies and prompts are equal in number, the records alternate: prompt i, then its reply |
| `Messages.FormatInputContents` | openai_api_wrapper.py:77-79 | appending a formatted prompt adds its text to the user contents of the conversation and changes no other role's contents |
| `Messages.FormatOutputContents` | openai_api_wrapper.py:81-83 | appending a formatted reply adds its text to the assistant contents and changes no other role's contents |
| `Session.Configure` | openai_api_wrapper.py:28-75 | construction succeeds exactly when a key is found on the chosen path and the version is supported. The missing key is reported before the unsupported version, both wrapped. On success the model is the version, a 'default' system message becomes "You are a helpful assistant." and the budget is `max_context` |
| `Session.ProcessOutput` | openai_api_wrapper.py:97-130 | succeeds exactly when all three usage fields are integers, the model is priced and the finish signal is known. A usage or pricing failure is a wrapped token-conversion error and an unknown signal is `UnexpectedFinishReason`. On success the record carries the reply, the usage, the signal's code and the price `response_price` gives |
| `Session.Initial` | openai_api_wrapper.py:59-71 | the state `__init__` sets up; it has no contract of its own, and `InitialValid` and the constructor state what it promises |
| `Session.RequestStep` | openai_api_wrapper.py:151-179 | `request`'s new state, result and sent request; it has no contract of its own. `RequestRecordsPrompt`, `BudgetRefusal`, `RequestFailure`, `RequestSuccess` and `RequestPreservesValid` state what it promises |
| `Session.RecordPrompt` | openai_api_wrapper.py:152-154 | the prompt joins `inputs` and the conversation; it has no contract of its own, and `RecordPromptValid` states what it keeps |
| `Session.RecordReply` | openai_api_wrapper.py:163-173 | the success-path update; it has no contract of its own, and `RecordReplyValid` and `RequestSuccess` state what it promises |
| `Session.RequestRecordsPrompt` | openai_api_wrapper.py:151-161 | whatever the outcome, the prompt is appended to `inputs` and as a user record to `messages`, and the archives are untouched. The service is called exactly when the budget check passes, with the model and the whole conversation including the new prompt |
| `Session.BudgetRefusal` | openai_api_wrapper.py:155-157 | when a request has succeeded and its `total_tokens` reached the budget, `request` raises `MaxContextExceeded` without calling the service, and the state differs only by the recorded prompt |
| `Session.RequestFailure` | openai_api_wrapper.py:151-179 | a failed request changes nothing but the recorded prompt (outputs, detail records, counters, price and finish descriptions stay as they were). A service or `process_output` failure is re-raised wrapped in `Requesting` |
| `Session.RequestSuccess` | openai_api_wrapper.py:158-174 | a request succeeds exactly when it was let through, answered and processed. Then `request_count` grows by one; one detail record, output and finish description are appended; the user and assistant records are appended; the token fields take the latest usage; the price grows by the request's price; and `{prompt, response}` is returned |
| `Session.NewSessionStep` | openai_api_wrapper.py:181-200 | exactly one archive of the pre-reset session is appended and earlier ones are kept. Then the conversation is `[sys_msg]`, the lists are empty, the price and count are 0, the token fields are `None`, and `text_finishin_reasons` is unchanged |
| `Session.InitialValid` | openai_api_wrapper.py:59-71 | the state `__init__` sets up satisfies the engine invariant |
| `Session.RecordPromptValid` | openai_api_wrapper.py:152-154 | recording a prompt keeps the invariant and leaves more inputs than outputs |
| `Session.RecordReplyValid` | openai_api_wrapper.py:163-173 | recording a processed reply right after its prompt keeps the invariant, including that every assistant record directly follows a user record |
| `Session.RequestPreservesValid` | openai_api_wrapper.py:151-179 | `request` keeps the invariant whether it succeeds, is refused by the budget check or fails |
| `Session.NewSessionPreservesValid` | openai_api_wrapper.py:181-200 | `new_session` keeps the invariant, including the consistency of the new archive |
| `Session.SessionShape` | openai_api_wrapper.py:151-173 | under the invariant, `messages[0]` is the system record, `\|messages\| == 1 + \|inputs\| + \|outputs\|`, `\|outputs\| == \|requests_info\| == request_count`, and `total_tokens` is set once `request_count > 0` |
| `Session.NoFailureMessageCount` | openai_api_wrapper.py:152-165 | when no request of the session failed, the conversation holds `1 + 2 * request_count` records: after the system record, prompt i at position `2i + 1` and its reply at `2i + 2`, in order |
| `Session.FinishReasonCount` | openai_api_wrapper.py:171-199 | `text_finishin_reasons` has one entry per successful request of every session so far, archived or current |
| `Session.Apply` | openai_api_wrapper.py:151-200 | one request or session reset keeps the invariant. It archives exactly when it is a reset, and only extends the finish descriptions |
| `Session.Run` | openai_api_wrapper.py:151-200 | after any sequence of requests and resets, the invariant still holds. The archives present before are a prefix of those after, one archive is added per reset, and earlier finish descriptions are kept |
| `ApiWrapper.Create` | openai_api_wrapper.py:28-75 | takes the same defaults as `__init__`; fails exactly as `Configure` does, with the same error; otherwise it yields a fresh engine satisfying the invariant, in the initial state, with the configuration `Configure` computed |
| `ApiWrapper.GptModel.constructor` | openai_api_wrapper.py:53-71 | sets the configuration, the conversation `[sys_msg]`, empty lists, price 0, count 0 and `None` token fields, and establishes the invariant |
| `ApiWrapper.GptModel.Request` | openai_api_wrapper.py:151-179 | the in-place `request` keeps the invariant and leaves exactly the state, result and sent request that `Session.RequestStep` gives |
| `ApiWrapper.GptModel.AppendPrompt` | openai_api_wrapper.py:152-154 | appends the prompt to `inputs` and its user record to `messages`, nothing else |
| `ApiWrapper.GptModel.AppendReply` | openai_api_wrapper.py:163-173 | performs the whole success-path update of `request` |
| `ApiWrapper.GptModel.AppendExchange` | openai_api_wrapper.py:163-165 | appends the detail record, the output and its assistant record, nothing else |
| `ApiWrapper.GptModel.UpdateUsage` | openai_api_wrapper.py:166-173 | overwrites the three token fields, adds the price, increments the count and appends the finish description, nothing else |
| `ApiWrapper.GptModel.NewSession` | openai_api_wrapper.py:181-200 | the in-place `new_session` keeps the invariant and leaves exactly the state `Session.NewSessionStep` gives |
| `ApiWrapper.GptModel.ArchiveSession` | openai_api_wrapper.py:182-190 | appends the archive of the current session to `sessions_info`, nothing else |
| `ApiWrapper.GptModel.ClearSession` | openai_api_wrapper.py:191-199 | resets the conversation to `[sys_msg]` and the session fields to empty, 0 and `None`, leaving archives and finish descriptions |

## Left out

- The OpenAI client: its construction (openai_api_wrapper.py:41) and `chat.completions.create`
  (openai_api_wrapper.py:160-161) are a foreign network call. It is the `service` parameter. A response
  without `usage` or without a first choice is something the caller supplies as `ServiceFailed`, since the
  source re-raises it wrapped in `Requesting` like any other failure.
- Reading `.env` (openai_api_wrapper.py:33): environment I/O, replaced by the `dotenvKey` parameter.
  Whether the client accepts the key it is given is not modelled.
- Logging: a side channel with no effect on the state.
- The exact text of error messages: each error is a constructor of `Errors.Error`, keeping what it wraps.
- Python's `int()` conversion of usage values (truncating floats, parsing numeric strings): a usage field is
  already an integer or `None`.
- A reply whose `content` is `None` (function calls): the reply text is a string.
- Python float rounding in `response_price` and in the `total_price` sum: prices are exact reals.
- `__str__` and `__repr__` (openai_api_wrapper.py:132-149), and the attributes kept only for them
  (`raw_sys_msg`, which equals the system record's content, `from_dotenv` and the `ApiKey` argument).
  They are cosmetic.
- Changing the system message (eel_app.py:109-118). It assigns `sys_msg` from outside the class, so in the
  model the system record is fixed by the constructor. What the source relies on is that `new_session`
  resets the conversation to whatever `sys_msg` then is, and `Session.NewSessionStep` states that.
- `serialize` and `load_from_dict`: they are called by eel_app.py but are not defined in
  openai_api_wrapper.py, so there is no snapshot round trip to model.
- eel_app.py (GUI transport, wall-clock timing, process start-up) and web/index.js (browser UI): outside
  the engine.
- The `TypeError` Python would raise on `None >= int` if `request_count > 0` while `total_tokens` is `None`.
  The invariant rules this state out. `RequestStep` requires `total_tokens` to be set once a request has
  succeeded, which is what `Session.SessionShape` proves.
