/**
 * The completion client (src/services/api.ts): one POST to the completion
 * endpoint, the reply text on success, and a display string for a failure.
 * A missing API key is thrown. So is the TypeError the catch clause itself
 * raises when an error response's `data` is undefined or null and its status
 * is not 401, 429 or 500.
 *
 * The HTTP call is the parameter `transport`, a function from the request the
 * client builds to what axios reports: a parsed 2xx body, an error response
 * with its status and body, or a failure with no response at all.
 */
module Api {
  import opened Wrappers
  import Models

  datatype Role = User | Assistant | System

  /** `ChatMessage`. */
  datatype ChatMessage = ChatMessage(role: Role, content: string)

  /** `ChatSettings`. The temperature is only copied, so any numeric stand-in will do. */
  datatype ChatSettings = ChatSettings(
    apiKey: Option<string>,
    apiEndpoint: Option<string>,
    model: string,
    temperature: real,
    maxTokens: int)

  /** `ChatCompletionRequest` as the client fills it (`stream` is never set). */
  datatype CompletionBody = CompletionBody(
    model: string,
    messages: seq<ChatMessage>,
    temperature: real,
    maxTokens: int)  // sent as `max_tokens`

  datatype Header = Header(name: string, value: string)

  /** The POST the client issues: URL, JSON body and headers. */
  datatype CompletionRequest = CompletionRequest(url: string, body: CompletionBody, headers: seq<Header>)

  /** One entry of `choices`; `content` is `choices[i]?.message?.content`. */
  datatype Choice = Choice(content: Option<string>)

  /**
   * `response.data.choices` as `choices[0]` reads it: undefined (absent), null,
   * an array, or some other value, of which only its entry `0` matters
   * (`None` when that entry is undefined or null, as for `{}` or a number).
   */
  datatype ChoicesValue =
    | UndefinedChoices
    | NullChoices
    | ChoiceList(items: seq<Choice>)
    | OtherChoices(entryZero: Option<Choice>)

  /** A 2xx response body. */
  datatype ReplyBody = ReplyBody(choices: ChoicesValue)

  /**
   * An error response's `data` as `data.error?.message` sees it. Any value
   * that has properties, such as an empty-string body `""` or an object without
   * `error`, is `Parsed`, with `errorMessage` `None` when the path is absent.
   */
  datatype ErrorBody = ErrorBody(errorMessage: Option<string>)
  datatype ErrorData = UndefinedData | NullData | Parsed(body: ErrorBody)

  /** What the HTTP call yields. */
  datatype HttpOutcome =
    | Success(body: ReplyBody)
    | HttpError(status: int, data: ErrorData)
    | NoResponse(message: string)

  /** A thrown JavaScript error: its `message` and its `response?.status`. */
  datatype JsError = JsError(message: string, status: Option<int>)

  /** How `chatCompletion` settles: a returned string or a thrown error. */
  datatype Completion = Returned(text: string) | Thrown(error: JsError)

  /** One call: the request sent, if any, and how the call settled. */
  datatype Call = Call(sent: Option<CompletionRequest>, result: Completion)

  /** What the catch clause receives: an error with a response, or one without. */
  datatype Caught = CaughtResponse(status: int, data: ErrorData) | CaughtNoResponse(message: string)

  const DefaultEndpoint: string := "https://api.siliconflow.cn/v1/chat/completions"
  const DefaultTemperature: real := 0.7
  const FallbackMaxTokens: int := 2000
  const MissingKeyMessage: string := "API Key is required"
  const ErrorPrefix: string := "错误: "
  const InvalidKeyText: string := ErrorPrefix + "API 密钥无效或已过期，请检查设置。"
  const RateLimitText: string := ErrorPrefix + "请求过多，请稍后再试或检查您的 API 使用限制。"
  const ServerErrorText: string := ErrorPrefix + "API 服务器错误，请稍后再试。"
  const UnknownServerDetail: string := "未知错误，请检查控制台日志。"
  const UnknownNetworkDetail: string := "未知错误，请检查网络连接。"
  /** The TypeError V8 raises for `response.data.choices[0]` when `choices` is undefined or null. */
  function UnreadableChoicesMessage(choices: ChoicesValue): string
    requires choices.UndefinedChoices? || choices.NullChoices?
  {
    "Cannot read properties of " + (if choices.UndefinedChoices? then "undefined" else "null") + " (reading '0')"
  }

  /** The TypeError V8 raises for `data.error` when `data` is undefined or null. */
  function UnreadableErrorDataMessage(data: ErrorData): (m: string)
    requires !data.Parsed?
  {
    "Cannot read properties of " + (if data.UndefinedData? then "undefined" else "null") + " (reading 'error')"
  }

  /** JavaScript truthiness of an optional string. */
  predicate Truthy(s: Option<string>) {
    s.Some? && s.value != ""
  }

  /** `s || fallback` for an optional string. */
  function OrElse(s: Option<string>, fallback: string): string {
    if Truthy(s) then s.value else fallback
  }

  /** `getDefaultModel().maxTokens || 2000`: never the falsy 0. */
  function DefaultMaxTokens(m: Models.ModelOption): (n: int)
    ensures n != 0
    ensures m.maxTokens.Some? && m.maxTokens.value != 0 ==> n == m.maxTokens.value
    ensures m.maxTokens.None? || m.maxTokens.value == 0 ==> n == FallbackMaxTokens
  {
    if m.maxTokens.Some? && m.maxTokens.value != 0 then m.maxTokens.value else FallbackMaxTokens
  }

  /** `defaultChatSettings`. */
  function DefaultChatSettings(): (s: ChatSettings)
    ensures s.apiKey.None? && Truthy(s.apiEndpoint) && s.model != "" && s.maxTokens != 0
  {
    ChatSettings(
      None,
      Some(DefaultEndpoint),
      Models.DefaultModel().value,
      DefaultTemperature,
      DefaultMaxTokens(Models.DefaultModel()))
  }

  /** The defaults carry no key, a usable endpoint and model, temperature 0.7 and 2000 tokens. */
  lemma DefaultSettingsValues()
    ensures DefaultChatSettings().apiKey.None?
    ensures DefaultChatSettings().apiEndpoint == Some(DefaultEndpoint)
    ensures Truthy(DefaultChatSettings().apiEndpoint) && DefaultChatSettings().model != ""
    ensures DefaultChatSettings().model == Models.AvailableModels[0].value
    ensures DefaultChatSettings().temperature == 0.7
    ensures DefaultChatSettings().maxTokens == 2000
  {
  }

  /** The `Authorization` value for a bearer token (section 2.1 of RFC 6750). */
  function AuthorizationValue(key: string): (v: string)
    ensures |v| == 7 + |key| && v[..7] == "Bearer " && v[7..] == key
  {
    "Bearer " + key
  }

  /** Reads the token back out of an `Authorization` value, if it uses the bearer scheme. */
  function BearerCredential(value: string): Option<string> {
    if |value| >= 7 && value[..7] == "Bearer " then Some(value[7..]) else None
  }

  /** The header carries exactly the key. */
  lemma BearerRoundTrip(key: string)
    ensures BearerCredential(AuthorizationValue(key)) == Some(key)
  {
  }

  /** A bearer `Authorization` value is the one built from the token it carries. */
  lemma BearerCredentialDetermines(value: string, key: string)
    requires BearerCredential(value) == Some(key)
    ensures AuthorizationValue(key) == value
  {
  }

  /**
   * The POST the client sends once a key is known: the endpoint and model
   * fall back to the defaults when falsy, messages and sampling settings pass
   * through unchanged, and the headers are JSON plus the bearer token.
   */
  function BuildRequest(messages: seq<ChatMessage>, settings: ChatSettings, key: string): (req: CompletionRequest)
    ensures req.url != "" && req.body.model != ""
    ensures req.url == if Truthy(settings.apiEndpoint) then settings.apiEndpoint.value else DefaultEndpoint
    ensures req.body.model == if settings.model != "" then settings.model else Models.DefaultModel().value
    ensures req.body.messages == messages
    ensures req.body.temperature == settings.temperature && req.body.maxTokens == settings.maxTokens
    ensures |req.headers| == 2
    ensures req.headers[0] == Header("Content-Type", "application/json")
    ensures req.headers[1].name == "Authorization" && BearerCredential(req.headers[1].value) == Some(key)
  {
    DefaultSettingsValues();
    BearerRoundTrip(key);
    var defaults := DefaultChatSettings();
    CompletionRequest(
      OrElse(settings.apiEndpoint, defaults.apiEndpoint.value),
      CompletionBody(
        if settings.model != "" then settings.model else defaults.model,
        messages,
        settings.temperature,
        settings.maxTokens),
      [Header("Content-Type", "application/json"), Header("Authorization", AuthorizationValue(key))])
  }

  /** `choices[0]` of a value that is neither undefined nor null. */
  function EntryZero(choices: ChoicesValue): (e: Option<Choice>)
    requires !choices.UndefinedChoices? && !choices.NullChoices?
    ensures choices.ChoiceList? ==> (e.Some? <==> |choices.items| > 0)
    ensures choices.ChoiceList? && e.Some? ==> e.value == choices.items[0]
    ensures choices.OtherChoices? ==> e == choices.entryZero
  {
    match choices
    case ChoiceList(items) => if |items| > 0 then Some(items[0]) else None
    case OtherChoices(entry) => entry
  }

  /**
   * `response.data.choices[0]?.message?.content || ''`; `None` when reading
   * `choices[0]` throws because `choices` is undefined or null.
   */
  function ReadReply(body: ReplyBody): (r: Option<string>)
    ensures r.None? <==> body.choices.UndefinedChoices? || body.choices.NullChoices?
    ensures r.Some? && r.value != "" ==>
      EntryZero(body.choices).Some? && EntryZero(body.choices).value.content == r
    ensures r.Some? && EntryZero(body.choices).Some? && Truthy(EntryZero(body.choices).value.content) ==>
      r == EntryZero(body.choices).value.content
  {
    if body.choices.UndefinedChoices? || body.choices.NullChoices? then None
    else
      var entry := EntryZero(body.choices);
      Some(if entry.Some? then OrElse(entry.value.content, "") else "")
  }

  /** The catch clause: a status-based text, the server's detail, or the transport's message. */
  function HandleFailure(caught: Caught): (r: Completion)
    ensures r.Returned? ==> ErrorPrefix <= r.text
    ensures r.Thrown? <==> caught.CaughtResponse? && !caught.data.Parsed? && caught.status !in {401, 429, 500}
    ensures r.Thrown? ==> r.error == JsError(UnreadableErrorDataMessage(caught.data), None)
  {
    match caught
    case CaughtResponse(status, data) =>
      if status == 401 then Returned(InvalidKeyText)
      else if status == 429 then Returned(RateLimitText)
      else if status == 500 then Returned(ServerErrorText)
      else if !data.Parsed? then Thrown(JsError(UnreadableErrorDataMessage(data), None))
      else Returned(ErrorPrefix + OrElse(data.body.errorMessage, UnknownServerDetail))
    case CaughtNoResponse(message) =>
      Returned(ErrorPrefix + OrElse(Some(message), UnknownNetworkDetail))
  }

  /** `chatCompletion(messages, settings)` with the HTTP call supplied as `transport`. */
  function ChatCompletion(
    messages: seq<ChatMessage>,
    settings: ChatSettings,
    transport: CompletionRequest -> HttpOutcome): (c: Call)
    ensures c.sent.None? <==> !Truthy(settings.apiKey)
    ensures !Truthy(settings.apiKey) ==> c.result == Thrown(JsError(MissingKeyMessage, None))
    ensures c.sent.Some? ==> c.sent.value == BuildRequest(messages, settings, settings.apiKey.value)
    ensures c.result.Thrown? ==> c.result.error.status.None?
  {
    if !Truthy(settings.apiKey) then
      Call(None, Thrown(JsError(MissingKeyMessage, None)))
    else
      var request := BuildRequest(messages, settings, settings.apiKey.value);
      var result :=
        match transport(request)
        case Success(body) =>
          (match ReadReply(body)
           case Some(text) => Returned(text)
           case None => HandleFailure(CaughtNoResponse(UnreadableChoicesMessage(body.choices))))
        case HttpError(status, data) => HandleFailure(CaughtResponse(status, data))
        case NoResponse(message) => HandleFailure(CaughtNoResponse(message));
      Call(Some(request), result)
  }

  /**
   * A 2xx reply gives the content of `choices[0]`, or "" when there is no
   * such entry or no content; an undefined or null `choices` gives the
   * TypeError text, which names which of the two it met.
   */
  lemma SuccessfulReply(messages: seq<ChatMessage>, settings: ChatSettings,
                        transport: CompletionRequest -> HttpOutcome, body: ReplyBody)
    requires Truthy(settings.apiKey)
    requires transport(BuildRequest(messages, settings, settings.apiKey.value)) == Success(body)
    ensures var c := ChatCompletion(messages, settings, transport);
      match body.choices
      case UndefinedChoices =>
        c.result == Returned(ErrorPrefix + "Cannot read properties of undefined (reading '0')")
      case NullChoices =>
        c.result == Returned(ErrorPrefix + "Cannot read properties of null (reading '0')")
      case ChoiceList(items) =>
        c.result == Returned(if |items| > 0 && Truthy(items[0].content) then items[0].content.value else "")
      case OtherChoices(entry) =>
        c.result == Returned(if entry.Some? && Truthy(entry.value.content) then entry.value.content.value else "")
  {
  }

  /**
   * An error response is classified by status: 401, 429 and exactly 500 get
   * fixed texts; any other status shows the server's `error.message` or a
   * generic text, and throws when `data` is undefined or null.
   */
  lemma ErrorResponseClassification(messages: seq<ChatMessage>, settings: ChatSettings,
                                    transport: CompletionRequest -> HttpOutcome,
                                    status: int, data: ErrorData)
    requires Truthy(settings.apiKey)
    requires transport(BuildRequest(messages, settings, settings.apiKey.value)) == HttpError(status, data)
    ensures var r := ChatCompletion(messages, settings, transport).result;
      && (status == 401 ==> r == Returned(InvalidKeyText))
      && (status == 429 ==> r == Returned(RateLimitText))
      && (status == 500 ==> r == Returned(ServerErrorText))
      && (status !in {401, 429, 500} && data.Parsed? ==>
            r == Returned(ErrorPrefix + (if Truthy(data.body.errorMessage) then data.body.errorMessage.value else UnknownServerDetail)))
      && (status !in {401, 429, 500} && !data.Parsed? ==> r == Thrown(JsError(UnreadableErrorDataMessage(data), None)))
  {
  }

  /** A failure with no response shows the error's message, or the network text when it is empty. */
  lemma NoResponseFailure(messages: seq<ChatMessage>, settings: ChatSettings,
                          transport: CompletionRequest -> HttpOutcome, message: string)
    requires Truthy(settings.apiKey)
    requires transport(BuildRequest(messages, settings, settings.apiKey.value)) == NoResponse(message)
    ensures ChatCompletion(messages, settings, transport).result ==
      Returned(ErrorPrefix + (if message != "" then message else UnknownNetworkDetail))
  {
  }

  /**
   * The thrown/returned asymmetry: a call throws exactly when the key is
   * missing, or when an error response outside 401/429/500 has `data`
   * undefined or null; every other failure is returned as a string starting with "错误: ".
   */
  lemma ThrowsOnlyForMissingKeyOrUnreadableErrorData(messages: seq<ChatMessage>, settings: ChatSettings,
                                               transport: CompletionRequest -> HttpOutcome)
    ensures var c := ChatCompletion(messages, settings, transport);
      c.result.Thrown? <==>
        !Truthy(settings.apiKey) ||
        (var o := transport(c.sent.value);
         o.HttpError? && !o.data.Parsed? && o.status !in {401, 429, 500})
    ensures var c := ChatCompletion(messages, settings, transport);
      c.sent.Some? && !transport(c.sent.value).Success? && c.result.Returned? ==> ErrorPrefix <= c.result.text
  {
  }
}
