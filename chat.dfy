/**
 * The chat facade and settings resolver (src/services/chat.ts).
 *
 * `localStorage` and `window` become parameters of the resolver; the
 * translation function `t` and the HTTP call are parameters of the facade.
 */
module Chat {
  import opened Wrappers
  import Strings
  import opened Api

  /**
   * The parsed `chatSettings` blob: a partial `ChatSettings` whose absent
   * fields are `None`.
   */
  datatype StoredSettings = StoredSettings(
    apiKey: Option<string>,
    apiEndpoint: Option<string>,
    model: Option<string>,
    temperature: Option<real>,
    maxTokens: Option<int>)

  /** A blob that sets nothing (`{}`). */
  const NothingStored: StoredSettings := StoredSettings(None, None, None, None, None)

  /** `{ ...base, ...stored }`: every field the blob sets wins, every other field keeps its base value. */
  function Merge(base: ChatSettings, stored: StoredSettings): (r: ChatSettings)
    ensures r.apiKey == if stored.apiKey.Some? then stored.apiKey else base.apiKey
    ensures r.apiEndpoint == if stored.apiEndpoint.Some? then stored.apiEndpoint else base.apiEndpoint
    ensures r.model == stored.model.GetOr(base.model)
    ensures r.temperature == stored.temperature.GetOr(base.temperature)
    ensures r.maxTokens == stored.maxTokens.GetOr(base.maxTokens)
  {
    ChatSettings(
      if stored.apiKey.Some? then stored.apiKey else base.apiKey,
      if stored.apiEndpoint.Some? then stored.apiEndpoint else base.apiEndpoint,
      stored.model.GetOr(base.model),
      stored.temperature.GetOr(base.temperature),
      stored.maxTokens.GetOr(base.maxTokens))
  }

  /**
   * `getStoredSettings()`. `hasWindow` is `typeof window !== 'undefined'`;
   * `stored` is the parsed blob, `None` when `localStorage` holds nothing
   * (null or the empty string).
   */
  function GetStoredSettings(hasWindow: bool, stored: Option<StoredSettings>): (r: ChatSettings)
    ensures !hasWindow || stored.None? ==> r == DefaultChatSettings()
    ensures hasWindow && stored.Some? ==> r == Merge(DefaultChatSettings(), stored.value)
  {
    if !hasWindow then DefaultChatSettings()
    else if stored.Some? then Merge(DefaultChatSettings(), stored.value)
    else DefaultChatSettings()
  }

  /** An empty blob leaves the defaults as they are. */
  lemma EmptyBlobGivesDefaults(hasWindow: bool)
    ensures GetStoredSettings(hasWindow, Some(NothingStored)) == DefaultChatSettings()
  {
  }

  /** Applying the same blob again changes nothing. */
  lemma MergeIdempotent(base: ChatSettings, stored: StoredSettings)
    ensures Merge(Merge(base, stored), stored) == Merge(base, stored)
  {
  }

  /** The blob `{temperature: 0.2}` changes only the temperature. */
  lemma TemperatureOnlyBlob()
    ensures var r := GetStoredSettings(true, Some(NothingStored.(temperature := Some(0.2))));
      r.temperature == 0.2 && r == DefaultChatSettings().(temperature := 0.2)
  {
  }

  /** The five translation keys the facade can show. */
  datatype ErrorKey = ApiKeyRequired | InvalidApiKey | TooManyRequests | ServerError | Unknown

  /** The name of a key inside the `errors` record. */
  function KeyName(k: ErrorKey): string {
    match k
    case ApiKeyRequired => "apiKeyRequired"
    case InvalidApiKey => "invalidApiKey"
    case TooManyRequests => "tooManyRequests"
    case ServerError => "serverError"
    case Unknown => "unknown"
  }

  /** The dotted key passed to `t`. */
  function KeyPath(k: ErrorKey): (p: string)
    ensures |p| > 7 && p[..7] == "errors." && p[7..] == KeyName(k)
  {
    "errors." + KeyName(k)
  }

  /** Each key is the two-segment path `errors.<name>`. */
  lemma KeyPathSegments(k: ErrorKey)
    ensures Strings.Split(KeyPath(k), '.') == ["errors", KeyName(k)]
  {
    var name := KeyName(k);
    assert '.' !in name by {
      match k
      case ApiKeyRequired =>
      case InvalidApiKey =>
      case TooManyRequests =>
      case ServerError =>
      case Unknown =>
    }
    assert KeyPath(k) == "errors" + ['.'] + name;
    Strings.SplitAtFirstSeparator("errors", name, '.');
    Strings.SplitWithoutSeparator(name, '.');
  }

  /** No two error kinds share a translation key. */
  lemma KeyPathsDistinct(k: ErrorKey, k': ErrorKey)
    ensures KeyPath(k) == KeyPath(k') <==> k == k'
  {
  }

  /**
   * The catch clause of `sendMessage`: the missing-key message first, then
   * the response status (401, 429, anything from 500 up), else `unknown`.
   */
  function ClassifyError(e: JsError): (k: ErrorKey)
    ensures Strings.Contains(e.message, MissingKeyMessage) ==> k == ApiKeyRequired
    ensures k == ApiKeyRequired ==> Strings.Contains(e.message, MissingKeyMessage)
    ensures k == InvalidApiKey <==> !Strings.Contains(e.message, MissingKeyMessage) && e.status == Some(401)
    ensures k == TooManyRequests <==> !Strings.Contains(e.message, MissingKeyMessage) && e.status == Some(429)
    ensures k == ServerError <==>
      !Strings.Contains(e.message, MissingKeyMessage) && e.status.Some? && e.status.value >= 500
    ensures k == Unknown <==>
      !Strings.Contains(e.message, MissingKeyMessage) &&
      (e.status.None? || (e.status.value !in {401, 429} && e.status.value < 500))
  {
    if Strings.Contains(e.message, MissingKeyMessage) then ApiKeyRequired
    else if e.status.Some? && e.status.value == 401 then InvalidApiKey
    else if e.status.Some? && e.status.value == 429 then TooManyRequests
    else if e.status.Some? && e.status.value >= 500 then ServerError
    else Unknown
  }

  /** What `sendMessage` resolves to, and the request `chatCompletion` sent, if it was called and sent one. */
  datatype Sent = Sent(request: Option<CompletionRequest>, text: string)

  /** `createChatService(t).sendMessage(messages, settings)`, with the HTTP call as `transport`. */
  function SendMessage(
    t: string -> string,
    messages: seq<ChatMessage>,
    settings: ChatSettings,
    transport: CompletionRequest -> HttpOutcome): (r: Sent)
    ensures !Truthy(settings.apiKey) ==> r == Sent(None, t(KeyPath(ApiKeyRequired)))
    ensures Truthy(settings.apiKey) ==>
      var c := ChatCompletion(messages, settings, transport);
      && r.request.Some? && r.request == c.sent
      && (c.result.Returned? ==> r.text == c.result.text)
      && (c.result.Thrown? ==> r.text == t(KeyPath(ClassifyError(c.result.error))))
  {
    if !Truthy(settings.apiKey) then Sent(None, t(KeyPath(ApiKeyRequired)))
    else
      var c := ChatCompletion(messages, settings, transport);
      match c.result
      case Returned(text) => Sent(c.sent, text)
      case Thrown(e) => Sent(c.sent, t(KeyPath(ClassifyError(e))))
  }

  /**
   * The early key check and the client's thrown error agree: without a key,
   * the error `chatCompletion` would throw is classified as `apiKeyRequired`,
   * the text the facade returns without calling it.
   */
  lemma EarlyKeyCheckAgreesWithCatch(messages: seq<ChatMessage>, settings: ChatSettings,
                                     transport: CompletionRequest -> HttpOutcome)
    requires !Truthy(settings.apiKey)
    ensures ChatCompletion(messages, settings, transport).result.Thrown?
    ensures ClassifyError(ChatCompletion(messages, settings, transport).result.error) == ApiKeyRequired
  {
  }

  /**
   * Errors `chatCompletion` throws carry no response, so the status branches
   * of the catch clause never fire: a call resolves to the client's string,
   * `t('errors.apiKeyRequired')` or `t('errors.unknown')`.
   */
  lemma FacadeResolvesToReplyOrTwoKeys(t: string -> string, messages: seq<ChatMessage>,
                                       settings: ChatSettings, transport: CompletionRequest -> HttpOutcome)
    ensures var r := SendMessage(t, messages, settings, transport);
      var c := ChatCompletion(messages, settings, transport);
      (c.result.Returned? && r.text == c.result.text) ||
      r.text == t(KeyPath(ApiKeyRequired)) || r.text == t(KeyPath(Unknown))
  {
  }

  /**
   * The TypeError the client's catch clause raises for an error response
   * outside 401/429/500 whose `data` is undefined or null reaches the
   * facade without a status, so it is shown as `t('errors.unknown')`.
   */
  lemma UnreadableErrorDataShowsUnknown(t: string -> string, messages: seq<ChatMessage>, settings: ChatSettings,
                                        transport: CompletionRequest -> HttpOutcome, status: int, data: ErrorData)
    requires Truthy(settings.apiKey)
    requires transport(BuildRequest(messages, settings, settings.apiKey.value)) == HttpError(status, data)
    requires status !in {401, 429, 500} && !data.Parsed?
    ensures SendMessage(t, messages, settings, transport).text == t(KeyPath(Unknown))
  {
    var m := UnreadableErrorDataMessage(data);
    assert MissingKeyMessage[0] == 'A';
    assert 'A' !in m;
    Strings.NotContainsFirstChar(m, MissingKeyMessage);
  }

  /**
   * The two layers disagree on server errors: the client shows the server
   * text only for status 500 exactly, while the facade's catch clause maps
   * every status from 500 up to `serverError`.
   */
  lemma ServerErrorThresholdsDiffer(status: int, detail: string, message: string)
    requires status > 500 && detail != ""
    requires !Strings.Contains(message, MissingKeyMessage)
    ensures HandleFailure(CaughtResponse(status, Parsed(ErrorBody(Some(detail))))) == Returned(ErrorPrefix + detail)
    ensures HandleFailure(CaughtResponse(500, Parsed(ErrorBody(Some(detail))))) == Returned(ServerErrorText)
    ensures ClassifyError(JsError(message, Some(status))) == ServerError
    ensures ClassifyError(JsError(message, Some(500))) == ServerError
  {
  }
}
