# pomelo-gpt chat request cycle, in Dafny

This project models the part of the pomelo-gpt desktop chat client that has
real control flow: one chat turn from settings to display string.

- **Settings resolver** (`getStoredSettings`): the persisted partial settings
  are shallow-merged over `defaultChatSettings`.
- **Completion client** (`chatCompletion`): it checks the API key, builds
  the POST (endpoint, model, payload, `Authorization: Bearer <key>` as in
  section 2.1 of RFC 6750) and extracts `choices[0].message.content`. A
  failure becomes a display string starting with `错误: `, with two
  exceptions that are thrown: a missing key, and the TypeError the catch
  clause raises when an error response's `data` is undefined or null (see
  below).
- **Chat facade** (`createChatService(t).sendMessage`): it returns
  `t('errors.apiKeyRequired')` early when there is no key. Otherwise it
  returns what the client returns, and maps anything the client throws to
  one of five translation keys.
- **Translation lookup** (`translate`): a dotted key is walked through a
  nested locale record. The lookup returns the key itself as soon as a
  segment cannot be followed.
- **Option catalogs**: languages and models, with first-match lookup,
  provider de-duplication and filtering, and display text.

Files, one module each: `wrappers.dfy` (Option), `seqs.dfy` (`find`,
`filter`, `map`, `Array.from(new Set(..))`), `strings.dfy` (`split`, `join`,
`includes`), `i18n.dfy`, `languages.dfy`, `models.dfy`, `api.dfy`, `chat.dfy`.

The impure points are parameters:
- the HTTP call is `transport: CompletionRequest -> HttpOutcome`, with
  `Success(body) | HttpError(status, data) | NoResponse(message)`;
- `typeof window` is `hasWindow`, and the parsed `localStorage` blob is an
  optional `StoredSettings`;
- `navigator.language` is a string argument;
- the translation function `t` and the locale tables are arguments.

`ChatCompletion` returns the request it sent, if any, together with how it
settled (`Returned(text)` or `Thrown(error)`). So "no request is built or
sent" is stated as `sent.None?`.

## Behaviour of the code worth knowing

- The `?.` guards and the `|| ''` fallback at api.ts line 60 (under the
  comment at line 59) make a missing reply `""`, but they guard `choices[0]`
  and not `choices` itself. So `response.data.choices[0]` throws a
  TypeError when `choices` is undefined (absent) or null. The catch clause
  then returns `错误: Cannot read properties of undefined (reading '0')`, or
  the same text with `null` (V8's messages, since the client runs in
  Electron), not `""`. An empty array, a `choices[0]` without content, and a
  `choices` that is some other non-nullish value without a usable entry `0`
  (such as `{}`) all give `""`.
- `data.error?.message` throws when an error response's `data` is
  `undefined` or `null` and its status is not 401, 429 or 500 (api.ts line
  77). This TypeError escapes `chatCompletion` from inside its catch clause,
  so a missing key is not the only thrown failure. The facade then maps it
  to `errors.unknown`. The model keeps the two cases apart (`UndefinedData`,
  `NullData`) because V8's message names the one it met
  (`Chat.UnreadableErrorDataShowsUnknown` proves the facade's result). Any
  other `data` without a truthy `error.message`, an empty-string body
  included, shows the generic text: it is `Parsed(ErrorBody(None))`.
- The client treats only status `=== 500` as a server error (api.ts line 74),
  while the facade maps every status `>= 500` (chat.ts line 37).
  `Chat.ServerErrorThresholdsDiffer` states both sides. Errors the client
  throws never carry a response, so the facade's status branches cannot
  fire (`Chat.FacadeResolvesToReplyOrTwoKeys`).

## Model

| member | source | states |
|---|---|---|
| `Seqs.FindFirst` | src/config/models.ts:38 | `find`: none exactly when no element satisfies the test; otherwise an element that does, with none before it |
| `Seqs.Filter` | src/config/models.ts:52 | `filter`: never longer than the input; every kept element satisfies the test and comes from the input; every satisfying element is kept |
| `Seqs.Map` | src/config/models.ts:45 | `map`: same length, element i is the function of input element i |
| `Seqs.Distinct` | src/config/models.ts:45 | `new Set` keeps every value of the input, each exactly once |
| `Seqs.DistinctKeepsFirstOccurrenceOrder` | src/config/models.ts:44-46 | the de-duplicated values are in the order of their first occurrence |
| `Strings.Split` | src/i18n/index.ts:18 | `split` gives at least one segment and no segment contains the separator |
| `Strings.JoinSplit` | src/i18n/index.ts:18 | splitting a key on '.' loses nothing: joining the segments gives the key back |
| `Strings.SplitJoin` | src/i18n/index.ts:18 | splitting a '.'-join of '.'-free segments gives exactly those segments |
| `Strings.FirstSegmentIsPrefix` | src/config/languages.ts:37 | `split('-')[0]` is the text before the first '-', or the whole string if there is none |
| `Strings.Contains` | src/services/chat.ts:25 | `includes` holds exactly when the text occurs at some position |
| `I18n.Walk` | src/i18n/index.ts:21-26 | the walk fails only on a non-empty path; it passes a segment only through a record that has that field; one segment reads that field |
| `I18n.Render` | src/i18n/index.ts:29 | `String(result)`: a string leaf is itself, a record prints as `[object Object]` |
| `I18n.Lookup` | src/i18n/index.ts:17-30 | an unresolved key gives the key; a key that reaches a string gives that string |
| `I18n.WalkAppend` | src/i18n/index.ts:21-27 | consuming segments left to right: walking `a + b` is walking `a`, then `b` from the record reached |
| `I18n.Translate` | src/i18n/index.ts:17-30 | the loop returns the rendered value the whole key reaches, or the key when some segment cannot be followed |
| `I18n.UnresolvedSegmentGivesKey` | src/i18n/index.ts:22-26 | a missing field, or a string reached before the last segment, makes the result the key unchanged |
| `I18n.SingleSegmentReadsTopLevel` | src/i18n/index.ts:18-24 | a key without '.' reads only the top level of the language's record |
| `I18n.DottedKeyDescends` | src/i18n/index.ts:21-23 | `seg.rest` descends into field `seg` and continues with `rest` |
| `Languages.CatalogValues` | src/config/languages.ts:17-30 | the catalog is 'zh' then 'en', so all values are distinct |
| `Languages.PrimarySubtag` | src/config/languages.ts:37 | the browser's primary subtag is a '-'-free prefix that ends at the first '-' or at the end |
| `Languages.GetDefaultLanguage` | src/config/languages.ts:36-40 | the result is a catalog member: the entry matching the primary subtag, else the first entry when none matches |
| `Languages.DefaultLanguageIgnoresRegion` | src/config/languages.ts:36-40 | `zh-XX` / `en-XX` (any region) and bare `zh` / `en` select that language |
| `Languages.GetLanguageByValue` | src/config/languages.ts:45-47 | defined for every `Language`; the entry returned is in the catalog and has the queried value |
| `Languages.GetLanguageDisplayText` | src/config/languages.ts:52-54 | the text ends with the native name; it starts with icon and a space when the icon is non-empty, and it equals the native name exactly when the icon is absent or empty |
| `Models.DefaultModel` | src/config/models.ts:30-32 | the default model is a catalog entry that lookup by its value finds again |
| `Models.FindModel` | src/config/models.ts:37-39 | `find`: none exactly when no entry has the value; otherwise the first entry with that value |
| `Models.GetModelByValue` | src/config/models.ts:37-39 | a returned model is in the catalog and has the queried value; none exactly when no model has it |
| `Models.TruthyProviders` | src/config/models.ts:46 | `filter(Boolean)` keeps exactly the defined non-empty providers |
| `Models.TruthyProvidersOrdered` | src/config/models.ts:46 | that filter keeps distinct values distinct and in their relative order |
| `Models.ProviderColumn` | src/config/models.ts:45 | the provider of each catalog entry, position by position |
| `Models.Providers` | src/config/models.ts:44-46 | every listed provider is non-empty and occurs in the catalog's provider column |
| `Models.ModelProviders` | src/config/models.ts:44-46 | the shipped `modelProviders` is `["DeepSeek AI"]` |
| `Models.ProvidersSpec` | src/config/models.ts:44-46 | `modelProviders` lists exactly the defined non-empty providers, each once, in first-occurrence order |
| `Models.ModelsByProvider` | src/config/models.ts:51-53 | never longer than the catalog; every selected model has the provider, and every catalog model with the provider is selected |
| `Models.ModelsByProviderSingleton` | src/config/models.ts:51-53 | a one-model catalog selects that model exactly when it has the provider; with the concatenation lemma this fixes the selection as the order-preserving subsequence |
| `Models.ModelsByProviderKeepsOrder` | src/config/models.ts:51-53 | selection distributes over catalog concatenation, so the catalog order is kept |
| `Models.GetModelsByProvider` | src/config/models.ts:51-53 | over the shipped catalog: never longer than it, only models of that provider, and every model of that provider |
| `Models.ListedProvidersHaveModels` | src/config/models.ts:44-53 | every listed provider has at least one model |
| `Models.ShippedCatalog` | src/config/models.ts:17-25 | the shipped catalog has the single provider "DeepSeek AI" and a default of 2000 tokens |
| `Api.DefaultMaxTokens` | src/services/api.ts:30 | the default maxTokens is the model's value when it is non-zero, else 2000, and never 0 |
| `Api.DefaultChatSettings` | src/services/api.ts:26-31 | the defaults carry no key, a non-empty endpoint and model, and a non-zero token limit |
| `Api.DefaultSettingsValues` | src/services/api.ts:26-31 | the defaults are exactly: no key, the fixed endpoint URL, the catalog's first model, temperature 0.7 and 2000 tokens |
| `Api.AuthorizationValue` | src/services/api.ts:54 | the header value is `Bearer ` followed by exactly the key |
| `Api.BearerRoundTrip` | src/services/api.ts:54 | the `Authorization` value carries exactly the key under the bearer scheme |
| `Api.BearerCredentialDetermines` | src/services/api.ts:54 | a bearer `Authorization` value is the one built from the token it carries |
| `Api.BuildRequest` | src/services/api.ts:42-56 | falsy endpoint or model fall back to the defaults (never empty); messages, temperature and maxTokens pass unchanged; the headers are JSON and the bearer token |
| `Api.EntryZero` | src/services/api.ts:60 | `choices[0]` of a non-nullish `choices`: the first element of an array (none when empty), or the value's own entry `0` |
| `Api.ReadReply` | src/services/api.ts:60 | reading throws exactly when `choices` is undefined or null; a non-empty reply is the content of `choices[0]`, and a truthy content of `choices[0]` is the reply |
| `Api.HandleFailure` | src/services/api.ts:62-81 | every returned failure text starts with `错误: `; the catch throws exactly for a response outside 401/429/500 whose `data` is undefined or null, with V8's TypeError message for that case |
| `Api.ChatCompletion` | src/services/api.ts:33-83 | a request is sent exactly when the key is truthy; without a key it throws "API Key is required"; thrown errors carry no response |
| `Api.SuccessfulReply` | src/services/api.ts:59-61 | a 2xx reply gives the content of `choices[0]` or ""; an undefined or null `choices` gives the TypeError text naming which it was |
| `Api.ErrorResponseClassification` | src/services/api.ts:66-78 | 401, 429 and exactly 500 give fixed texts; other statuses give the server's `error.message` or the generic text, or throw when `data` is undefined or null |
| `Api.NoResponseFailure` | src/services/api.ts:81 | a failure with no response shows its message, or the network text when the message is empty |
| `Api.ThrowsOnlyForMissingKeyOrUnreadableErrorData` | src/services/api.ts:33-83 | the call throws exactly for a missing key, or an error response outside 401/429/500 whose `data` is undefined or null; every other failure returns a `错误: ` string |
| `Chat.Merge` | src/services/chat.ts:8 | the shallow merge: each field the blob sets wins, every other field keeps its default |
| `Chat.GetStoredSettings` | src/services/chat.ts:4-9 | without a window or a blob, the defaults; with a blob, the blob merged over the defaults |
| `Chat.EmptyBlobGivesDefaults` | src/services/chat.ts:8 | a blob that sets nothing gives the defaults |
| `Chat.MergeIdempotent` | src/services/chat.ts:7-8 | merging the same blob again changes nothing |
| `Chat.TemperatureOnlyBlob` | src/services/chat.ts:8 | `{temperature: 0.2}` changes the temperature and nothing else |
| `Chat.KeyPath` | src/services/chat.ts:17-42 | every facade key is `errors.` followed by the kind's name |
| `Chat.KeyPathSegments` | src/services/chat.ts:17-42 | every facade key is the two-segment path `errors.<name>` |
| `Chat.KeyPathsDistinct` | src/services/chat.ts:17-42 | the five error kinds have five distinct keys |
| `Chat.ClassifyError` | src/services/chat.ts:25-42 | the missing-key message wins over any status; then 401, 429, anything from 500 up; otherwise `unknown` |
| `Chat.SendMessage` | src/services/chat.ts:14-44 | no key: `t('errors.apiKeyRequired')` and no request, since the client is not called; else the request the client sent and its string, or `t` of the classified key when it throws |
| `Chat.EarlyKeyCheckAgreesWithCatch` | src/services/chat.ts:16-27 | without a key, the client's thrown error is classified as `apiKeyRequired`, the same text as the early return |
| `Chat.FacadeResolvesToReplyOrTwoKeys` | src/services/chat.ts:20-42 | every call resolves to the client's string, `t('errors.apiKeyRequired')` or `t('errors.unknown')` |
| `Chat.UnreadableErrorDataShowsUnknown` | src/services/chat.ts:25-42 | the client's TypeError for undefined or null error `data` outside 401/429/500 is shown as `t('errors.unknown')` |
| `Chat.ServerErrorThresholdsDiffer` | src/services/chat.ts:37 | statuses above 500 show the server's detail in the client but map to `serverError` in the facade; 500 is a server error in both |

## Left out

- The HTTP POST itself, axios, `async`/`await` and `console.error`. The call is
  the `transport` parameter. No timeout, cancellation or concurrency exists to model.
- `localStorage`, `window` and `navigator`. They are parameters.
- `JSON.parse` of a malformed blob, and blob fields of the wrong type or
  `null`. The blob is an already-parsed typed partial record. Extra fields
  the spread would copy are not modelled.
- Floating point: the temperature is a `real` that is only copied through.
- The contents of the `zh` and `en` locale files. They are not part of this
  model, so the tables are an argument of nested records with string leaves.
- I18n.Translate: `k in result` also finds inherited properties such as
  `toString`. Those are not modelled; a record has only its own fields.
- Values thrown without a `message`, and a 2xx response with no `data`. Errors are records with a message and an
  optional status.
- The `stream` field of `ChatCompletionRequest`. The client never sets it.
- The `label` field of the catalog entries is named `caption`, because
  `label` is a Dafny keyword.
- electron/main.ts (window bootstrap) is not part of this model.
