# v0-mcp-server: tool handlers, v0 configuration and `.env` loading in Dafny

The repository holds tool handlers for the Model Context Protocol: four
Plaid operations (`createLinkToken`, `exchangePublicToken`, `getAccounts`,
`getTransactions`) and one v0 text-generation call (`v0.generateCompletion`).

Each tool:

- declares a zod schema for its arguments;
- has a handler that shapes one vendor request from its arguments;
- answers with exactly one `"text"` content block, whatever happened.

Each handler is modelled on arguments validated against its schema, as its
parameter type (`z.infer<typeof …Schema>`) declares. How the handlers are
reached differs:

- The transport route does not register the Plaid tools, and no route
  considered here does; the model takes the validation their parameter types
  declare as given.
- The transport route registers `v0.generateCompletion` with a validating
  MCP server, but that server answers only GET and DELETE. Every POST goes to
  a custom handler that passes `body.input` to `generateCompletion` without
  validation. In the route as written, a POST therefore reaches the v0
  handler only unvalidated; that path is not part of this model (see
  "Left out").

Beside the tools, the model covers:

- the v0 configuration module: the endpoint URL and a stored API key, from
  which the bearer headers are built;
- `loadEnv` from the direct test script: a small `.env` parser.

Files:

- `wrappers.dfy`: the `Option` and `Result` types.
- `js_values.dfy`: the JavaScript values the handlers see. It covers JSON
  values, truthiness (`if (x)`, `a || b`), property reads that throw on
  `null`/`undefined`, caught errors (`error.message || String(error)`), the
  JSON codec and the content blocks of a tool result.
- `decimal.dfy`: decimal digits and `String(n)` for a natural number.
- `dates.dfy`: `toISOString().split('T')[0]` for a given date.
- `schema.dfy`: the part of zod the schemas use. It covers strings, numbers,
  booleans, string enums, arrays, nested objects, and fields that are
  required, optional, or default to a constant or to a clock reading. The
  validator `Check` works as zod does:
  - it collects every issue with its path;
  - it validates defaults through the field's type;
  - it leaves absent optional fields absent;
  - it strips undeclared keys.

  It is proved against two independent definitions: `Accepts`, which says
  when validation succeeds, and `Conforms`, which describes a well-typed
  output.
- `plaid_tools.dfy`: the four Plaid schemas, their typed arguments, the
  request each handler sends, and the one-block answer.
- `v0_tools.dfy`: `v0RequestSchema` and `generateCompletion`. It covers the
  message list, the payload, the non-2xx error text, JSON parse failures,
  extraction of `choices[0].message.content`, and the catch-all error text.
- `v0_config.dfy`: the configuration module as a class with one mutable
  field, `apiKey`.
- `env_loader.dfy`: `loadEnv`. It covers `split('\n')`, the
  `^([^=]+)=(.*)$` match, `trim()`, and the in-place dictionary loop.

The vendor client calls, `fetch`, MD5 and `JSON.stringify`/`JSON.parse` are
function-valued parameters. The model states what goes into them and how
their results are used, not what they compute. The current instant is a
`Clock` input holding "today" and "thirty days ago". Reading the `.env` file
is an `Option<string>` input, where `None` means the read failed.

## Behaviour notes

- Each Plaid handler prefixes failures with its own text, for example
  `Error creating link token: `. The v0 handler uses
  `Error calling v0 API: `. No handler uses a common `Error: ` prefix.
- A Plaid failure is described by `error.response.data.error_message`, then
  `error.message`, then `String(error)`, the first that is non-empty.
- `stream: true` is only forwarded to v0. The answer is always read as one
  JSON body, and no event stream is drained.
- Validation does not coerce values. A value of the wrong kind is an issue.
- `generateCompletion` authorises with `process.env.V0_API_KEY`, not with the
  stored key.

## Model

| member | source | states |
|---|---|---|
| Schema.CheckAgreesWithAccepts | app/tools/plaid-tools.ts:7-41 | `Check` (and `Validate`, its call on a whole argument object) succeeds exactly when the arguments are acceptable: every declared field is present with the right kind, or is optional, or has a default of the right kind; enum strings are members. A failure always reports at least one issue. |
| Schema.CheckConforms | app/tools/plaid-tools.ts:7-41 | The output of `Check` on a well-formed schema conforms to it: only declared keys, every non-optional field present, every value of its declared kind. |
| Schema.ConformingUnchanged | app/tools/plaid-tools.ts:7-41 | A value that already conforms passes validation unchanged. |
| Schema.ValidateIdempotent | app/tools/plaid-tools.ts:7-41 | Validating validated arguments again gives the same arguments. |
| Schema.ValidatedField | app/tools/plaid-tools.ts:8-18 | For each declared field of the output: a required field was present; a given value is the validated value (for scalars and enum arrays, exactly the given value); an absent optional field stays absent; an absent defaulted field holds its default or the clock's date. |
| Schema.MissingRequiredReported | app/tools/plaid-tools.ts:11-13 | An absent required field makes validation fail with a "missing" issue at the field's path. |
| Schema.EnumItemReported | app/tools/plaid-tools.ts:10 | A string outside the enumeration at index t of an enum array fails validation with a "not in enum" issue at that index. |
| Schema.FieldValueIssuesReported | app/tools/plaid-tools.ts:11-13 | Every issue found inside a nested field value is reported for the enclosing object. |
| Schema.ArrayItemIssuesReported | app/tools/plaid-tools.ts:10 | Every issue found in an array element is reported for the array, at the element's index. |
| Schema.ExtraKeysIgnored | app/tools/plaid-tools.ts:7-19 | A key the schema does not declare changes neither the verdict nor the output. |
| Dates.PaddedValue | app/tools/plaid-tools.ts:35 | Zero-padded digits read back as the number. |
| Dates.IsoDateShape | app/tools/plaid-tools.ts:31-40 | `IsoDate` of a default date is "YYYY-MM-DD": ten characters, dashes at 4 and 7, digits elsewhere, and the three parts read back as year, month and day. |
| Decimal.DecimalTextValue | app/tools/v0-tools.ts:84 | The status code's decimal text reads back as the code, with no leading zero. |
| JsValues.GetProp | app/tools/v0-tools.ts:93-94 | A property read throws (with a non-empty TypeError message) exactly when the receiver is null or undefined. On an object it is the member lookup. |
| PlaidTools.ParseCreateLinkTokenArgs | app/tools/plaid-tools.ts:7-19 | Validation and `DecodeCreateLinkToken` give typed arguments exactly when the arguments are acceptable. The issues reported are the validator's, and there is at least one. |
| PlaidTools.ParseExchangePublicTokenArgs | app/tools/plaid-tools.ts:21-23 | As above; on success, the token is the caller's public_token. |
| PlaidTools.ParseGetAccountsArgs | app/tools/plaid-tools.ts:25-27 | As above; on success, the token is the caller's access_token. |
| PlaidTools.ParseGetTransactionsArgs | app/tools/plaid-tools.ts:29-41 | The handler is reached exactly when the arguments are acceptable. The issues are the validator's, and there is at least one. |
| PlaidTools.CreateLinkTokenNameAndLanguage | app/tools/plaid-tools.ts:8-9 | client_name and language are the caller's strings, or "MCP Plaid Integration" and "en" when absent. |
| PlaidTools.CreateLinkTokenCountryCodes | app/tools/plaid-tools.ts:10 | country_codes is the caller's list, or ["US"] when absent; every entry is one of the eight supported countries. |
| PlaidTools.CreateLinkTokenProducts | app/tools/plaid-tools.ts:14-16 | products is the caller's list, or ["transactions"] when absent; every entry is one of the six supported products. |
| PlaidTools.CreateLinkTokenUserId | app/tools/plaid-tools.ts:11-13 | Accepted arguments always carry user.client_user_id, and the handler receives it unchanged. |
| PlaidTools.CreateLinkTokenOptionals | app/tools/plaid-tools.ts:17-18 | webhook and redirect_uri are present exactly when the caller gave them, with the caller's values. |
| PlaidTools.CreateLinkTokenRequiresUser | app/tools/plaid-tools.ts:11-13 | A missing user is reported at ["user"]. A user without client_user_id is reported at ["user", "client_user_id"]. |
| PlaidTools.CreateLinkTokenEnumsChecked | app/tools/plaid-tools.ts:10-16 | An unsupported country code or product at index t is reported at [field, t]. |
| PlaidTools.PublicTokenRequired | app/tools/plaid-tools.ts:21-23 | A missing public_token is reported at ["public_token"]. |
| PlaidTools.AccessTokenRequired | app/tools/plaid-tools.ts:25-30 | A missing access_token is reported at ["access_token"] by both getAccounts and getTransactions. |
| PlaidTools.TransactionWindowDefaults | app/tools/plaid-tools.ts:29-41 | access_token is required and kept. The window is the caller's dates, or else thirty days ago through today as ISO dates from the clock. |
| PlaidTools.Selected | app/tools/plaid-tools.ts:90-93 | The serialised success object holds exactly the selected members the response has, with the response's values. Undefined members are dropped. |
| PlaidTools.ErrorDetail | app/tools/plaid-tools.ts:103 | The failure detail is the vendor's non-empty error_message, else the error's non-empty message, else String(error). |
| PlaidTools.Envelope | app/tools/plaid-tools.ts:86-106 | Every outcome gives exactly one text block: pretty JSON of the selected data on success, prefix plus detail on failure. |
| PlaidTools.EnvelopeTellsOutcome | app/tools/plaid-tools.ts:86-106 | When serialised objects start with "{", the text starts with the error prefix exactly when the vendor call failed. |
| PlaidTools.CreateLinkToken | app/tools/plaid-tools.ts:48-108 | An id containing '@' is replaced by its MD5 digest. Empty name or language falls back to the default. Country codes and products pass through. webhook and redirect_uri are sent exactly when non-empty. The answer is the envelope of link_token and expiration. |
| PlaidTools.ExchangePublicToken | app/tools/plaid-tools.ts:113-141 | The public token is sent unchanged. The answer is the envelope of access_token and item_id, or "Error exchanging token: " plus the detail. |
| PlaidTools.GetAccounts | app/tools/plaid-tools.ts:146-171 | The access token is sent unchanged. The answer is the whole response data, or "Error getting accounts: " plus the detail. |
| PlaidTools.GetTransactions | app/tools/plaid-tools.ts:176-207 | The token and window are sent unchanged, with count 100 and offset 0. The answer is the whole response data, or "Error getting transactions: " plus the detail. |
| V0Config.V0Config.constructor | app/config/v0.ts:8-11 | The stored key starts empty and the URL is the v0 chat-completions endpoint. |
| V0Config.V0Config.SetApiKey | app/config/v0.ts:14-17 | The stored key becomes the given key. The URL is a constant and is unaffected. |
| V0Config.V0Config.GetHeaders | app/config/v0.ts:24-29 | Authorization is "Bearer " followed by exactly the stored key. Content-Type is "application/json". |
| V0Config.ConfiguredCheckAlwaysTrue | app/api/v0-direct/route.ts:15-22 | The routes' "configured?" test, `HasApiKey`, holds for every stored key, the empty one included, so the 400 "not set" answer is unreachable. |
| V0Config.KeyConfiguredIffKeySet | app/api/v0-test/route.ts:8 | The corrected test holds exactly when a non-empty key is stored. |
| V0Tools.ParseV0Args | app/tools/v0-tools.ts:5-12 | On the MCP tool path, validation and `DecodeV0Params` give typed arguments exactly when the arguments are acceptable. The issues are the validator's, and there is at least one. |
| V0Tools.V0ArgsDefaults | app/tools/v0-tools.ts:6-8 | prompt is required and kept. model defaults to "v0-1.0-md" and stream to false; given values are kept. |
| V0Tools.V0ArgsOptionals | app/tools/v0-tools.ts:9-11 | system_message, max_tokens and temperature are present exactly when given, with the given values. |
| V0Tools.PromptRequired | app/tools/v0-tools.ts:6 | A missing prompt is reported at ["prompt"]. |
| V0Tools.BodyDetail | app/tools/v0-tools.ts:74-84 | The error body is re-serialised when it parses to a truthy value. Otherwise (no JSON, or null, false, 0, "") it is the raw text. |
| V0Tools.StatusErrorMessage | app/tools/v0-tools.ts:84 | The message is "v0 API error: ", then the status in decimal (reading back as the status), then " ", the status text, " " and the body detail. |
| V0Tools.ExtractContent | app/tools/v0-tools.ts:92-95 | null data throws reading "choices". Absent, falsy or empty choices give "". A null first choice throws reading "message". Non-empty text only comes from an object. Errors carry a message. |
| V0Tools.ContentOfFirstChoice | app/tools/v0-tools.ts:92-95 | For data with choices[0].message.content = s, the content is s, whatever other members there are. |
| V0Tools.NoMessageGivesEmptyText | app/tools/v0-tools.ts:92-95 | A first choice without a truthy message gives the empty text, not an error. |
| V0Tools.GenerateCompletion | app/tools/v0-tools.ts:19-116 | The request goes to the v0 endpoint. The messages are one or two: a system message first exactly when system_message is non-empty, and the user's prompt last. model and stream are always sent; max_tokens and temperature only when non-zero. Every outcome gives one text block: rejection, non-2xx status, unparsable body and TypeError each give "Error calling v0 API: " plus the message; otherwise the content. |
| V0Tools.FailuresArePrefixed | app/tools/v0-tools.ts:72-114 | A non-2xx answer starts with "Error calling v0 API: v0 API error: ", followed by the status code's decimal digits. |
| EnvLoader.SplitLines | scripts/direct-v0-test.mjs:23 | Splitting gives at least one piece, and no piece contains '\n'. |
| EnvLoader.JoinSplitLines | scripts/direct-v0-test.mjs:23 | Joining the pieces with '\n' gives the file text back. |
| EnvLoader.SplitJoinLines | scripts/direct-v0-test.mjs:23 | Splitting newline-free lines joined with '\n' gives the lines back. |
| EnvLoader.TrimKeepsMiddle | scripts/direct-v0-test.mjs:26-27 | `Trim` (`trim()`) keeps a contiguous middle part, cutting only white space and line terminators at either end. The result neither starts nor ends with one. Trimming again changes nothing. |
| EnvLoader.TrimAllSpace | scripts/direct-v0-test.mjs:26 | A string of white space only trims to the empty string. |
| EnvLoader.ParseLineComplete | scripts/direct-v0-test.mjs:24-27 | A line matching `^([^=]+)=(.*)$` with groups key and value is parsed by `ParseLine` to (trim(key), trim(value)). The split is at the first '='. |
| EnvLoader.ParseLineSound | scripts/direct-v0-test.mjs:24-27 | Every parsed line matches the pattern, with the parsed pair as its trimmed groups. |
| EnvLoader.NoKeyNoEntry | scripts/direct-v0-test.mjs:24-25 | A line without '=', or starting with '=', adds nothing. |
| EnvLoader.CrlfLineSkipped | scripts/direct-v0-test.mjs:24 | A line with '=' that ends in '\r' (a CRLF file) adds nothing. |
| EnvLoader.ValueMayHoldEquals | scripts/direct-v0-test.mjs:24 | In "KEY=a=b" the key is KEY and the value is "a=b". |
| EnvLoader.BlankKeyBecomesEmpty | scripts/direct-v0-test.mjs:26 | A key of spaces only is stored as the empty key. |
| EnvLoader.EnvKeys | scripts/direct-v0-test.mjs:23-30 | A key is in the dictionary `EnvOf` of the lines exactly when some line stores under it. |
| EnvLoader.LastLineWins | scripts/direct-v0-test.mjs:28 | A key's value comes from the last line that stores under it. |
| EnvLoader.LoadEnv | scripts/direct-v0-test.mjs:17-37 | The loop builds `EnvOf` of the file's lines, in order. A failed read gives the empty dictionary. |

## Left out

- The vendor client (`plaidClient.*`), `fetch`, MD5, and `JSON.stringify`/`JSON.parse` are parameters; their own behaviour is not modelled.
- Key order and white space in serialised JSON are not modelled.
- `response.text()` and `response.json()` are read from one body text, so a failure while reading the body is not modelled.
- Environment access is not modelled: `process.env`, the `V0_API_KEY` header built in `generateCompletion`, `NODE_ENV`, and the route that calls `setV0ApiKey` at start-up.
- The clock, time zones and the thirty-day arithmetic are not modelled: "today" and "thirty days ago" are inputs.
- Logging (`console.*`) has no effect on results and is left out.
- The MCP transport, tool registration and the Next.js routes are left out. From the routes, only the "configured?" test is restated.
- The test harnesses are left out, and so is everything in `scripts/direct-v0-test.mjs` other than `loadEnv`.
- Promises and `await` are modelled as already settled outcomes.
- Values thrown that are `null` or `undefined` are not modelled: there, `error.message` would itself throw inside the `catch`.
- A Plaid response without a `data` object is not modelled.
- V0Tools.GenerateCompletion / JsValues.TruthyNumber: numbers are exact reals, not IEEE doubles. The rounding, overflow to Infinity and underflow to 0 of JSON number literals are not modelled. So an underflowing `max_tokens` or `temperature`, which JavaScript reads as 0 and omits, is sent here; an overflowing one, which `JSON.stringify` would send as `null`, is sent as its value.
- V0Tools.GenerateCompletion: only the `server.tool` path is modelled, where the arguments are first validated with the v0 request schema (app/[transport]/route.ts:70-78). The raw POST path (app/[transport]/route.ts:25-27) passes `body.input` to the handler unvalidated: the `model` and `stream` defaults are not applied there, and an input that is not an object throws inside the handler's `try`. That path is not modelled.
- Strings are sequences of Unicode scalar values, not UTF-16 code units, so `s[0]` on a string with surrogates differs.
- JsValues.PositiveLength: `length > 0` is modelled for number and boolean lengths only. A string, array or object `length` that JavaScript would convert to a number compares as false here.
- PlaidTools.Envelope: the success text is the serialiser's output for the selected object. A vendor field holding `undefined` (possible only outside JSON) is treated as absent.
- V0Tools.GenerateCompletion: the request's headers are not part of the model, because they come from the environment.

## Findings

| source | as written | input that shows it | evidently intended | confidence | as-written member | corrected member |
|---|---|---|---|---|---|---|
| app/api/v0-direct/route.ts:15 | `hasApiKey` tests that Authorization is non-empty and starts with "Bearer ". getHeaders always builds "Bearer " + key, so the test cannot fail, and the 400 "V0 API key is not set" branch (lines 17-22) is dead. The same holds at app/api/v0-test/route.ts:8. | the initial state: apiKey is "", Authorization is "Bearer ", and hasApiKey is true | report "not set" when the stored key is empty | high (not executed) | V0Config.ConfiguredCheckAlwaysTrue | V0Config.KeyConfiguredIffKeySet |
