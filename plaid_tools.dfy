/**
 * The four financial-data tools: their argument schemas, the typed
 * arguments a handler receives once validation has passed, the request each
 * handler sends to the vendor client, and the single text block each handler
 * answers with, whatever the vendor call did.
 *
 * The vendor client calls, the MD5 digest and `JSON.stringify(x, null, 2)`
 * are parameters: the model says what goes into them and how their results
 * are used, not what they compute.
 */
module PlaidTools {
  import opened Wrappers
  import opened JsValues
  import opened Schema
  import Dates

  // ---------------------------------------------------------------------------
  // Schemas
  // ---------------------------------------------------------------------------

  const DefaultClientName := "MCP Plaid Integration"
  const DefaultLanguage := "en"
  const CountryCodes: seq<string> := ["US", "CA", "GB", "FR", "ES", "IE", "NL", "DE"]
  const Products: seq<string> := ["transactions", "auth", "identity", "income", "assets", "investments"]

  const UserSchema: Kind := KObject([Field("client_user_id", KString, Required)])

  const CreateLinkTokenSchema: Kind := KObject([
    Field("client_name", KString, Default(JStr(DefaultClientName))),
    Field("language", KString, Default(JStr(DefaultLanguage))),
    Field("country_codes", KArray(KEnum(CountryCodes)), Default(JArr([JStr("US")]))),
    Field("user", UserSchema, Required),
    Field("products", KArray(KEnum(Products)), Default(JArr([JStr("transactions")]))),
    Field("webhook", KString, Optional),
    Field("redirect_uri", KString, Optional)
  ])

  const ExchangePublicTokenSchema: Kind := KObject([Field("public_token", KString, Required)])

  const GetAccountsSchema: Kind := KObject([Field("access_token", KString, Required)])

  const GetTransactionsSchema: Kind := KObject([
    Field("access_token", KString, Required),
    Field("start_date", KString, DefaultNow(ThirtyDaysAgo)),
    Field("end_date", KString, DefaultNow(Today))
  ])

  // ---------------------------------------------------------------------------
  // Typed arguments
  // ---------------------------------------------------------------------------

  datatype CreateLinkTokenParams = CreateLinkTokenParams(
    clientName: string,
    language: string,
    countryCodes: seq<string>,
    clientUserId: string,
    products: seq<string>,
    webhook: Option<string>,
    redirectUri: Option<string>)

  datatype ExchangePublicTokenParams = ExchangePublicTokenParams(publicToken: string)

  datatype GetAccountsParams = GetAccountsParams(accessToken: string)

  datatype GetTransactionsParams = GetTransactionsParams(accessToken: string, startDate: string, endDate: string)

  /** JSON strings for a list of strings. */
  function JStrs(ss: seq<string>): (r: seq<Json>)
    ensures |r| == |ss| && forall i :: 0 <= i < |ss| ==> r[i] == JStr(ss[i])
  {
    seq(|ss|, i requires 0 <= i < |ss| => JStr(ss[i]))
  }

  function DecodeCreateLinkToken(v: Json): CreateLinkTokenParams
    requires Conforms(CreateLinkTokenSchema, v)
  {
    var k := CreateLinkTokenSchema;
    ConformsField(k, v, 0);
    ConformsField(k, v, 1);
    ConformsField(k, v, 2);
    ConformsField(k, v, 3);
    ConformsField(k, v, 4);
    ConformsField(k, v, 5);
    ConformsField(k, v, 6);
    var m := v.fields;
    ConformsField(UserSchema, m["user"], 0);
    CreateLinkTokenParams(
      StringField(m, "client_name"),
      StringField(m, "language"),
      EnumStrings(CountryCodes, m["country_codes"]),
      StringField(m["user"].fields, "client_user_id"),
      EnumStrings(Products, m["products"]),
      OptionalString(m, "webhook"),
      OptionalString(m, "redirect_uri"))
  }

  /** Raw arguments to typed arguments: validation, then reading the validated fields. */
  function ParseCreateLinkTokenArgs(raw: Json, clock: Dates.Clock): (r: Result<CreateLinkTokenParams, seq<Issue>>)
    ensures r.Ok? <==> Accepts(CreateLinkTokenSchema, raw, clock)
    ensures IssuesOf(r) == IssuesOf(Validate(CreateLinkTokenSchema, raw, clock))
    ensures r.Err? ==> r.error != []
  {
    var k := CreateLinkTokenSchema;
    CheckAgreesWithAccepts(k, raw, [], clock);
    var checked := Validate(k, raw, clock);
    if checked.Ok? then
      CheckConforms(k, raw, [], clock);
      Ok(DecodeCreateLinkToken(checked.value))
    else Err(checked.error)
  }

  function ParseExchangePublicTokenArgs(raw: Json, clock: Dates.Clock): (r: Result<ExchangePublicTokenParams, seq<Issue>>)
    ensures r.Ok? <==> Accepts(ExchangePublicTokenSchema, raw, clock)
    ensures IssuesOf(r) == IssuesOf(Validate(ExchangePublicTokenSchema, raw, clock))
    ensures r.Err? ==> r.error != []
    ensures r.Ok? ==> raw.JObj? && raw.fields["public_token"] == JStr(r.value.publicToken)
  {
    var k := ExchangePublicTokenSchema;
    CheckAgreesWithAccepts(k, raw, [], clock);
    var checked := Validate(k, raw, clock);
    if checked.Ok? then
      CheckConforms(k, raw, [], clock);
      ConformsField(k, checked.value, 0);
      ValidatedField(k, raw.fields, 0, [], clock);
      Ok(ExchangePublicTokenParams(StringField(checked.value.fields, "public_token")))
    else Err(checked.error)
  }

  function ParseGetAccountsArgs(raw: Json, clock: Dates.Clock): (r: Result<GetAccountsParams, seq<Issue>>)
    ensures r.Ok? <==> Accepts(GetAccountsSchema, raw, clock)
    ensures IssuesOf(r) == IssuesOf(Validate(GetAccountsSchema, raw, clock))
    ensures r.Err? ==> r.error != []
    ensures r.Ok? ==> raw.JObj? && raw.fields["access_token"] == JStr(r.value.accessToken)
  {
    var k := GetAccountsSchema;
    CheckAgreesWithAccepts(k, raw, [], clock);
    var checked := Validate(k, raw, clock);
    if checked.Ok? then
      CheckConforms(k, raw, [], clock);
      ConformsField(k, checked.value, 0);
      ValidatedField(k, raw.fields, 0, [], clock);
      Ok(GetAccountsParams(StringField(checked.value.fields, "access_token")))
    else Err(checked.error)
  }

  function ParseGetTransactionsArgs(raw: Json, clock: Dates.Clock): (r: Result<GetTransactionsParams, seq<Issue>>)
    ensures r.Ok? <==> Accepts(GetTransactionsSchema, raw, clock)
    ensures IssuesOf(r) == IssuesOf(Validate(GetTransactionsSchema, raw, clock))
    ensures r.Err? ==> r.error != []
  {
    var k := GetTransactionsSchema;
    CheckAgreesWithAccepts(k, raw, [], clock);
    var checked := Validate(k, raw, clock);
    if checked.Ok? then
      CheckConforms(k, raw, [], clock);
      ConformsField(k, checked.value, 0);
      ConformsField(k, checked.value, 1);
      ConformsField(k, checked.value, 2);
      var m := checked.value.fields;
      Ok(GetTransactionsParams(StringField(m, "access_token"), StringField(m, "start_date"), StringField(m, "end_date")))
    else Err(checked.error)
  }

  // ---------------------------------------------------------------------------
  // What validation guarantees for each tool
  // ---------------------------------------------------------------------------

  /** The typed createLinkToken arguments are read from the validator's output. */
  lemma CreateLinkTokenValidated(m: map<string, Json>, clock: Dates.Clock)
    requires ParseCreateLinkTokenArgs(JObj(m), clock).Ok?
    ensures Validate(CreateLinkTokenSchema, JObj(m), clock).Ok?
    ensures WellFormed(CreateLinkTokenSchema)
    ensures Conforms(CreateLinkTokenSchema, Validate(CreateLinkTokenSchema, JObj(m), clock).value)
    ensures ParseCreateLinkTokenArgs(JObj(m), clock).value
         == DecodeCreateLinkToken(Validate(CreateLinkTokenSchema, JObj(m), clock).value)
  {
    CheckAgreesWithAccepts(CreateLinkTokenSchema, JObj(m), [], clock);
    CheckConforms(CreateLinkTokenSchema, JObj(m), [], clock);
  }

  /** createLinkToken: client_name and language are the caller's, or "MCP Plaid Integration" and "en". */
  lemma CreateLinkTokenNameAndLanguage(m: map<string, Json>, clock: Dates.Clock)
    requires ParseCreateLinkTokenArgs(JObj(m), clock).Ok?
    ensures var p := ParseCreateLinkTokenArgs(JObj(m), clock).value;
      && ("client_name" in m ==> m["client_name"] == JStr(p.clientName))
      && ("client_name" !in m ==> p.clientName == DefaultClientName)
      && ("language" in m ==> m["language"] == JStr(p.language))
      && ("language" !in m ==> p.language == DefaultLanguage)
  {
    var k := CreateLinkTokenSchema;
    CreateLinkTokenValidated(m, clock);
    assert k.fields[0] == Field("client_name", KString, Default(JStr(DefaultClientName)));
    assert k.fields[1] == Field("language", KString, Default(JStr(DefaultLanguage)));
    ValidatedField(k, m, 0, [], clock);
    ValidatedField(k, m, 1, [], clock);
  }

  /** createLinkToken: country_codes is the caller's list, or ["US"]; every entry is a supported country. */
  lemma CreateLinkTokenCountryCodes(m: map<string, Json>, clock: Dates.Clock)
    requires ParseCreateLinkTokenArgs(JObj(m), clock).Ok?
    ensures var p := ParseCreateLinkTokenArgs(JObj(m), clock).value;
      && ("country_codes" in m ==> m["country_codes"] == JArr(JStrs(p.countryCodes)))
      && ("country_codes" !in m ==> p.countryCodes == ["US"])
      && (forall c :: c in p.countryCodes ==> c in CountryCodes)
  {
    var k := CreateLinkTokenSchema;
    CreateLinkTokenValidated(m, clock);
    var v := Validate(k, JObj(m), clock).value;
    var p := ParseCreateLinkTokenArgs(JObj(m), clock).value;
    assert k.fields[2] == Field("country_codes", KArray(KEnum(CountryCodes)), Default(JArr([JStr("US")])));
    ValidatedField(k, m, 2, [], clock);
    ConformsField(k, v, 2);
    assert p.countryCodes == EnumStrings(CountryCodes, v.fields["country_codes"]);
    assert JStrs(p.countryCodes) == v.fields["country_codes"].items;
  }

  /** createLinkToken: products is the caller's list, or ["transactions"]; every entry is a supported product. */
  lemma CreateLinkTokenProducts(m: map<string, Json>, clock: Dates.Clock)
    requires ParseCreateLinkTokenArgs(JObj(m), clock).Ok?
    ensures var p := ParseCreateLinkTokenArgs(JObj(m), clock).value;
      && ("products" in m ==> m["products"] == JArr(JStrs(p.products)))
      && ("products" !in m ==> p.products == ["transactions"])
      && (forall c :: c in p.products ==> c in Products)
  {
    var k := CreateLinkTokenSchema;
    CreateLinkTokenValidated(m, clock);
    var v := Validate(k, JObj(m), clock).value;
    var p := ParseCreateLinkTokenArgs(JObj(m), clock).value;
    assert k.fields[4] == Field("products", KArray(KEnum(Products)), Default(JArr([JStr("transactions")])));
    ValidatedField(k, m, 4, [], clock);
    ConformsField(k, v, 4);
    assert p.products == EnumStrings(Products, v.fields["products"]);
    assert JStrs(p.products) == v.fields["products"].items;
  }

  /** createLinkToken: user.client_user_id is required and carried over as given. */
  lemma CreateLinkTokenUserId(m: map<string, Json>, clock: Dates.Clock)
    requires ParseCreateLinkTokenArgs(JObj(m), clock).Ok?
    ensures var p := ParseCreateLinkTokenArgs(JObj(m), clock).value;
      && "user" in m && m["user"].JObj? && "client_user_id" in m["user"].fields
      && m["user"].fields["client_user_id"] == JStr(p.clientUserId)
  {
    var k := CreateLinkTokenSchema;
    CreateLinkTokenValidated(m, clock);
    assert k.fields[3] == Field("user", UserSchema, Required);
    ValidatedField(k, m, 3, [], clock);
    var out := Validate(k, JObj(m), clock).value.fields;
    var user := m["user"];
    assert Check(UserSchema, user, [Key("user")], clock) == Ok(out["user"]);
    assert user.JObj?;
    assert UserSchema.fields[0] == Field("client_user_id", KString, Required);
    ValidatedField(UserSchema, user.fields, 0, [Key("user")], clock);
  }

  /** createLinkToken: webhook and redirect_uri are present exactly when the caller gave them. */
  lemma CreateLinkTokenOptionals(m: map<string, Json>, clock: Dates.Clock)
    requires ParseCreateLinkTokenArgs(JObj(m), clock).Ok?
    ensures var p := ParseCreateLinkTokenArgs(JObj(m), clock).value;
      && (p.webhook.Some? <==> "webhook" in m)
      && (p.webhook.Some? ==> m["webhook"] == JStr(p.webhook.value))
      && (p.redirectUri.Some? <==> "redirect_uri" in m)
      && (p.redirectUri.Some? ==> m["redirect_uri"] == JStr(p.redirectUri.value))
  {
    var k := CreateLinkTokenSchema;
    CreateLinkTokenValidated(m, clock);
    assert k.fields[5] == Field("webhook", KString, Optional);
    assert k.fields[6] == Field("redirect_uri", KString, Optional);
    ValidatedField(k, m, 5, [], clock);
    ValidatedField(k, m, 6, [], clock);
  }

  /** createLinkToken without a user, or with a user lacking client_user_id, is rejected at that path. */
  lemma CreateLinkTokenRequiresUser(m: map<string, Json>, clock: Dates.Clock)
    ensures "user" !in m ==>
      Issue([Key("user")], Missing) in IssuesOf(ParseCreateLinkTokenArgs(JObj(m), clock))
    ensures ("user" in m && m["user"].JObj? && "client_user_id" !in m["user"].fields) ==>
      Issue([Key("user"), Key("client_user_id")], Missing) in IssuesOf(ParseCreateLinkTokenArgs(JObj(m), clock))
  {
    var k := CreateLinkTokenSchema;
    assert k.fields[3] == Field("user", UserSchema, Required);
    if "user" !in m {
      MissingRequiredReported(k, m, 3, [], clock);
      assert [] + [Key("user")] == [Key("user")];
    } else if m["user"].JObj? && "client_user_id" !in m["user"].fields {
      var user := m["user"];
      assert UserSchema.fields[0] == Field("client_user_id", KString, Required);
      MissingRequiredReported(UserSchema, user.fields, 0, [Key("user")], clock);
      assert user == JObj(user.fields);
      FieldValueIssuesReported(k, m, 3, [], clock);
      assert [Key("user")] + [Key("client_user_id")] == [Key("user"), Key("client_user_id")];
      assert Issue([Key("user"), Key("client_user_id")], Missing) in IssuesOf(Check(UserSchema, user, [Key("user")], clock));
      assert [] + [Key("user")] == [Key("user")];
      assert Issue([Key("user"), Key("client_user_id")], Missing) in IssuesOf(Check(k, JObj(m), [], clock));
    }
  }

  /** A country code or product outside its enumeration is rejected at its index. */
  lemma CreateLinkTokenEnumsChecked(m: map<string, Json>, t: nat, clock: Dates.Clock)
    ensures ("country_codes" in m && m["country_codes"].JArr? && t < |m["country_codes"].items|
             && m["country_codes"].items[t].JStr? && m["country_codes"].items[t].s !in CountryCodes) ==>
      Issue([Key("country_codes"), Index(t)], NotInEnum(CountryCodes)) in IssuesOf(ParseCreateLinkTokenArgs(JObj(m), clock))
    ensures ("products" in m && m["products"].JArr? && t < |m["products"].items|
             && m["products"].items[t].JStr? && m["products"].items[t].s !in Products) ==>
      Issue([Key("products"), Index(t)], NotInEnum(Products)) in IssuesOf(ParseCreateLinkTokenArgs(JObj(m), clock))
  {
    var k := CreateLinkTokenSchema;
    assert k.fields[2] == Field("country_codes", KArray(KEnum(CountryCodes)), Default(JArr([JStr("US")])));
    assert k.fields[4] == Field("products", KArray(KEnum(Products)), Default(JArr([JStr("transactions")])));
    if "country_codes" in m && m["country_codes"].JArr? && t < |m["country_codes"].items|
       && m["country_codes"].items[t].JStr? && m["country_codes"].items[t].s !in CountryCodes {
      EnumItemReported(k, m, 2, t, [], clock);
      assert [] + [Key("country_codes"), Index(t)] == [Key("country_codes"), Index(t)];
    }
    if "products" in m && m["products"].JArr? && t < |m["products"].items|
       && m["products"].items[t].JStr? && m["products"].items[t].s !in Products {
      EnumItemReported(k, m, 4, t, [], clock);
      assert [] + [Key("products"), Index(t)] == [Key("products"), Index(t)];
    }
  }

  /** exchangePublicToken without public_token is rejected at that key. */
  lemma PublicTokenRequired(m: map<string, Json>, clock: Dates.Clock)
    requires "public_token" !in m
    ensures Issue([Key("public_token")], Missing) in IssuesOf(ParseExchangePublicTokenArgs(JObj(m), clock))
  {
    assert ExchangePublicTokenSchema.fields[0] == Field("public_token", KString, Required);
    MissingRequiredReported(ExchangePublicTokenSchema, m, 0, [], clock);
    assert [] + [Key("public_token")] == [Key("public_token")];
  }

  /** getAccounts and getTransactions without access_token are rejected at that key. */
  lemma AccessTokenRequired(m: map<string, Json>, clock: Dates.Clock)
    requires "access_token" !in m
    ensures Issue([Key("access_token")], Missing) in IssuesOf(ParseGetAccountsArgs(JObj(m), clock))
    ensures Issue([Key("access_token")], Missing) in IssuesOf(ParseGetTransactionsArgs(JObj(m), clock))
  {
    assert GetAccountsSchema.fields[0] == Field("access_token", KString, Required);
    assert GetTransactionsSchema.fields[0] == Field("access_token", KString, Required);
    assert [] + [Key("access_token")] == [Key("access_token")];
    MissingRequiredReported(GetAccountsSchema, m, 0, [], clock);
    MissingRequiredReported(GetTransactionsSchema, m, 0, [], clock);
  }

  /**
   * getTransactions: the window defaults to thirty days ago through today,
   * as ISO dates read from the clock; given dates are kept.
   */
  lemma TransactionWindowDefaults(m: map<string, Json>, clock: Dates.Clock)
    requires ParseGetTransactionsArgs(JObj(m), clock).Ok?
    ensures var p := ParseGetTransactionsArgs(JObj(m), clock).value;
      && "access_token" in m && m["access_token"] == JStr(p.accessToken)
      && ("start_date" in m ==> m["start_date"] == JStr(p.startDate))
      && ("start_date" !in m ==> p.startDate == Dates.IsoDate(clock.thirtyDaysAgo))
      && ("end_date" in m ==> m["end_date"] == JStr(p.endDate))
      && ("end_date" !in m ==> p.endDate == Dates.IsoDate(clock.today))
  {
  }

  // ---------------------------------------------------------------------------
  // Vendor requests and outcomes
  // ---------------------------------------------------------------------------

  datatype LinkTokenCreateRequest = LinkTokenCreateRequest(
    clientUserId: string,
    clientName: string,
    language: string,
    countryCodes: seq<string>,
    products: seq<string>,
    webhook: Option<string>,
    redirectUri: Option<string>)

  datatype PublicTokenExchangeRequest = PublicTokenExchangeRequest(publicToken: string)

  datatype AccountsGetRequest = AccountsGetRequest(accessToken: string)

  datatype TransactionsGetRequest = TransactionsGetRequest(
    accessToken: string, startDate: string, endDate: string, count: nat, offset: nat)

  /** What a rejected client call exposes: `error.response?.data?.error_message` and the thrown value. */
  datatype PlaidError = PlaidError(errorMessage: Option<string>, thrown: Thrown)

  /** A settled client call: the response's `data` object, or the rejection. */
  datatype PlaidOutcome = Resolved(data: map<string, Json>) | Rejected(error: PlaidError)

  /** What the success text serialises: chosen members of the response data, or all of it. */
  datatype Selection = Members(keys: set<string>) | WholeData

  /**
   * The object handed to `JSON.stringify`: a member whose value is undefined
   * is dropped by the serialiser, so only members present in `data` appear.
   */
  function Selected(sel: Selection, data: map<string, Json>): (r: Json)
    ensures r.JObj?
    ensures sel.Members? ==> r.fields.Keys == sel.keys * data.Keys
    ensures forall key :: key in r.fields ==> key in data && r.fields[key] == data[key]
    ensures sel.WholeData? ==> r == JObj(data)
  {
    match sel
    case Members(keys) => JObj(map key | key in keys && key in data :: data[key])
    case WholeData => JObj(data)
  }

  /** `error.response?.data?.error_message || error.message || String(error)`. */
  function ErrorDetail(e: PlaidError): (r: string)
    ensures TruthyString(e.errorMessage) ==> r == e.errorMessage.value
    ensures !TruthyString(e.errorMessage) && TruthyString(e.thrown.message) ==> r == e.thrown.message.value
    ensures !TruthyString(e.errorMessage) && !TruthyString(e.thrown.message) ==> r == e.thrown.rendered
    ensures r == "" ==> r == e.thrown.rendered
  {
    if TruthyString(e.errorMessage) then e.errorMessage.value else MessageOrString(e.thrown)
  }

  const LinkTokenErrorPrefix := "Error creating link token: "
  const ExchangeErrorPrefix := "Error exchanging token: "
  const AccountsErrorPrefix := "Error getting accounts: "
  const TransactionsErrorPrefix := "Error getting transactions: "

  /** The one text block a handler answers with, for either outcome; nothing is rethrown. */
  function Envelope(prefix: string, sel: Selection, outcome: PlaidOutcome, pretty: Json -> string): (r: ToolResult)
    ensures |r.content| == 1 && r.content[0].Text?
    ensures outcome.Resolved? ==> r.content[0].text == pretty(Selected(sel, outcome.data))
    ensures outcome.Rejected? ==> r.content[0].text == prefix + ErrorDetail(outcome.error)
  {
    match outcome
    case Resolved(data) => TextResult(pretty(Selected(sel, data)))
    case Rejected(e) => TextResult(prefix + ErrorDetail(e))
  }

  /**
   * When the serialiser renders every object starting with '{' and the prefix
   * starts otherwise, the text alone tells a failure from a success.
   */
  lemma EnvelopeTellsOutcome(prefix: string, sel: Selection, outcome: PlaidOutcome, pretty: Json -> string)
    requires prefix != "" && prefix[0] != '{'
    requires forall m: map<string, Json> :: pretty(JObj(m)) != [] && pretty(JObj(m))[0] == '{'
    ensures StartsWith(Envelope(prefix, sel, outcome, pretty).content[0].text, prefix) <==> outcome.Rejected?
  {
  }

  // ---------------------------------------------------------------------------
  // Handlers
  // ---------------------------------------------------------------------------

  /**
   * createLinkToken: an e-mail-like user id is replaced by its MD5 digest,
   * an empty client name or language falls back to its default, and the
   * webhook and redirect URI are sent only when non-empty.
   */
  method CreateLinkToken(
    params: CreateLinkTokenParams,
    md5: string -> string,
    linkTokenCreate: LinkTokenCreateRequest -> PlaidOutcome,
    pretty: Json -> string)
    returns (sent: LinkTokenCreateRequest, result: ToolResult)
    ensures '@' in params.clientUserId ==> sent.clientUserId == md5(params.clientUserId)
    ensures '@' !in params.clientUserId ==> sent.clientUserId == params.clientUserId
    ensures sent.clientName == (if params.clientName != "" then params.clientName else DefaultClientName)
    ensures sent.language == (if params.language != "" then params.language else DefaultLanguage)
    ensures sent.clientName != "" && sent.language != ""
    ensures sent.countryCodes == params.countryCodes && sent.products == params.products
    ensures sent.webhook.Some? <==> TruthyString(params.webhook)
    ensures sent.webhook.Some? ==> sent.webhook == params.webhook
    ensures sent.redirectUri.Some? <==> TruthyString(params.redirectUri)
    ensures sent.redirectUri.Some? ==> sent.redirectUri == params.redirectUri
    ensures result == Envelope(LinkTokenErrorPrefix, Members({"link_token", "expiration"}), linkTokenCreate(sent), pretty)
  {
    var clientUserId := params.clientUserId;
    if '@' in clientUserId {
      clientUserId := md5(clientUserId);
    }
    // `params.country_codes || ['US']`: an array is always truthy, so the fallback never applies
    sent := LinkTokenCreateRequest(
      clientUserId,
      if params.clientName != "" then params.clientName else DefaultClientName,
      if params.language != "" then params.language else DefaultLanguage,
      params.countryCodes,
      params.products,
      None,
      None);
    if TruthyString(params.webhook) {
      sent := sent.(webhook := params.webhook);
    }
    if TruthyString(params.redirectUri) {
      sent := sent.(redirectUri := params.redirectUri);
    }
    var response := linkTokenCreate(sent);
    result := Envelope(LinkTokenErrorPrefix, Members({"link_token", "expiration"}), response, pretty);
  }

  /** exchangePublicToken: the token is passed through; success shows access_token and item_id. */
  function ExchangePublicToken(
    params: ExchangePublicTokenParams,
    itemPublicTokenExchange: PublicTokenExchangeRequest -> PlaidOutcome,
    pretty: Json -> string): (r: (PublicTokenExchangeRequest, ToolResult))
    ensures r.0.publicToken == params.publicToken
    ensures r.1 == Envelope(ExchangeErrorPrefix, Members({"access_token", "item_id"}), itemPublicTokenExchange(r.0), pretty)
  {
    var request := PublicTokenExchangeRequest(params.publicToken);
    (request, Envelope(ExchangeErrorPrefix, Members({"access_token", "item_id"}), itemPublicTokenExchange(request), pretty))
  }

  /** getAccounts: the token is passed through; success shows the whole response data. */
  function GetAccounts(
    params: GetAccountsParams,
    accountsGet: AccountsGetRequest -> PlaidOutcome,
    pretty: Json -> string): (r: (AccountsGetRequest, ToolResult))
    ensures r.0.accessToken == params.accessToken
    ensures r.1 == Envelope(AccountsErrorPrefix, WholeData, accountsGet(r.0), pretty)
  {
    var request := AccountsGetRequest(params.accessToken);
    (request, Envelope(AccountsErrorPrefix, WholeData, accountsGet(request), pretty))
  }

  const TransactionsCount: nat := 100
  const TransactionsOffset: nat := 0

  /** getTransactions: the first page of 100 transactions in the window; success shows the whole response data. */
  function GetTransactions(
    params: GetTransactionsParams,
    transactionsGet: TransactionsGetRequest -> PlaidOutcome,
    pretty: Json -> string): (r: (TransactionsGetRequest, ToolResult))
    ensures r.0.accessToken == params.accessToken
    ensures r.0.startDate == params.startDate && r.0.endDate == params.endDate
    ensures r.0.count == 100 && r.0.offset == 0
    ensures r.1 == Envelope(TransactionsErrorPrefix, WholeData, transactionsGet(r.0), pretty)
  {
    var request := TransactionsGetRequest(
      params.accessToken, params.startDate, params.endDate, TransactionsCount, TransactionsOffset);
    (request, Envelope(TransactionsErrorPrefix, WholeData, transactionsGet(request), pretty))
  }
}
