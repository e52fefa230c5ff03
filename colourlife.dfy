/** The Colourlife OAuth2 provider: the authorization-code grant of OAuth 2.0
    (section 4.1 of RFC 6749) against Colourlife's endpoints, with Colourlife's
    own parameter names (`application_id`, `secret`) and a token request sent
    as a GET. The HTTP client, `json_decode` and the query-string encoder are
    parameters of the operations that use them. */
module Colourlife {
  import opened Wrappers
  import opened Strings
  import opened PhpArray
  import opened Json

  const DefaultScopes: seq<string> := ["snsapi_base"]
  const DefaultScopeSeparator := ","

  const DevBaseUrl := "https://oauth2-czytest.colourlife.com"
  const ProdBaseUrl := "https://oauth2czy.colourlife.com"
  const AuthorizePath := "/oauth2/authorize"
  const TokenPath := "/oauth/access_token"
  const UserInfoPath := "/oauth/user/info?access_token="

  const EnvironmentMessage := "The environment must be dev or prod."
  const FailurePrefix := "Authorize Failed: "

  /** The keys of the authorization request, before the extra parameters. */
  const CodeFieldKeys: seq<string> := ["application_id", "redirect_uri", "scope", "response_type"]
  /** The keys of the token request, in the order they are sent. */
  const TokenFieldKeys: seq<string> := ["application_id", "secret", "code", "grant_type"]
  /** The attributes of the user record, in the order they are built. */
  const UserKeys: seq<string> := ["id", "username", "nickname", "name", "avatar", "mobile"]

  /** The two exceptions the provider throws. */
  datatype ProviderError =
    | InvalidArgument(message: string)
    | AuthorizeFailed(message: string, body: Json)

  /** An access token: the attributes of the token response's `content`. */
  datatype AccessToken = AccessToken(attributes: seq<(string, Json)>)

  /** What the token library guarantees of every token it builds: its
      `access_token` attribute is not empty. */
  predicate IsValidToken(t: AccessToken) {
    !IsEmpty(Lookup(t.attributes, "access_token"))
  }

  /** `getToken()`, in the text form `sprintf` puts into a URL. */
  function TokenText(t: AccessToken): string {
    ToText(Lookup(t.attributes, "access_token").GetOr(Null))
  }

  /** An HTTP GET the provider issues: URL, headers, query fields. */
  datatype Request = HttpGet(url: string, headers: Fields, query: Fields)

  /** A token-response body: the raw text, or an array already decoded. */
  datatype Body = Text(text: string) | Decoded(value: PhpArrayValue)

  // ---------------------------------------------------------------------
  // Environments and endpoints

  /** The `baseUrls` table: only `dev` and `prod` have a base URL. */
  function BaseUrlFor(env: string): (r: Option<string>)
    ensures r.Some? <==> env == "dev" || env == "prod"
    ensures r.Some? ==> r.value == (if env == "dev" then DevBaseUrl else ProdBaseUrl)
  {
    if env == "dev" then Some(DevBaseUrl)
    else if env == "prod" then Some(ProdBaseUrl)
    else None
  }

  /** The user-info endpoint: the token goes into the query as it is, with no
      encoding. */
  function UserInfoUrl(base: string, token: string): (url: string)
    ensures |url| == |base| + |UserInfoPath| + |token|
    ensures url[..|base|] == base
    ensures url[|base|..|base| + |UserInfoPath|] == UserInfoPath
    ensures url[|base| + |UserInfoPath|..] == token
  {
    base + UserInfoPath + token
  }

  // ---------------------------------------------------------------------
  // Request fields

  /** The query string `http_build_query` writes: `key=value` pairs joined by
      `&`, both sides passed through the encoder. */
  function Query(fields: Fields, encode: string -> string): string {
    Join(seq(|fields|, i requires 0 <= i < |fields| => encode(fields[i].0) + "=" + encode(fields[i].1)), "&")
  }

  /** The parent class's `buildAuthUrlFromBase`: endpoint, `?`, query. */
  function BuildAuthUrlFromBase(url: string, fields: Fields, encode: string -> string): string {
    url + "?" + Query(fields, encode)
  }

  /** The four fixed fields of the authorization request. */
  function BaseCodeFields(clientId: string, redirectUrl: string, scopes: seq<string>, separator: string): Fields {
    [("application_id", clientId),
     ("redirect_uri", redirectUrl),
     ("scope", Join(scopes, separator)),
     ("response_type", "code")]
  }

  /** The fields of the authorization request: the fixed fields merged with the
      extra parameters, then `state` when state is in use. */
  function CodeFields(clientId: string, redirectUrl: string, scopes: seq<string>, separator: string,
                      parameters: Fields, usesState: bool, state: string): Fields
  {
    var merged := Merge(BaseCodeFields(clientId, redirectUrl, scopes, separator), parameters);
    if usesState then Put(merged, "state", state) else merged
  }

  /** The authorization request's keys: the four fixed keys first, then the
      new keys of the extra parameters in their order, then `state` last, and
      only when state is in use and no extra parameter already placed it. */
  lemma CodeFieldsOrder(clientId: string, redirectUrl: string, scopes: seq<string>, separator: string,
                        parameters: Fields, usesState: bool, state: string)
    ensures Keys(CodeFields(clientId, redirectUrl, scopes, separator, parameters, usesState, state))
         == CodeFieldKeys + Fresh(CodeFieldKeys, Keys(parameters))
            + (if usesState && "state" !in Keys(parameters) then ["state"] else [])
  {
    var base := BaseCodeFields(clientId, redirectUrl, scopes, separator);
    assert Keys(base) == CodeFieldKeys;
    var merged := Merge(base, parameters);
    MergeKeys(base, parameters);
    FreshMembers(CodeFieldKeys, Keys(parameters));
    if usesState {
      PutKeys(merged, "state", state);
      assert "state" in Keys(merged) <==> "state" in Keys(parameters);
    }
  }

  /** The authorization request's values: `state` when state is in use, else
      an extra parameter overrides a fixed field of the same key. */
  lemma CodeFieldsValues(clientId: string, redirectUrl: string, scopes: seq<string>, separator: string,
                         parameters: Fields, usesState: bool, state: string, k: string)
    requires Distinct(Keys(parameters))
    ensures Lookup(CodeFields(clientId, redirectUrl, scopes, separator, parameters, usesState, state), k)
         == if usesState && k == "state" then Some(state)
            else if k in Keys(parameters) then Lookup(parameters, k)
            else Lookup(BaseCodeFields(clientId, redirectUrl, scopes, separator), k)
  {
    var base := BaseCodeFields(clientId, redirectUrl, scopes, separator);
    MergeLookup(base, parameters, k);
    if usesState {
      PutLookup(Merge(base, parameters), "state", state, k);
    }
  }

  /** No key of the authorization request occurs twice. */
  lemma CodeFieldsDistinct(clientId: string, redirectUrl: string, scopes: seq<string>, separator: string,
                           parameters: Fields, usesState: bool, state: string)
    ensures Distinct(Keys(CodeFields(clientId, redirectUrl, scopes, separator, parameters, usesState, state)))
  {
    CodeFieldsOrder(clientId, redirectUrl, scopes, separator, parameters, usesState, state);
    FreshMembers(CodeFieldKeys, Keys(parameters));
    var ks := CodeFieldKeys + Fresh(CodeFieldKeys, Keys(parameters));
    if usesState && "state" !in Keys(parameters) {
      assert "state" !in ks;
      assert Distinct(ks + ["state"]);
    }
  }

  /** The fields of the token request. */
  function TokenFields(clientId: string, clientSecret: string, code: string): Fields {
    [("application_id", clientId),
     ("secret", clientSecret),
     ("code", code),
     ("grant_type", "authorization_code")]
  }

  /** The token request carries exactly Colourlife's four fields, in order,
      and none of the standard `client_id` / `client_secret` names. */
  lemma TokenFieldsContents(clientId: string, clientSecret: string, code: string)
    ensures Keys(TokenFields(clientId, clientSecret, code)) == TokenFieldKeys
    ensures Distinct(TokenFieldKeys)
    ensures Lookup(TokenFields(clientId, clientSecret, code), "application_id") == Some(clientId)
    ensures Lookup(TokenFields(clientId, clientSecret, code), "secret") == Some(clientSecret)
    ensures Lookup(TokenFields(clientId, clientSecret, code), "code") == Some(code)
    ensures Lookup(TokenFields(clientId, clientSecret, code), "grant_type") == Some("authorization_code")
    ensures "client_id" !in TokenFieldKeys && "client_secret" !in TokenFieldKeys
  {
    var f := TokenFields(clientId, clientSecret, code);
    assert Keys(f) == TokenFieldKeys;
    LookupEntry(f, 2);
    LookupEntry(f, 3);
  }

  /** The token request: a GET on the token URL that asks for JSON. */
  function TokenRequest(base: string, clientId: string, clientSecret: string, code: string): Request {
    HttpGet(base + TokenPath, [("Accept", "application/json")], TokenFields(clientId, clientSecret, code))
  }

  // ---------------------------------------------------------------------
  // Responses

  /** The body as an array: a raw text is decoded, an array is used as is. */
  function DecodeBody(body: Body, decode: string -> Json): Json {
    match body
    case Text(t) => decode(t)
    case Decoded(v) => v
  }

  /** `$body['content']['access_token']`, where it exists. */
  function AccessTokenField(body: Json): Option<Json> {
    match Get(body, "content")
    case Some(content) => Get(content, "access_token")
    case None => None
  }

  /** `parseAccessToken`: a token made of the body's `content` exactly when
      `content.access_token` is not empty; otherwise AuthorizeFailed with the
      encoded body in the message and the body itself attached. */
  function ParseAccessToken(body: Body, decode: string -> Json): (r: Result<AccessToken, ProviderError>)
    ensures var b := DecodeBody(body, decode);
            (r.Success? <==> !IsEmpty(AccessTokenField(b)))
            && (r.Success? ==> IsValidToken(r.value) && Get(b, "content") == Some(Obj(r.value.attributes)))
            && (r.Failure? ==> r.error == AuthorizeFailed(FailurePrefix + Encode(b), b))
  {
    var b := DecodeBody(body, decode);
    if IsEmpty(AccessTokenField(b)) then
      Failure(AuthorizeFailed(FailurePrefix + Encode(b), b))
    else
      Success(AccessToken(Get(b, "content").value.fields))
  }

  /** `0 != $code` is false: PHP's loose comparison of a code with 0. */
  predicate LooselyZero(code: Json) {
    match code
    case Null => true
    case Bool(b) => !b
    case Int(i) => i == 0
    case Str(s) => s == "0"
    case Arr(_) => false
    case Obj(_) => false
  }

  /** `isset($user['code']) && 0 == $user['code']`. */
  predicate PassesCodeCheck(user: Json) {
    var code := Get(user, "code");
    code.Some? && code.value != Null && LooselyZero(code.value)
  }

  /** The decision of `getUserByToken`: a missing, null or non-zero `code` is
      a soft failure that yields an empty array; otherwise `content` is passed
      on unchanged. */
  function UserFromResponse(user: Json): (r: Json)
    ensures PassesCodeCheck(user) ==> r == Item(user, "content")
    ensures !PassesCodeCheck(user) ==> r == Arr([]) && IsEmpty(Some(r))
  {
    if !PassesCodeCheck(user) then Arr([]) else Item(user, "content")
  }

  /** A non-empty profile comes only from a response whose code is zero and
      whose content is not empty, and every such response gives one. */
  lemma UserFromResponseNonEmpty(user: Json)
    ensures !IsEmpty(Some(UserFromResponse(user))) <==> PassesCodeCheck(user) && !IsEmpty(Get(user, "content"))
  {
  }

  /** `mapUserToObject`: exactly six attributes, all read with the parent's
      lookup-or-null; username, nickname and name all come from `nickname`. */
  function MapUserToObject(user: PhpArrayValue): (u: seq<(string, Json)>)
    ensures Keys(u) == UserKeys
    ensures Lookup(u, "id") == Some(Item(user, "openid"))
    ensures Lookup(u, "username") == Some(Item(user, "nickname"))
    ensures Lookup(u, "nickname") == Some(Item(user, "nickname"))
    ensures Lookup(u, "name") == Some(Item(user, "nickname"))
    ensures Lookup(u, "avatar") == Some(Item(user, "head_img_url"))
    ensures Lookup(u, "mobile") == Some(Item(user, "mobile"))
  {
    var u := [("id", Item(user, "openid")),
              ("username", Item(user, "nickname")),
              ("nickname", Item(user, "nickname")),
              ("name", Item(user, "nickname")),
              ("avatar", Item(user, "head_img_url")),
              ("mobile", Item(user, "mobile"))];
    assert Keys(u) == UserKeys;
    LookupEntry(u, 2);
    LookupEntry(u, 3);
    LookupEntry(u, 4);
    LookupEntry(u, 5);
    u
  }

  /** The user record depends on four raw keys only: no other raw key is
      copied into it. */
  lemma MapUserToObjectReadsFourKeys(u1: PhpArrayValue, u2: PhpArrayValue)
    requires Item(u1, "openid") == Item(u2, "openid")
    requires Item(u1, "nickname") == Item(u2, "nickname")
    requires Item(u1, "head_img_url") == Item(u2, "head_img_url")
    requires Item(u1, "mobile") == Item(u2, "mobile")
    ensures MapUserToObject(u1) == MapUserToObject(u2)
  {
  }

  /** The profile half of the login round trip: a user-info response with
      code 0 and an array as content yields a user whose id is the content's
      `openid`. */
  lemma ProfileKeepsOpenId(response: Json)
    requires PassesCodeCheck(response)
    requires Item(response, "content").Obj?
    ensures Lookup(MapUserToObject(UserFromResponse(response)), "id") == Some(Item(Item(response, "content"), "openid"))
  {
  }

  /** A raw body and the array it decodes to give the same outcome. */
  lemma ParseAccessTokenBodyForms(text: string, value: PhpArrayValue, decode: string -> Json)
    requires decode(text) == value
    ensures ParseAccessToken(Text(text), decode) == ParseAccessToken(Decoded(value), decode)
  {
  }

  // ---------------------------------------------------------------------
  // The scenarios of the repository's tests

  /** The default authorization fields, and the scope field for two scopes. */
  lemma CodeFieldsExample()
    ensures CodeFields("mock-client-id", "mock-redirect-uri", DefaultScopes, DefaultScopeSeparator, [], true, "mock-state")
         == [("application_id", "mock-client-id"), ("redirect_uri", "mock-redirect-uri"),
             ("scope", "snsapi_base"), ("response_type", "code"), ("state", "mock-state")]
    ensures CodeFields("mock-client-id", "mock-redirect-uri", ["mock-scope-1", "mock-scope-2"], DefaultScopeSeparator,
                       [], true, "mock-state")
         == [("application_id", "mock-client-id"), ("redirect_uri", "mock-redirect-uri"),
             ("scope", "mock-scope-1,mock-scope-2"), ("response_type", "code"), ("state", "mock-state")]
  {
    assert Join(["mock-scope-1", "mock-scope-2"], ",") == "mock-scope-1" + "," + "mock-scope-2";
    assert "mock-scope-1" + "," + "mock-scope-2" == "mock-scope-1,mock-scope-2";
  }

  /** A token response with a non-empty `content.access_token` gives that
      token, whether the body is text or already an array. */
  lemma ParseAccessTokenExample(text: string, decode: string -> Json)
    requires decode(text) == Obj([("content", Obj([("access_token", Str("mock-access-token"))]))])
    ensures ParseAccessToken(Text(text), decode).Success?
    ensures TokenText(ParseAccessToken(Text(text), decode).value) == "mock-access-token"
    ensures ParseAccessToken(Decoded(decode(text)), decode) == ParseAccessToken(Text(text), decode)
  {
    var content := [("access_token", Str("mock-access-token"))];
    var b := Obj([("content", Obj(content))]);
    assert Get(b, "content") == Some(Obj(content));
    assert AccessTokenField(b) == Some(Str("mock-access-token"));
    assert "mock-access-token" != "" && "mock-access-token" != "0";
    assert ParseAccessToken(Text(text), decode) == Success(AccessToken(content));
  }

  /** `{"content":"error"}` fails, with the body encoded in the message. */
  lemma ParseAccessTokenErrorExample(decode: string -> Json)
    ensures ParseAccessToken(Decoded(Obj([("content", Str("error"))])), decode)
         == Failure(AuthorizeFailed(FailurePrefix + "{\"content\":\"error\"}", Obj([("content", Str("error"))])))
  {
    var b := Obj([("content", Str("error"))]);
    assert AccessTokenField(b) == None;
    assert ParseAccessToken(Decoded(b), decode) == Failure(AuthorizeFailed(FailurePrefix + Encode(b), b));
    EncodeContentError();
  }

  /** A user-info response with code -1 gives an empty result; with code 0 its
      content as it is. */
  lemma UserFromResponseExample()
    ensures UserFromResponse(Obj([("code", Int(-1)), ("content", Str("mock-content"))])) == Arr([])
    ensures UserFromResponse(Obj([("code", Int(0)), ("content", Str("mock-content"))])) == Str("mock-content")
  {
  }

  // ---------------------------------------------------------------------
  // The provider object

  class Provider {
    var clientId: string
    var clientSecret: string
    var redirectUrl: string
    var scopes: seq<string>
    var scopeSeparator: string
    var parameters: Fields
    var stateless: bool
    var environment: string
    var accessToken: Option<AccessToken>

    /** The environment is one of the table's keys, the extra parameters form
        a PHP array, and a cached token is one the token library built. */
    ghost predicate Valid()
      reads this
    {
      BaseUrlFor(environment).Some?
      && Distinct(Keys(parameters))
      && (accessToken.Some? ==> IsValidToken(accessToken.value))
    }

    /** A new provider: default scope `snsapi_base`, separator `,`, no extra
        parameters, state in use, environment `prod`, no cached token. */
    constructor (clientId: string, clientSecret: string, redirectUrl: string)
      ensures Valid()
      ensures this.clientId == clientId && this.clientSecret == clientSecret && this.redirectUrl == redirectUrl
      ensures scopes == DefaultScopes && scopeSeparator == DefaultScopeSeparator
      ensures parameters == [] && !stateless
      ensures environment == "prod" && accessToken == None
    {
      this.clientId := clientId;
      this.clientSecret := clientSecret;
      this.redirectUrl := redirectUrl;
      scopes := DefaultScopes;
      scopeSeparator := DefaultScopeSeparator;
      parameters := [];
      stateless := false;
      environment := "prod";
      accessToken := None;
    }

    /** `environment($env)`: accepts `dev` and `prod` only, then returns the
        provider itself; any other value throws and leaves the environment as
        it was. */
    method Environment(env: string) returns (r: Result<Provider, ProviderError>)
      requires Valid()
      modifies this`environment
      ensures Valid()
      ensures r.Success? <==> env == "dev" || env == "prod"
      ensures r.Success? ==> r.value == this && environment == env
      ensures r.Failure? ==> r.error == InvalidArgument(EnvironmentMessage) && environment == old(environment)
    {
      if BaseUrlFor(env).None? {
        return Failure(InvalidArgument(EnvironmentMessage));
      }
      environment := env;
      return Success(this);
    }

    /** `getBaseUrl`. */
    function GetBaseUrl(): (url: string)
      reads this
      requires Valid()
      ensures environment == "dev" ==> url == DevBaseUrl
      ensures environment == "prod" ==> url == ProdBaseUrl
    {
      BaseUrlFor(environment).value
    }

    /** `getTokenUrl`: the token endpoint of the current environment. */
    function GetTokenUrl(): (url: string)
      reads this
      requires Valid()
      ensures environment == "dev" ==> url == DevBaseUrl + TokenPath
      ensures environment == "prod" ==> url == ProdBaseUrl + TokenPath
    {
      BaseUrlFor(environment).value + TokenPath
    }

    /** The parent's `usesState`. */
    predicate UsesState()
      reads this
    {
      !stateless
    }

    /** `getCodeFields($state)`: builds the merged fields, then sets `state`
        when state is in use. */
    method GetCodeFields(state: string) returns (fields: Fields)
      requires Valid()
      ensures fields == CodeFields(clientId, redirectUrl, scopes, scopeSeparator, parameters, UsesState(), state)
      ensures Distinct(Keys(fields))
    {
      fields := Merge(BaseCodeFields(clientId, redirectUrl, scopes, scopeSeparator), parameters);
      if UsesState() {
        fields := Put(fields, "state", state);
      }
      CodeFieldsDistinct(clientId, redirectUrl, scopes, scopeSeparator, parameters, UsesState(), state);
    }

    /** `getAuthUrl($state)`: the authorize endpoint of the current
        environment with the authorization fields as its query. */
    method GetAuthUrl(state: string, encode: string -> string) returns (url: string)
      requires Valid()
      ensures url == BuildAuthUrlFromBase(GetBaseUrl() + AuthorizePath,
                       CodeFields(clientId, redirectUrl, scopes, scopeSeparator, parameters, UsesState(), state),
                       encode)
    {
      var fields := GetCodeFields(state);
      url := BuildAuthUrlFromBase(GetBaseUrl() + AuthorizePath, fields, encode);
    }

    /** `getTokenFields($code)`: the client id, the secret, the code and the
        grant type, under Colourlife's names. */
    function GetTokenFields(code: string): (f: Fields)
      reads this
      ensures Keys(f) == TokenFieldKeys
      ensures f[0].1 == clientId && f[1].1 == clientSecret
      ensures f[2].1 == code && f[3].1 == "authorization_code"
    {
      TokenFields(clientId, clientSecret, code)
    }

    /** `getAccessToken($code)`: a cached token is returned and no request is
        sent; otherwise one GET goes to the token URL and its body is parsed.
        `client` stands for the HTTP client, `decode` for `json_decode`. */
    method GetAccessToken(code: string, client: Request -> string, decode: string -> Json)
      returns (r: Result<AccessToken, ProviderError>, sent: Option<Request>)
      requires Valid()
      ensures accessToken.Some? ==> sent == None && r == Success(accessToken.value)
      ensures accessToken.None? ==>
                sent == Some(TokenRequest(GetBaseUrl(), clientId, clientSecret, code))
                && r == ParseAccessToken(Text(client(sent.value)), decode)
      ensures r.Success? ==> IsValidToken(r.value)
    {
      if accessToken.Some? {
        return Success(accessToken.value), None;
      }
      var request := HttpGet(GetTokenUrl(), [("Accept", "application/json")], GetTokenFields(code));
      sent := Some(request);
      r := ParseAccessToken(Text(client(request)), decode);
    }

    /** `getUserByToken($token)`: one GET on the user-info URL of the current
        environment, then the code check on the decoded body. */
    function GetUserByToken(token: AccessToken, client: Request -> string, decode: string -> Json): (user: Json)
      reads this
      requires Valid()
      ensures var response := decode(client(HttpGet(UserInfoUrl(GetBaseUrl(), TokenText(token)), [], [])));
              (PassesCodeCheck(response) ==> user == Item(response, "content"))
              && (!PassesCodeCheck(response) ==> user == Arr([]))
    {
      UserFromResponse(decode(client(HttpGet(UserInfoUrl(GetBaseUrl(), TokenText(token)), [], []))))
    }

    // The parent class's fluent setters, which the operations above read.

    method Scopes(scopes: seq<string>) returns (p: Provider)
      requires Valid()
      modifies this`scopes
      ensures Valid() && p == this && this.scopes == scopes
    {
      this.scopes := scopes;
      return this;
    }

    method With(parameters: Fields) returns (p: Provider)
      requires Valid()
      requires Distinct(Keys(parameters))
      modifies this`parameters
      ensures Valid() && p == this && this.parameters == parameters
    {
      this.parameters := parameters;
      return this;
    }

    method Stateless() returns (p: Provider)
      requires Valid()
      modifies this`stateless
      ensures Valid() && p == this && !UsesState()
    {
      stateless := true;
      return this;
    }

    method SetAccessToken(token: AccessToken) returns (p: Provider)
      requires Valid()
      requires IsValidToken(token)
      modifies this`accessToken
      ensures Valid() && p == this && accessToken == Some(token)
    {
      accessToken := Some(token);
      return this;
    }
  }

  /** The environment scenario of the repository's tests, from the class's
      contracts alone: switching to `dev` and back to `prod` changes the base
      URL, and an unknown environment is refused and changes nothing. */
  method EnvironmentScenario() returns (dev: string, prod: string, refused: Result<Provider, ProviderError>, after: string)
    ensures dev == DevBaseUrl && prod == ProdBaseUrl
    ensures refused == Failure(InvalidArgument(EnvironmentMessage))
    ensures after == ProdBaseUrl
  {
    var p := new Provider("mock-client-id", "mock-client-secret", "mock-redirect-uri");
    var r := p.Environment("dev");
    assert r == Success(p);
    dev := p.GetBaseUrl();
    r := p.Environment("prod");
    prod := p.GetBaseUrl();
    refused := p.Environment("error-environment");
    after := p.GetBaseUrl();
  }

  /** The token-URL scenario of the repository's tests: a new provider's token
      endpoint is the prod one, and after switching to `dev` it is the dev one. */
  method TokenUrlScenario() returns (prod: string, dev: string)
    ensures prod == ProdBaseUrl + TokenPath
    ensures dev == DevBaseUrl + TokenPath
  {
    var p := new Provider("mock-client-id", "mock-client-secret", "mock-redirect-uri");
    prod := p.GetTokenUrl();
    var r := p.Environment("dev");
    dev := p.GetTokenUrl();
  }
}
