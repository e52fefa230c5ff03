# Colourlife OAuth2 provider, modelled in Dafny

This project models `ColourlifeOAuth2Provider`, the Socialite provider for
Colourlife's OAuth 2.0 service. The provider implements the authorization-code
grant of RFC 6749, section 4.1. It differs from the standard in three ways:

- the client is named by `application_id`, not `client_id`;
- the client secret is sent as `secret`, not `client_secret`;
- the token request is an HTTP GET with a query string.

The model covers:

- the environment selector (`dev` or `prod`) and the base URL of each;
- the authorize, token and user-info endpoints;
- the ordered fields of the authorization request and of the token request;
- the token-response check that yields an access token or `AuthorizeFailed`;
- the soft-failure check on the user-info response;
- the mapping of a raw profile to the six user attributes.

Files:

- `wrappers.dfy`: `Option` and `Result`.
- `strings.dfy`: `implode` and the decimal text of an integer.
- `php_array.dfy`: PHP arrays with string keys, as ordered entry lists.
  - `Put` is `$a[$k] = $v`: an existing key keeps its position, a new key goes last.
  - `Merge` is `array_merge`.
  - The lemmas state the order and values these produce.
- `json.dfy`: bodies after `json_decode($text, true)`, PHP's `empty()`, PHP's
  string conversion, and `json_encode` with `JSON_UNESCAPED_UNICODE`.
- `colourlife.dfy`: the provider.
  - Pure functions for the URLs, the request fields, the token parsing, the
    user-info decision and the profile mapping, with lemmas about each.
  - The class `Provider`. Its fields are the state the PHP object keeps:
    client id, secret, redirect URL, scopes, separator, extra parameters, the
    stateless flag, `environment` and the cached `accessToken`.

Some collaborators are parameters of the operations that use them:

- the HTTP client is a function from a `Request` to a response text;
- `json_decode` is a function from text to `Json`;
- the query-string encoder of `http_build_query` is a function on strings.

The class also has the parent class's fluent setters `Scopes`, `With`,
`Stateless` and `SetAccessToken`, because the operations read the fields they
set. The source of the parent class `Overtrue\Socialite\Providers\AbstractProvider`
is not in the repository, so these setters have no rows below.

Two behaviours of the code that are easy to miss:

- The profile mapping keeps only the six attributes. No other raw key is carried
  over.
- `state` goes last only when no extra parameter already holds a `state` key.
  If one does, the assignment overwrites that entry in place. This is what
  `array_merge` followed by `$fields['state'] = $state` does.

## Model

| member | source | states |
|---|---|---|
| `PhpArray.PutKeys` | src/ColourlifeOAuth2Provider.php:154-156 | Assigning a key keeps every existing key in place. Only a key not yet present is appended at the end. |
| `PhpArray.PutLookup` | src/ColourlifeOAuth2Provider.php:154-156 | After `$fields[k] = v`, `k` holds `v` and every other key keeps its value. |
| `PhpArray.MergeKeys` | src/ColourlifeOAuth2Provider.php:147-152 | `array_merge(a, b)` keeps the keys of `a` in their positions, then appends the keys of `b` not seen before, in their order. |
| `PhpArray.MergeLookup` | src/ColourlifeOAuth2Provider.php:147-152 | In `array_merge(a, b)`, a key of `b` takes `b`'s value and every other key keeps `a`'s value. |
| `PhpArray.FreshMembers` | src/ColourlifeOAuth2Provider.php:147-152 | The appended keys are exactly those of `b` that `a` lacks, and none repeats. So the merged keys stay distinct. |
| `PhpArray.LookupEntry` | src/ColourlifeOAuth2Provider.php:132-139 | In an array with distinct keys, looking up an entry's key gives that entry's value. |
| `Json.EncodePlainString` | src/ColourlifeOAuth2Provider.php:184 | `json_encode` writes a string of letters, digits, `-`, `_`, `.` and spaces between quotes, unescaped. |
| `Json.EncodeContentError` | tests/ColourlifeOAuth2ProviderTest.php:221-224 | The body `['content' => 'error']` encodes to `{"content":"error"}`. |
| `Colourlife.BaseUrlFor` | src/ColourlifeOAuth2Provider.php:41-44 | Only `dev` and `prod` have a base URL. `dev` is `https://oauth2-czytest.colourlife.com` and `prod` is `https://oauth2czy.colourlife.com`. |
| `Colourlife.UserInfoUrl` | src/ColourlifeOAuth2Provider.php:114 | The user-info URL is the base URL, then `/oauth/user/info?access_token=`, then the token verbatim, with no encoding. |
| `Colourlife.CodeFieldsOrder` | src/ColourlifeOAuth2Provider.php:145-159 | The authorization keys are `application_id`, `redirect_uri`, `scope`, `response_type`, then the new extra keys in order. `state` comes last only when state is in use and no extra parameter holds it. |
| `Colourlife.CodeFieldsValues` | src/ColourlifeOAuth2Provider.php:145-159 | `state` holds the given state when state is in use. Otherwise an extra parameter overrides the fixed field of the same key, and the other fixed fields keep their values. |
| `Colourlife.CodeFieldsDistinct` | src/ColourlifeOAuth2Provider.php:145-159 | No key of the authorization fields occurs twice. |
| `Colourlife.TokenFieldsContents` | src/ColourlifeOAuth2Provider.php:164-172 | The token fields are exactly `application_id`, `secret`, `code`, `grant_type=authorization_code`, in that order. Neither `client_id` nor `client_secret` appears. |
| `Colourlife.ParseAccessToken` | src/ColourlifeOAuth2Provider.php:177-188 | The result is a token exactly when `content.access_token` is non-empty in PHP's sense. The token's attributes are `content`, and its `access_token` is non-empty. Otherwise the result is `AuthorizeFailed` with message `Authorize Failed: ` plus the encoded body, carrying the body. |
| `Colourlife.ParseAccessTokenBodyForms` | src/ColourlifeOAuth2Provider.php:179-181 | A raw body and the array it decodes to give the same outcome. |
| `Colourlife.UserFromResponse` | src/ColourlifeOAuth2Provider.php:118-124 | A missing, null or non-zero `code` yields an empty array. A zero code yields `content` unchanged. |
| `Colourlife.UserFromResponseNonEmpty` | src/ColourlifeOAuth2Provider.php:120-124 | The profile is non-empty exactly when the code check passes and `content` is non-empty. |
| `Colourlife.MapUserToObject` | src/ColourlifeOAuth2Provider.php:130-140 | The user has exactly the keys `id`, `username`, `nickname`, `name`, `avatar`, `mobile`. Their values are `openid`, `nickname` three times, `head_img_url` and `mobile`, each null when missing. |
| `Colourlife.MapUserToObjectReadsFourKeys` | src/ColourlifeOAuth2Provider.php:132-139 | Two raw profiles that agree on `openid`, `nickname`, `head_img_url` and `mobile` give the same user. No other raw key is copied. |
| `Colourlife.ProfileKeepsOpenId` | tests/ColourlifeOAuth2ProviderTest.php:275-312 | A user-info response with code 0 and array content gives a user whose `id` is the content's `openid`. |
| `Colourlife.CodeFieldsExample` | tests/ColourlifeOAuth2ProviderTest.php:176-192 | The default fields with state `mock-state` are exactly the test's five pairs. With two scopes, `scope` is `mock-scope-1,mock-scope-2`. |
| `Colourlife.ParseAccessTokenExample` | tests/ColourlifeOAuth2ProviderTest.php:206-219 | `{"content": {"access_token": "mock-access-token"}}`, as text or as an array, gives the token `mock-access-token`. |
| `Colourlife.ParseAccessTokenErrorExample` | tests/ColourlifeOAuth2ProviderTest.php:221-224 | `['content' => 'error']` fails with the message `Authorize Failed: {"content":"error"}`. |
| `Colourlife.UserFromResponseExample` | tests/ColourlifeOAuth2ProviderTest.php:137-147 | Code -1 gives an empty result. Code 0 gives `mock-content`. |
| `Colourlife.Provider.constructor` | src/ColourlifeOAuth2Provider.php:20-34 | A new provider has scopes `["snsapi_base"]`, separator `,`, no extra parameters, state in use, environment `prod` and no cached token. |
| `Colourlife.Provider.Environment` | src/ColourlifeOAuth2Provider.php:55-64 | Succeeds exactly for `dev` and `prod`, then sets the environment and returns the provider itself. Any other value fails with `InvalidArgument("The environment must be dev or prod.")` and leaves the environment unchanged. |
| `Colourlife.EnvironmentScenario` | tests/ColourlifeOAuth2ProviderTest.php:32-48 | On a new provider, `dev` gives the dev URL and `prod` the prod URL. `error-environment` fails with the environment message and the base URL stays the prod URL. |
| `Colourlife.Provider.GetBaseUrl` | src/ColourlifeOAuth2Provider.php:71-74 | Returns the dev URL in `dev` and the prod URL in `prod`. |
| `Colourlife.Provider.GetTokenUrl` | src/ColourlifeOAuth2Provider.php:87-90 | Returns `https://oauth2-czytest.colourlife.com/oauth/access_token` in `dev` and `https://oauth2czy.colourlife.com/oauth/access_token` in `prod`. |
| `Colourlife.TokenUrlScenario` | tests/ColourlifeOAuth2ProviderTest.php:60-68 | A new provider's token URL is the prod base URL plus `/oauth/access_token`. After `environment('dev')` it is the dev base URL plus the same path. |
| `Colourlife.Provider.GetCodeFields` | src/ColourlifeOAuth2Provider.php:145-159 | Returns the authorization fields for the provider's configuration and state flag, with distinct keys. |
| `Colourlife.Provider.GetAuthUrl` | src/ColourlifeOAuth2Provider.php:79-82 | Returns the current base URL, then `/oauth2/authorize?`, then the query of the authorization fields. |
| `Colourlife.Provider.GetTokenFields` | src/ColourlifeOAuth2Provider.php:164-172 | Returns the keys `application_id`, `secret`, `code`, `grant_type`, in that order, holding the provider's client id, its secret, the code and `authorization_code`. |
| `Colourlife.Provider.GetAccessToken` | src/ColourlifeOAuth2Provider.php:95-107 | A cached token is returned with no request sent. Otherwise exactly one GET is sent to the token URL with `Accept: application/json` and the token fields as query, and the result is the parse of its body. Any token returned has a non-empty `access_token`. |
| `Colourlife.Provider.GetUserByToken` | src/ColourlifeOAuth2Provider.php:112-125 | The provider fetches the user-info URL of the current environment for the token. It returns `content` when the code check passes and an empty array otherwise. |

## Left out

- HTTP traffic: the Guzzle `get` calls are a parameter `Request -> string`. Status codes, timeouts and transport errors are not modelled.
- `json_decode` is a parameter `string -> Json`. Invalid JSON is whatever that function returns for it; PHP returns null, which fails the token check.
- JSON numbers are integers only. Floats, and PHP's float comparisons and empty checks, are not modelled.
- Percent-encoding of query values by `http_build_query` (RFC 3986, section 2.1) is an encoder parameter.
- The full text of the authorization URL in the tests is not restated. The encoder could be taken to leave the mock values unchanged. But proving the equality of the resulting URL of about 150 characters costs more than the verifier's resource limit allows. `CodeFieldsExample` states the fields that URL is built from.
- Colourlife.LooselyZero: of PHP's loose comparison `0 != $code` for strings, only `"0"` is taken as zero. PHP 8 also equates `" 0"`, `"0.0"`, `"0e1"` and other numeric strings with 0.
- Json.Get: objects are assumed to have distinct keys. Lookup takes the first entry. `json_decode` keeps the last value of a repeated key.
- Numeric string keys are not modelled. PHP turns them into integer keys, which changes both `array_merge` and `json_encode`. Here all keys are treated as non-numeric strings.
- `json_encode` failing on invalid UTF-8 cannot happen here: Dafny strings are Unicode scalar values.
- The orchestration `user()` of the parent class is not part of this model. This covers the session CSRF comparison, the redirect response and the provider tag `colourlife`. `ProfileKeepsOpenId` covers the profile half of that round trip.
- Colourlife.Provider.GetAccessToken: "any token returned has a non-empty `access_token`" holds for tokens of Socialite's own `AccessToken` class only. `SetAccessToken` requires such a token. The parent's `setAccessToken` accepts any `AccessTokenInterface`, and a cached token of another class is returned as it is.
- A null redirect URL or a null state is not modelled. Both are strings here, and `http_build_query` would drop a null field.
- `ServiceProvider.php`, `Facades/ColourlifeOAuth2.php` and `config.php` are framework wiring and default configuration.
