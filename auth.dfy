/** The token exchange and its two flows (lib/kidsnote-sdk/src/auth/mod.rs).
    The network is a scripted `Exchange`: what happened to the one request. */
module Auth {
  import opened Wrappers
  import opened Options
  import Text
  import ErrorTypes

  /** What the form encoding and the POST came to. `Replied.body` is the
      parsed JSON, or None when the body does not parse as a token reply. */
  datatype Exchange =
    | EncodeFailed
    | TransportFailed
    | Replied(status: StatusCode, body: Option<OAuthTokenResponse>)

  /** An HTTP status as reqwest accepts it: three decimal digits. */
  type StatusCode = x: int | 100 <= x <= 999 witness 200

  /** The request `oauth_token` puts on the wire. */
  datatype TokenRequest = TokenRequest(
    url: string, contentType: string, authorization: string, form: map<string, string>)

  const TokenPath := "/o/token/"
  const FormContentType := "application/x-www-form-urlencoded"
  const Scope := "read write"

  /** reqwest's `StatusCode::is_success`. */
  predicate IsSuccess(status: StatusCode) {
    200 <= status <= 299
  }

  const EncodeError := ErrorTypes.GeneralError("serde_urlencoded")
  const ParseErrorText := "parse error."
  const UnknownErrorText := "unknown error."

  /** The status is printed with `{:?}`, which for a status code is its number. */
  function StatusErrorText(status: StatusCode): string {
    "status error. status=" + Text.Digits(status)
  }

  /** The form `login` sends. */
  function PasswordForm(username: string, password: string): map<string, string> {
    map["grant_type" := "password", "username" := username, "password" := password, "scope" := Scope]
  }

  /** The form `refresh_token` sends. */
  function RefreshForm(refreshToken: string): map<string, string> {
    map["grant_type" := "refresh_token", "refresh_token" := refreshToken, "scope" := Scope]
  }

  /** The two forms are told apart by `grant_type`, and each carries exactly its own keys. */
  lemma FormsDiffer(u: string, p: string, t: string)
    ensures PasswordForm(u, p).Keys == {"grant_type", "username", "password", "scope"}
    ensures RefreshForm(t).Keys == {"grant_type", "refresh_token", "scope"}
    ensures PasswordForm(u, p)["grant_type"] != RefreshForm(t)["grant_type"]
    ensures PasswordForm(u, p)["scope"] == RefreshForm(t)["scope"] == "read write"
  {
  }

  /** `KidsnoteAuthSdk`: holds the shared options (one owner here, no mutex). */
  class KidsnoteAuthSdk {
    const config: KidsnoteOptions

    constructor (config: KidsnoteOptions)
      ensures this.config == config
    {
      this.config := config;
    }

    /** `oauth_token`: one POST to the token endpoint. A 2xx reply that parses
        becomes the session and the result; any later failure clears the
        session; a form that does not encode fails before any request and
        leaves the session alone. */
    method OAuthToken(params: map<string, string>, exchange: Exchange)
      returns (request: Option<TokenRequest>, r: Result<OAuthTokenResponse, ErrorTypes.AuthError>)
      modifies config
      ensures config.host == old(config.host) && config.clientId == old(config.clientId)
      ensures exchange.EncodeFailed? ==>
                request.None? && r == Failure(EncodeError) && config.auth == old(config.auth)
      ensures !exchange.EncodeFailed? ==>
                request == Some(TokenRequest(old(config.host) + TokenPath, FormContentType,
                                             "Basic " + old(config.clientId), params))
      ensures !exchange.EncodeFailed? ==>
                (r.Success? <==> exchange.Replied? && IsSuccess(exchange.status) && exchange.body.Some?)
      ensures r.Success? ==> r.value == exchange.body.value && config.auth == Some(SessionOf(r.value))
      ensures !exchange.EncodeFailed? && r.Failure? ==> config.auth.None?
      ensures exchange.TransportFailed? ==> r == Failure(ErrorTypes.GeneralErrorStr(UnknownErrorText))
      ensures exchange.Replied? && !IsSuccess(exchange.status) ==>
                r == Failure(ErrorTypes.GeneralErrorStr(StatusErrorText(exchange.status)))
      ensures exchange.Replied? && IsSuccess(exchange.status) && exchange.body.None? ==>
                r == Failure(ErrorTypes.GeneralErrorStr(ParseErrorText))
    {
      var url := config.GetHost() + TokenPath;
      if exchange.EncodeFailed? {
        return None, Failure(EncodeError);
      }
      request := Some(TokenRequest(url, FormContentType, "Basic " + config.GetClientId(), params));
      match exchange
      case Replied(status, body) =>
        if IsSuccess(status) {
          match body
          case Some(result) =>
            config.SetDefaultSession(result);
            r := Success(result);
          case None =>
            config.RemoveDefaultSession();
            r := Failure(ErrorTypes.GeneralErrorStr(ParseErrorText));
        } else {
          config.RemoveDefaultSession();
          r := Failure(ErrorTypes.GeneralErrorStr(StatusErrorText(status)));
        }
      case TransportFailed =>
        config.RemoveDefaultSession();
        r := Failure(ErrorTypes.GeneralErrorStr(UnknownErrorText));
    }

    /** `login`: the password grant. */
    method Login(username: string, password: string, exchange: Exchange)
      returns (request: Option<TokenRequest>, r: Result<OAuthTokenResponse, ErrorTypes.AuthError>)
      modifies config
      ensures config.host == old(config.host) && config.clientId == old(config.clientId)
      ensures request.Some? <==> !exchange.EncodeFailed?
      ensures request.Some? ==> request.value.form == PasswordForm(username, password)
      ensures r.Success? <==> exchange.Replied? && IsSuccess(exchange.status) && exchange.body.Some?
      ensures r.Success? ==> r.value == exchange.body.value && config.auth == Some(SessionOf(r.value))
      ensures r.Failure? ==> config.auth == if exchange.EncodeFailed? then old(config.auth) else None
    {
      var data := map[];
      data := data["grant_type" := "password"];
      data := data["username" := username];
      data := data["password" := password];
      data := data["scope" := Scope];
      request, r := OAuthToken(data, exchange);
    }

    /** `refresh_token`: the refresh-token grant. */
    method RefreshToken(refreshToken: string, exchange: Exchange)
      returns (request: Option<TokenRequest>, r: Result<OAuthTokenResponse, ErrorTypes.AuthError>)
      modifies config
      ensures config.host == old(config.host) && config.clientId == old(config.clientId)
      ensures request.Some? <==> !exchange.EncodeFailed?
      ensures request.Some? ==> request.value.form == RefreshForm(refreshToken)
      ensures r.Success? <==> exchange.Replied? && IsSuccess(exchange.status) && exchange.body.Some?
      ensures r.Success? ==> r.value == exchange.body.value && config.auth == Some(SessionOf(r.value))
      ensures r.Failure? ==> config.auth == if exchange.EncodeFailed? then old(config.auth) else None
    {
      var data := map[];
      data := data["grant_type" := "refresh_token"];
      data := data["refresh_token" := refreshToken];
      data := data["scope" := Scope];
      request, r := OAuthToken(data, exchange);
    }
  }
}
