/** The SDK's shared settings and session (lib/kidsnote-sdk/src/options.rs),
    with the token records of lib/kidsnote-sdk/src/auth/datatypes.rs. */
module Options {
  import opened Wrappers
  import opened Ints
  import ErrorTypes

  /** The token endpoint's JSON reply. */
  datatype OAuthTokenResponse = OAuthTokenResponse(
    tokenType: string, accessToken: string, scope: string, expiresIn: i32, refreshToken: string)

  /** The stored session: the same five fields. */
  datatype KidsnoteAuth = KidsnoteAuth(
    tokenType: string, accessToken: string, scope: string, expiresIn: i32, refreshToken: string)

  /** The session a token reply becomes, field by field. */
  function SessionOf(data: OAuthTokenResponse): KidsnoteAuth {
    KidsnoteAuth(data.tokenType, data.accessToken, data.scope, data.expiresIn, data.refreshToken)
  }

  const DefaultHost: string := "https://kapi.kidsnote.com"
  const BuiltInClientId: string :=
    "eTU0bU4xbHBhWTcyTmlQTEZPQnp5WlNkS2FMV0h4ZUNUV0VoUXp4RzpleENKNVQ5TmlzaGc2NkpEQzh1b1NZN29PM1hTVVVVcjlHRG5penVWaGd3TDJyWkpNVkJHY0hYYTh1UDZ2VmlHbGE2VERGVE8ybDFIMEw3cEdIckFRQ1lpMWsyakEwVTVVT2RmQ2pXeDdSVVJDMk0xZlhhd1ZNRXBIdGJDZExQbQ=="

  /** `struct KidsnoteOptions`: the host, the client id and at most one session. */
  class KidsnoteOptions {
    var host: string
    var clientId: string
    var auth: Option<KidsnoteAuth>

    /** `KidsnoteOptions::new`: the fixed host, the given client id or the
        built-in one, and no session yet. */
    constructor (clientId: Option<string>)
      ensures host == DefaultHost
      ensures this.clientId == (if clientId.Some? then clientId.value else BuiltInClientId)
      ensures auth.None?
      ensures GetDefaultSessionOrError() == Failure(ErrorTypes.ErrorWithCode(ErrorTypes.Unauthorized))
    {
      host := DefaultHost;
      this.clientId := clientId.GetOr(BuiltInClientId);
      auth := None;
    }

    method SetClientId(clientId: string)
      modifies this
      ensures this.clientId == clientId && GetClientId() == clientId
      ensures host == old(host) && auth == old(auth)
    {
      this.clientId := clientId;
    }

    method SetHost(host: string)
      modifies this
      ensures this.host == host && GetHost() == host
      ensures clientId == old(clientId) && auth == old(auth)
    {
      this.host := host;
    }

    function GetClientId(): string
      reads this
    {
      clientId
    }

    function GetHost(): string
      reads this
    {
      host
    }

    /** A copy of the stored session, or `Unauthorized` exactly when there is none. */
    function GetDefaultSessionOrError(): (r: Result<KidsnoteAuth, ErrorTypes.AuthError>)
      reads this
      ensures r.Failure? <==> auth.None?
      ensures r.Failure? ==> r.error == ErrorTypes.ErrorWithCode(ErrorTypes.Unauthorized)
      ensures r.Success? ==> Some(r.value) == auth
    {
      if auth.Some? then Success(auth.value)
      else Failure(ErrorTypes.ErrorWithCode(ErrorTypes.Unauthorized))
    }

    /** Stores the reply's five fields as the session; host and client id stay. */
    method SetDefaultSession(data: OAuthTokenResponse)
      modifies this
      ensures auth == Some(SessionOf(data))
      ensures GetDefaultSessionOrError() == Success(SessionOf(data))
      ensures host == old(host) && clientId == old(clientId)
    {
      auth := Some(KidsnoteAuth(data.tokenType, data.accessToken, data.scope, data.expiresIn, data.refreshToken));
    }

    /** Forgets the session; host and client id stay. */
    method RemoveDefaultSession()
      modifies this
      ensures auth.None?
      ensures GetDefaultSessionOrError() == Failure(ErrorTypes.ErrorWithCode(ErrorTypes.Unauthorized))
      ensures host == old(host) && clientId == old(clientId)
    {
      auth := None;
    }
  }

  /** The stored session keeps every field of the reply it came from, so the
      reply can be read back from it. */
  lemma SessionKeepsReply(a: OAuthTokenResponse, b: OAuthTokenResponse)
    ensures SessionOf(a) == SessionOf(b) ==> a == b
  {
  }
}
