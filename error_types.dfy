/** The SDK's error codes and errors (lib/kidsnote-sdk/src/auth/error_types.rs). */
module ErrorTypes {
  import opened Ints

  /** `#[repr(u16)] enum AuthErrorCode`. */
  datatype AuthErrorCode = None | Nothingtodo | Unauthorized | NotFound | ServerError | UnknownError

  /** `AuthErrorCode::as_u16`: the enum's discriminant. */
  function AsU16(c: AuthErrorCode): u16 {
    match c
    case None => 0x0000
    case Nothingtodo => 1
    case Unauthorized => 401
    case NotFound => 404
    case ServerError => 0xfffe
    case UnknownError => 0xffff
  }

  /** `AuthErrorCode::from_u16`: the code with that discriminant, and
      `UnknownError` for every value that is not one. */
  function FromU16(n: u16): (c: AuthErrorCode)
    ensures c != UnknownError <==> n in {0x0000, 1, 401, 404, 0xfffe}
    ensures c != UnknownError ==> AsU16(c) == n
  {
    match n
    case 0x0000 => None
    case 1 => Nothingtodo
    case 401 => Unauthorized
    case 404 => NotFound
    case 0xfffe => ServerError
    case _ => UnknownError
  }

  /** Converting a code to its number and back gives the code. */
  lemma RoundTrip(c: AuthErrorCode)
    ensures FromU16(AsU16(c)) == c
  {
  }

  /** The six discriminants are distinct. */
  lemma AsU16Injective(a: AuthErrorCode, b: AuthErrorCode)
    ensures AsU16(a) == AsU16(b) ==> a == b
  {
    RoundTrip(a);
    RoundTrip(b);
  }

  /** `AuthErrorCode::desc`: "OK" for the code whose value is 0, a fixed text otherwise. */
  function Desc(c: AuthErrorCode): (s: string)
    ensures s == "OK" <==> AsU16(c) == 0
  {
    if AsU16(c) == 0 then "OK"
    else match c
      case Nothingtodo => "Nothing to do"
      case NotFound => "Not Found"
      case Unauthorized => "Unauthorized"
      case ServerError => "Server Processing Error Occured"
      case UnknownError => "Unknown Error Occured"
      case None => "OK"
  }

  /** Every code has its own description. */
  lemma DescInjective(a: AuthErrorCode, b: AuthErrorCode)
    ensures Desc(a) == Desc(b) ==> a == b
  {
    match a
    case None =>
    case Nothingtodo =>
    case Unauthorized =>
    case NotFound =>
    case ServerError =>
    case UnknownError =>
  }

  /** `impl Display for AuthErrorCode`: the description, nothing around it. */
  function Display(c: AuthErrorCode): string {
    Desc(c)
  }

  /** What a code prints tells which code it is, and only the code 0 prints "OK". */
  lemma DisplayIdentifies(a: AuthErrorCode, b: AuthErrorCode)
    ensures Display(a) == Display(b) <==> a == b
    ensures Display(a) == "OK" <==> AsU16(a) == 0
  {
    DescInjective(a, b);
  }

  /** `enum AuthError`; the `&'static str` and `String` payloads are both strings here. */
  datatype AuthError =
    | ErrorWithCode(code: AuthErrorCode)
    | ErrorWithCodeStr(code: AuthErrorCode, text: string)
    | ErrorWithCodeString(code: AuthErrorCode, text: string)
    | GeneralError(text: string)
    | GeneralErrorStr(text: string)

  predicate IsGeneral(e: AuthError) {
    e.GeneralError? || e.GeneralErrorStr?
  }

  /** The text after the code, for the variants that carry one. */
  function Detail(e: AuthError): string
    requires !IsGeneral(e)
  {
    if e.ErrorWithCode? then "" else " / " + e.text
  }

  const GeneralPrefix := "Error: "
  const CodePrefix := "ErrorCode: "

  /** A message with a code never begins like a general one. */
  lemma CodeNotGeneral(x: string)
    ensures (CodePrefix + x)[..|GeneralPrefix|] != GeneralPrefix
  {
    assert (CodePrefix + x)[..|GeneralPrefix|][5] == 'C';
  }

  /** The `#[error(...)]` message of each variant: its first seven characters
      tell a general error from one with a code. */
  function Message(e: AuthError): (m: string)
    ensures |m| >= |GeneralPrefix| && (m[..|GeneralPrefix|] == GeneralPrefix <==> IsGeneral(e))
    ensures IsGeneral(e) ==> m[|GeneralPrefix|..] == e.text
    ensures !IsGeneral(e) ==> |m| >= |CodePrefix| && m[..|CodePrefix|] == CodePrefix
  {
    match e
    case ErrorWithCode(c) =>
      CodeNotGeneral(Display(c));
      CodePrefix + Display(c)
    case ErrorWithCodeStr(c, t) =>
      CodeNotGeneral(Display(c) + " / " + t);
      CodePrefix + Display(c) + " / " + t
    case ErrorWithCodeString(c, t) =>
      CodeNotGeneral(Display(c) + " / " + t);
      CodePrefix + Display(c) + " / " + t
    case GeneralError(t) => GeneralPrefix + t
    case GeneralErrorStr(t) => GeneralPrefix + t
  }

  /** No code's description begins with another's. */
  lemma DisplayPrefixFree(a: AuthErrorCode, b: AuthErrorCode)
    requires Display(a) <= Display(b)
    ensures a == b
  {
    var da, db := Display(a), Display(b);
    assert da[0] == db[0];
    if |da| > 3 {
      assert da[2] == db[2] && da[3] == db[3];
    }
    match a
    case None =>
    case Nothingtodo =>
    case Unauthorized =>
    case NotFound =>
    case ServerError =>
    case UnknownError =>
  }

  /** A coded error's message, after its prefix, is the description and the detail. */
  lemma CodedMessage(e: AuthError)
    requires !IsGeneral(e)
    ensures Message(e)[|CodePrefix|..] == Display(e.code) + Detail(e)
  {
  }

  /** Two errors with the same message are of the same kind and carry the
      same code, the same detail and the same text: a message loses only the
      difference between a `&'static str` and a `String` payload. */
  lemma MessageIdentifies(e1: AuthError, e2: AuthError)
    requires Message(e1) == Message(e2)
    ensures IsGeneral(e1) <==> IsGeneral(e2)
    ensures IsGeneral(e1) ==> e1.text == e2.text
    ensures !IsGeneral(e1) ==> e1.code == e2.code && e1.ErrorWithCode? == e2.ErrorWithCode?
    ensures !IsGeneral(e1) && !e1.ErrorWithCode? ==> e1.text == e2.text
  {
    if !IsGeneral(e1) {
      var d1, d2 := Display(e1.code), Display(e2.code);
      var r := Message(e1)[|CodePrefix|..];
      CodedMessage(e1);
      CodedMessage(e2);
      assert r == d1 + Detail(e1) == d2 + Detail(e2);
      if |d1| <= |d2| {
        assert d1 == r[..|d1|] == d2[..|d1|];
        DisplayPrefixFree(e1.code, e2.code);
      } else {
        assert d2 == r[..|d2|] == d1[..|d2|];
        DisplayPrefixFree(e2.code, e1.code);
      }
      assert Detail(e1) == Detail(e2) == r[|d1|..];
      if !e1.ErrorWithCode? && !e2.ErrorWithCode? {
        assert e1.text == Detail(e1)[3..];
      }
    }
  }
}
