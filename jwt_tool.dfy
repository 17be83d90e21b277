/**
 * The gateway's token check (JwtTool.parseToken): an ordered chain of guards over a
 * bearer token, each failing with its own UnauthorizedException message, ending in
 * Long.valueOf of the token's "user" claim. Decoding, RS256 signature checking and date
 * validation belong to the JWT library and the wall clock; they are the oracles below,
 * and the two that parseToken calls outside a matching catch may throw through it.
 */
module JwtTool {
  import opened Wrappers
  import opened JavaLong

  /** A decoded token, reduced to its payload claims, each in its toString() form. */
  datatype Jwt = Jwt(payload: map<string, string>)

  /** jwt.verify(): the signature verdict, or an exception thrown by the library. */
  datatype Verdict = Verified(valid: bool) | VerifyThrew(exception: string)

  /** JWTValidator.validateDate(): in date, a ValidateException, or some other exception. */
  datatype DateCheck = InDate | Expired | DateThrew(exception: string)

  /** The library calls parseToken makes, fixed once the signer's key pair is loaded. */
  datatype Oracles = Oracles(
    decode: string -> Option<Jwt>,  // JWT.of(token).setSigner(signer); None when it throws
    verify: Jwt -> Verdict,         // jwt.verify() against the RS256 public key
    validateDate: Jwt -> DateCheck) // JWTValidator.of(jwt).validateDate()

  /** What leaves parseToken exceptionally: its own UnauthorizedException, or a library exception it does not catch. */
  datatype Thrown = UnauthorizedException(message: string) | LibraryException(exception: string)

  const NotLoggedIn := "未登录"
  const InvalidToken := "无效的token"
  const TokenExpired := "token已经过期"
  const UserClaim := "user"

  /** A token that passes every guard and whose user claim parses as a Long. */
  predicate Accepted(token: string, lib: Oracles, userId: Long) {
    && lib.decode(token).Some?
    && lib.verify(lib.decode(token).value) == Verified(true)
    && lib.validateDate(lib.decode(token).value) == InDate
    && UserClaim in lib.decode(token).value.payload
    && ParseLong(lib.decode(token).value.payload[UserClaim]) == Some(userId)
  }

  /** A token on which a library call throws an exception that parseToken lets through. */
  predicate Escapes(token: string, lib: Oracles) {
    && lib.decode(token).Some?
    && (|| lib.verify(lib.decode(token).value).VerifyThrew?
        || (lib.verify(lib.decode(token).value) == Verified(true)
            && lib.validateDate(lib.decode(token).value).DateThrew?))
  }

  /** The exception that escapes: the one verify threw, else the one the date check threw. */
  function Escaped(token: string, lib: Oracles): string
    requires Escapes(token, lib)
  {
    var jwt := lib.decode(token).value;
    if lib.verify(jwt).VerifyThrew? then lib.verify(jwt).exception else lib.validateDate(jwt).exception
  }

  /** JwtTool.parseToken: the user id of a valid token, or what the first failing guard throws. */
  function ParseToken(token: Option<string>, lib: Oracles): (r: Result<Long, Thrown>)
    ensures r.Success? ==> token.Some? && Accepted(token.value, lib, r.value)
    ensures forall userId: Long :: token.Some? && Accepted(token.value, lib, userId) ==> r == Success(userId)
    ensures token.None? <==> r == Failure(UnauthorizedException(NotLoggedIn))
    ensures r == Failure(UnauthorizedException(TokenExpired)) <==>
              token.Some? && lib.decode(token.value).Some?
              && lib.verify(lib.decode(token.value).value) == Verified(true)
              && lib.validateDate(lib.decode(token.value).value) == Expired
    ensures r.Failure? && r.error.UnauthorizedException? ==> r.error.message in {NotLoggedIn, InvalidToken, TokenExpired}
    ensures r.Failure? && r.error.LibraryException? <==> token.Some? && Escapes(token.value, lib)
    ensures token.Some? && Escapes(token.value, lib) ==> r == Failure(LibraryException(Escaped(token.value, lib)))
  {
    if token.None? then Failure(UnauthorizedException(NotLoggedIn))
    else match lib.decode(token.value)
      case None => Failure(UnauthorizedException(InvalidToken))
      case Some(jwt) =>
        match lib.verify(jwt)
        case VerifyThrew(e) => Failure(LibraryException(e))
        case Verified(false) => Failure(UnauthorizedException(InvalidToken))
        case Verified(true) =>
          match lib.validateDate(jwt)
          case DateThrew(e) => Failure(LibraryException(e))
          case Expired => Failure(UnauthorizedException(TokenExpired))
          case InDate =>
            if UserClaim !in jwt.payload then Failure(UnauthorizedException(InvalidToken))
            else match ParseLong(jwt.payload[UserClaim])
              case None => Failure(UnauthorizedException(InvalidToken))
              case Some(userId) => Success(userId)
  }

  /** A badly signed token is reported invalid, never expired, whatever its dates say. */
  lemma BadSignatureIsInvalid(token: string, lib: Oracles)
    requires lib.decode(token).Some? && lib.verify(lib.decode(token).value) == Verified(false)
    ensures ParseToken(Some(token), lib) == Failure(UnauthorizedException(InvalidToken))
  {
  }

  /** A correctly signed, unexpired token whose user claim is missing or not a Long is invalid. */
  lemma BadUserClaimIsInvalid(token: string, lib: Oracles)
    requires lib.decode(token).Some?
    requires lib.verify(lib.decode(token).value) == Verified(true)
    requires lib.validateDate(lib.decode(token).value) == InDate
    requires UserClaim !in lib.decode(token).value.payload
             || ParseLong(lib.decode(token).value.payload[UserClaim]).None?
    ensures ParseToken(Some(token), lib) == Failure(UnauthorizedException(InvalidToken))
  {
  }

  /**
   * For every 64-bit user id: a correctly signed, unexpired token whose user claim
   * renders as that id's decimal string yields exactly that id.
   */
  lemma ValidTokenYieldsUser(token: string, lib: Oracles, userId: Long)
    requires lib.decode(token).Some?
    requires lib.verify(lib.decode(token).value) == Verified(true)
    requires lib.validateDate(lib.decode(token).value) == InDate
    requires UserClaim in lib.decode(token).value.payload
    requires lib.decode(token).value.payload[UserClaim] == ToString(userId)
    ensures ParseToken(Some(token), lib) == Success(userId)
  {
    ParseToStringRoundTrip(userId);
  }
}
