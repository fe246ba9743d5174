/**
 * `AadhaarService` (`src/modules/aadhaar/aadhaar.service.ts`): the cached
 * Digitap access token, the static Basic credential headers, the success
 * test of `fetchKycDetails` and the error handler every call ends in.
 * Clock readings and the replies of Digitap are parameters.
 */
module Aadhaar {
  import opened Common
  import opened Json
  import opened Errors
  import Credentials

  // ---------------------------------------------------------------------------
  // error handler
  // ---------------------------------------------------------------------------

  /** `error?.response?.status || 500`, for the numeric statuses axios reports. */
  function ErrorStatus(error: Thrown): (status: int)
    ensures status != 0
    ensures Get(ResponseOf(error), "status").Num? && Get(ResponseOf(error), "status").n != 0 ==>
              status == Get(ResponseOf(error), "status").n
    ensures !(Get(ResponseOf(error), "status").Num? && Get(ResponseOf(error), "status").n != 0) ==> status == 500
  {
    match Get(ResponseOf(error), "status")
    case Num(n) => if n != 0 then n else 500
    case _ => 500
  }

  /** `error?.response?.data?.message || error?.message || message` */
  function ErrorMessage(error: Thrown, message: string): (msg: Value)
    ensures Truthy(Get(Get(ResponseOf(error), "data"), "message")) ==> msg == Get(Get(ResponseOf(error), "data"), "message")
    ensures !Truthy(Get(Get(ResponseOf(error), "data"), "message")) && Truthy(MessageOf(error)) ==> msg == MessageOf(error)
    ensures !Truthy(Get(Get(ResponseOf(error), "data"), "message")) && !Truthy(MessageOf(error)) ==> msg == Str(message)
  {
    Or(Or(Get(Get(ResponseOf(error), "data"), "message"), MessageOf(error)), Str(message))
  }

  /** `handleError`: it always throws, an `HttpException` with the preferred message and status. */
  function HandleError(error: Thrown, message: string): (r: Thrown)
    ensures r.HttpError? && r.status == ErrorStatus(error) && r.response == ErrorMessage(error, message)
  {
    NewHttpException(ErrorMessage(error, message), ErrorStatus(error))
  }

  /** An error without a response and without a message is reported as the default, with status 500. */
  lemma HandleBareError(message: string)
    requires message != ""
    ensures HandleError(PlainError("", Undef), message) == NewHttpException(Str(message), 500)
    ensures HandleError(PlainError("", Undef), message).message == message
  {
  }

  // ---------------------------------------------------------------------------
  // token cache
  // ---------------------------------------------------------------------------

  /** What the `POST /auth/token` exchange did: resolved with a body, or rejected. */
  datatype Exchange = Granted(data: Value) | Rejected(error: Thrown)

  /** The two cache fields; `tokenExpiry` is `None` once it has become `NaN`. */
  datatype TokenState = TokenState(accessToken: Value, tokenExpiry: Option<int>)

  const InitialState := TokenState(Null, Some(0))

  /** `this.accessToken && Date.now() < this.tokenExpiry` */
  predicate Fresh(s: TokenState, now: int)
  {
    Truthy(s.accessToken) && s.tokenExpiry.Some? && now < s.tokenExpiry.value
  }

  /** `Date.now() + Math.max(expires_in - 300, 60) * 1000`, `None` when `expires_in` is not a number. */
  function ExpiryAfter(now: int, expiresIn: Value): (r: Option<int>)
    ensures ToNumber(expiresIn).Some? <==> r.Some?
    ensures r.Some? ==> r.value >= now + 60000
    ensures r.Some? ==> r.value >= now + (ToNumber(expiresIn).value - 300) * 1000
    ensures r.Some? ==> r.value == now + 60000 || r.value == now + (ToNumber(expiresIn).value - 300) * 1000
  {
    match ToNumber(expiresIn)
    case None => None
    case Some(e) => Some(now + Max(e - 300, 60) * 1000)
  }

  /** The error reading `res.data.access_token` raises when the body is `null` or `undefined`. */
  function PropertyReadError(data: Value): Thrown
  {
    PlainError("Cannot read properties of " + (if data.Undef? then "undefined" else "null") + " (reading 'access_token')", Undef)
  }

  /**
   * One `getToken` call: the clock reads `now` before the cache test and
   * `issued` after the exchange. The result is the new state, the returned
   * token or the thrown error, and whether an exchange was made.
   */
  function TokenStep(s: TokenState, now: int, issued: int, exchange: Exchange): (r: (TokenState, Result<Value, Thrown>, bool))
    ensures r.2 <==> !Fresh(s, now)
    ensures !r.2 ==> r.0 == s && r.1 == Success(s.accessToken)
    ensures r.1.Failure? ==> r.0 == s && r.2
    ensures r.2 && r.1.Success? ==>
              && exchange.Granted? && r.1.value == Get(exchange.data, "access_token")
              && r.0 == TokenState(r.1.value, ExpiryAfter(issued, Get(exchange.data, "expires_in")))
    ensures r.2 && exchange.Granted? && !exchange.data.Undef? && !exchange.data.Null? ==> r.1.Success?
  {
    if Fresh(s, now) then (s, Success(s.accessToken), false)
    else match exchange
      case Rejected(e) => (s, Failure(HandleError(e, "Digitap authentication failed")), true)
      case Granted(data) =>
        if data.Undef? || data.Null? then
          (s, Failure(HandleError(PropertyReadError(data), "Digitap authentication failed")), true)
        else
          var token := Get(data, "access_token");
          (TokenState(token, ExpiryAfter(issued, Get(data, "expires_in"))), Success(token), true)
  }

  /** A fresh token is returned as it is, without an exchange and without a change. */
  lemma CachedTokenReused(s: TokenState, now: int, issued: int, exchange: Exchange)
    requires Fresh(s, now)
    ensures TokenStep(s, now, issued, exchange) == (s, Success(s.accessToken), false)
  {
  }

  /** A failed exchange changes nothing and throws through the error handler. */
  lemma FailedExchangeKeepsState(s: TokenState, now: int, issued: int, e: Thrown)
    requires !Fresh(s, now)
    ensures TokenStep(s, now, issued, Rejected(e)).0 == s
    ensures TokenStep(s, now, issued, Rejected(e)).1 == Failure(HandleError(e, "Digitap authentication failed"))
    ensures TokenStep(s, now, issued, Rejected(e)).2
  {
  }

  /**
   * A granted token with a numeric lifetime is reused, without a second
   * exchange, by any call made less than a minute after it was issued, and
   * by any call before its expiry; a call at or after the expiry makes a new
   * exchange.
   */
  lemma TwoCalls(s: TokenState, now1: int, issued1: int, data: Value, now2: int, issued2: int, second: Exchange)
    requires !Fresh(s, now1) && data.Obj?
    requires Truthy(Get(data, "access_token")) && ToNumber(Get(data, "expires_in")).Some?
    ensures var (s1, r1, e1) := TokenStep(s, now1, issued1, Granted(data));
            e1 && r1 == Success(Get(data, "access_token")) && s1.tokenExpiry.Some? &&
            (now2 < issued1 + 60000 ==> now2 < s1.tokenExpiry.value) &&
            (now2 < s1.tokenExpiry.value ==> TokenStep(s1, now2, issued2, second) == (s1, r1, false)) &&
            (now2 >= s1.tokenExpiry.value ==> TokenStep(s1, now2, issued2, second).2)
  {
  }

  /** A lifetime that is not a number makes the expiry `NaN`, so every later call exchanges again. */
  lemma NaNLifetimeNeverCaches(s: TokenState, now1: int, issued1: int, data: Value, now2: int, issued2: int, second: Exchange)
    requires !Fresh(s, now1) && data.Obj? && ToNumber(Get(data, "expires_in")).None?
    ensures var s1 := TokenStep(s, now1, issued1, Granted(data)).0;
            TokenStep(s1, now2, issued2, second).2
  {
  }

  /** The service instance's token cache. */
  class DigitapAuth {
    var accessToken: Value
    var tokenExpiry: Option<int>

    function State(): TokenState
      reads this
    {
      TokenState(accessToken, tokenExpiry)
    }

    constructor()
      ensures State() == InitialState
    {
      accessToken := Null;
      tokenExpiry := Some(0);
    }

    /** `getToken()` */
    method GetToken(now: int, issued: int, exchange: Exchange) returns (r: Result<Value, Thrown>, exchanged: bool)
      modifies this
      ensures (State(), r, exchanged) == TokenStep(old(State()), now, issued, exchange)
    {
      if Truthy(accessToken) && tokenExpiry.Some? && now < tokenExpiry.value {
        return Success(accessToken), false;
      }
      exchanged := true;
      match exchange {
        case Rejected(e) =>
          r := Failure(HandleError(e, "Digitap authentication failed"));
        case Granted(data) =>
          if data.Undef? || data.Null? {
            r := Failure(HandleError(PropertyReadError(data), "Digitap authentication failed"));
          } else {
            accessToken := Get(data, "access_token");
            tokenExpiry := ExpiryAfter(issued, Get(data, "expires_in"));
            r := Success(accessToken);
          }
      }
    }
  }

  // ---------------------------------------------------------------------------
  // static credential and KYC details
  // ---------------------------------------------------------------------------

  datatype DigitapHeaders = DigitapHeaders(authorization: string, contentType: string, accept: string)

  const MissingCredentials := "Digitap CLIENT_ID or CLIENT_SECRET missing in .env"

  /** `buildDigitapHeaders()`: the bare base 64 credential, without a `Basic ` prefix. */
  function BuildDigitapHeaders(clientId: Option<string>, clientSecret: Option<string>): (r: Result<DigitapHeaders, Thrown>)
    ensures r.Failure? <==> clientId.None? || clientId.value == "" || clientSecret.None? || clientSecret.value == ""
    ensures r.Failure? ==> r.error == BadRequest(Str(MissingCredentials))
    ensures r.Success? ==> r.value == DigitapHeaders(Credentials.BasicToken(clientId.value, clientSecret.value), "application/json", "*/*")
  {
    if clientId.None? || clientId.value == "" || clientSecret.None? || clientSecret.value == "" then
      Failure(BadRequest(Str(MissingCredentials)))
    else
      Success(DigitapHeaders(Credentials.BasicToken(clientId.value, clientSecret.value), "application/json", "*/*"))
  }

  /** The outcome of the details request, sent with `validateStatus: () => true`: any reply resolves it. */
  datatype KycCall = Replied(data: Value) | RequestFailed(error: Thrown)

  datatype KycRequest = KycRequest(url: string, transactionId: string, headers: DigitapHeaders)

  datatype KycDetails = KycDetails(success: bool, transactionId: string, raw: Value)

  /** The success test of `fetchKycDetails`, with strict equalities. */
  predicate KycSucceeded(data: Value)
  {
    Get(data, "code") == Str("200") || Get(data, "success") == Bool(true) ||
    Get(data, "status") == Str("SUCCESS") || Get(data, "status") == Str("success")
  }

  /**
   * `fetchKycDetails(transactionId)`: the result, and the request sent if
   * one was. The base URL and the transaction id are checked before any
   * request; the credentials are checked inside the `try`, so their absence
   * surfaces through `handleError`.
   */
  function FetchKycDetails(baseUrl: Option<string>, clientId: Option<string>, clientSecret: Option<string>,
                           transactionId: Option<string>, call: KycCall): (r: (Result<KycDetails, Thrown>, Option<KycRequest>))
    ensures baseUrl.None? || baseUrl.value == "" ==> r == (Failure(BadRequest(Str("DIGITAP_BASE_URL is missing in .env"))), None)
    ensures baseUrl.Some? && baseUrl.value != "" && (transactionId.None? || transactionId.value == "") ==>
              r == (Failure(BadRequest(Str("transactionId is required"))), None)
    ensures r.1.Some? ==> r.1.value.transactionId == transactionId.value &&
                          r.1.value.url == baseUrl.value + "/ent/v1/kyc/get-digilocker-details" &&
                          Success(r.1.value.headers) == BuildDigitapHeaders(clientId, clientSecret)
    ensures r.0.Success? ==> r.1.Some? && call.Replied? && r.0.value == KycDetails(KycSucceeded(call.data), transactionId.value, call.data)
    ensures baseUrl.Some? && baseUrl.value != "" && transactionId.Some? && transactionId.value != "" ==>
              var h := BuildDigitapHeaders(clientId, clientSecret);
              (h.Failure? ==> r == (Failure(HandleError(h.error, "Failed to fetch KYC details")), None)) &&
              (h.Success? ==> r.1.Some?) &&
              (h.Success? && call.Replied? ==> r.0 == Success(KycDetails(KycSucceeded(call.data), transactionId.value, call.data))) &&
              (h.Success? && call.RequestFailed? ==> r.0 == Failure(HandleError(call.error, "Failed to fetch KYC details")))
  {
    if baseUrl.None? || baseUrl.value == "" then (Failure(BadRequest(Str("DIGITAP_BASE_URL is missing in .env"))), None)
    else if transactionId.None? || transactionId.value == "" then (Failure(BadRequest(Str("transactionId is required"))), None)
    else match BuildDigitapHeaders(clientId, clientSecret)
      case Failure(e) => (Failure(HandleError(e, "Failed to fetch KYC details")), None)
      case Success(headers) =>
        var request := KycRequest(baseUrl.value + "/ent/v1/kyc/get-digilocker-details", transactionId.value, headers);
        match call
        case RequestFailed(e) => (Failure(HandleError(e, "Failed to fetch KYC details")), Some(request))
        case Replied(data) => (Success(KycDetails(KycSucceeded(data), transactionId.value, data)), Some(request))
  }

  /**
   * Missing credentials are reported as a 500 carrying the `BadRequest`'s
   * text: `handleError` finds no `response.status` on Nest's exception body.
   */
  lemma MissingCredentialsReported500(baseUrl: string, transactionId: string, call: KycCall)
    requires baseUrl != "" && transactionId != ""
    ensures FetchKycDetails(Some(baseUrl), None, None, Some(transactionId), call) ==
            (Failure(NewHttpException(Str(MissingCredentials), 500)), None)
  {
    BadRequestText(MissingCredentials);
  }

  /**
   * Each of the four markers alone makes a success; the comparisons are
   * strict, so a different spelling, case or type does not, and neither
   * does a body without them.
   */
  lemma KycSuccessMarkers(other: Value)
    requires other != Str("SUCCESS") && other != Str("success")
    ensures KycSucceeded(Obj(map["code" := Str("200")])) && KycSucceeded(Obj(map["success" := Bool(true)]))
    ensures KycSucceeded(Obj(map["status" := Str("SUCCESS")])) && KycSucceeded(Obj(map["status" := Str("success")]))
    ensures !KycSucceeded(Obj(map["status" := other]))
    ensures !KycSucceeded(Obj(map["success" := Str("true")])) && !KycSucceeded(Undef) && !KycSucceeded(Obj(map[]))
  {
    assert Get(Obj(map["status" := other]), "code") == Undef;
    assert Get(Obj(map["status" := other]), "success") == Undef;
  }

  /** A numeric `code: 200` alone is not a success: the test compares with the text `'200'`. */
  lemma NumericCodeIsNoSuccess()
    ensures !KycSucceeded(Obj(map["code" := Num(200)]))
    ensures KycSucceeded(Obj(map["code" := Str("200")]))
  {
  }
}
