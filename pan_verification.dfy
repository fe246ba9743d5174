/**
 * PAN verification (`validatePan`, `verifyPan`, `getPanDetails` of
 * `src/modules/pan-verification/pan-verification.service.ts`, identical in
 * `src/modules/pan/pan.service.ts`) and the Vision-first PAN OCR chain of
 * `PanVerificationService.ocrPan`.
 *
 * The providers are inputs: each HTTP exchange is given as what it produced
 * (a body, whatever its status, or a transport error), and the model returns
 * the requests it would have sent alongside the result. The environment is
 * a record of strings, `""` standing for an unset variable.
 */
module PanVerification {
  import opened Common
  import opened Text
  import opened Json
  import opened Errors
  import opened Patterns
  import opened PanParser
  import opened PanOcr
  import opened GoogleVision

  /** `ZOOP_PAN_API_URL`, `ZOOP_API_KEY`, `ZOOP_APP_ID`, `FINANALYZ_PAN_URL`, `FINANALYZ_OCR_URL`, `FINANALYZ_X_API_KEY`. */
  datatype PanConfig = PanConfig(
    zoopUrl: string, zoopApiKey: string, zoopAppId: string,
    finanalyzUrl: string, finanalyzOcrUrl: string, finanalyzKey: string)

  /** `callFinanalyzPan` throws `'Finanalyz service not configured'` unless this holds. */
  predicate FinanalyzConfigured(c: PanConfig)
  {
    c.finanalyzUrl != "" && c.finanalyzKey != ""
  }

  /** `callZoopPan` throws `'Zoop service not configured'` unless this holds. */
  predicate ZoopConfigured(c: PanConfig)
  {
    c.zoopUrl != "" && c.zoopApiKey != "" && c.zoopAppId != ""
  }

  /** What one HTTP exchange with a provider produced (`validateStatus: () => true` accepts every status). */
  datatype Exchange = TransportError(message: string) | Answered(body: Value)

  /** The requests the verification chain sends, with the fields that depend on the input. */
  datatype ProviderRequest =
    | FinanalyzRequest(url: string, apiKey: string, panNumber: string)
    | ZoopRequest(url: string, apiKey: string, appId: string, customerPan: string, holderName: string)

  /** The object `validatePan` resolves with; an absent `message` or `details` is `Undef`. */
  datatype Verification = Verification(success: bool, verified: bool, provider: string, message: Value, details: Value)

  const InvalidPanFormat := "Invalid PAN format"
  const NameRequiredForVerification := "Name is required for PAN verification"
  const NameRequired := "Name is required"

  /**
   * `result?.success` after `try { result = await callX(...) } catch {}`: a
   * missing configuration (thrown and swallowed) and a transport error
   * (`success: false`) both leave no answer; only a configured provider that
   * answered yields its body.
   */
  function Answer(configured: bool, e: Exchange): (r: Option<Value>)
    ensures r.Some? <==> configured && e.Answered?
    ensures r.Some? ==> r.value == e.body
  {
    if configured && e.Answered? then Some(e.body) else None
  }

  // ---------------------------------------------------------------------------
  // Finanalyz verdict
  // ---------------------------------------------------------------------------

  /** `resp?.data?.response` */
  function ApiResponse(body: Value): Value
  {
    Get(Get(body, "data"), "response")
  }

  /** `apiResp?.code === 200 && apiResp?.isValid === true` */
  predicate FinanalyzValid(apiResp: Value)
  {
    Get(apiResp, "code") == Num(200) && Get(apiResp, "isValid") == Bool(true)
  }

  /** The named fields of a verified Finanalyz answer. */
  const FinanalyzNamedKeys: set<string> := {"pan", "name", "firstName", "middleName", "lastName", "gender", "dob"}

  /**
   * `{pan: apiResp.pan, ..., dob: apiResp.dob, ...apiResp, nameMatchScore: 100}`:
   * every field of the answer, the named ones even when absent, and a score of 100.
   */
  function FinanalyzDetails(apiResp: Value): Value
  {
    var named := map[
      "pan" := Get(apiResp, "pan"), "name" := Get(apiResp, "name"),
      "firstName" := Get(apiResp, "firstName"), "middleName" := Get(apiResp, "middleName"),
      "lastName" := Get(apiResp, "lastName"), "gender" := Get(apiResp, "gender"),
      "dob" := Get(apiResp, "dob")];
    Obj((named + (if apiResp.Obj? then apiResp.fields else map[]))["nameMatchScore" := Num(100)])
  }

  /**
   * The details of a verified Finanalyz answer hold every field of the
   * answer unchanged, the named fields even when absent, and a score of 100.
   */
  lemma FinanalyzDetailsFields(apiResp: Value)
    requires apiResp.Obj?
    ensures var d := FinanalyzDetails(apiResp);
            d.Obj? && d.fields.Keys == FinanalyzNamedKeys + apiResp.fields.Keys + {"nameMatchScore"}
    ensures FinanalyzDetails(apiResp).fields["nameMatchScore"] == Num(100)
    ensures forall k | k in FinanalyzDetails(apiResp).fields && k != "nameMatchScore" ::
              FinanalyzDetails(apiResp).fields[k] == Get(apiResp, k)
  {
  }

  /** The result for an answered Finanalyz call: final, verified or not. */
  function FinanalyzVerdict(body: Value): (v: Verification)
    ensures v.success && v.provider == "FINANALYZ"
    ensures v.verified <==> FinanalyzValid(ApiResponse(body))
    ensures v.verified ==> v.message == Undef && v.details == FinanalyzDetails(ApiResponse(body))
    ensures !v.verified ==> v.details == Undef && Truthy(v.message)
    ensures !v.verified ==> v.message == Or(Get(ApiResponse(body), "message"), Str("PAN verification failed"))
  {
    var apiResp := ApiResponse(body);
    if FinanalyzValid(apiResp) then
      Verification(true, true, "FINANALYZ", Undef, FinanalyzDetails(apiResp))
    else
      Verification(true, false, "FINANALYZ", Or(Get(apiResp, "message"), Str("PAN verification failed")), Undef)
  }

  // ---------------------------------------------------------------------------
  // Zoop verdict
  // ---------------------------------------------------------------------------

  /** `resp?.response_code === '100' && resp?.result?.pan_status === 'VALID'` */
  predicate ZoopValid(body: Value)
  {
    Get(body, "response_code") == Str("100") && Get(Get(body, "result"), "pan_status") == Str("VALID")
  }

  /** `Number(resp.result.name_match_score || 0)`; `None` is `NaN`. */
  function NameMatchScore(body: Value): (score: Option<int>)
    ensures !Truthy(Get(Get(body, "result"), "name_match_score")) ==> score == Some(0)
  {
    ToNumber(Or(Get(Get(body, "result"), "name_match_score"), Num(0)))
  }

  /** `score >= 80`, which is false for `NaN`. */
  predicate ScoreAccepted(score: Option<int>)
  {
    score.Some? && score.value >= 80
  }

  /** The details of a verified Zoop answer. */
  function ZoopDetails(result: Value, score: int): Value
  {
    Obj(map[
      "pan" := Get(result, "pan_number"), "name" := Get(result, "name_on_card"),
      "firstName" := Get(result, "user_first_name"), "middleName" := Get(result, "user_middle_name"),
      "lastName" := Get(result, "user_last_name"), "typeOfHolder" := Get(result, "pan_type"),
      "aadhaarSeedingStatus" := Get(result, "aadhaar_seeding_status"), "nameMatchScore" := Num(score)])
  }

  /** A verified Zoop answer reports its score and the PAN and name on the card. */
  lemma ZoopDetailsFields(result: Value, score: int)
    ensures Get(ZoopDetails(result, score), "nameMatchScore") == Num(score)
    ensures Get(ZoopDetails(result, score), "pan") == Get(result, "pan_number")
    ensures Get(ZoopDetails(result, score), "name") == Get(result, "name_on_card")
  {
  }

  /** The result for an answered Zoop call: final, verified or not. */
  function ZoopVerdict(body: Value): (v: Verification)
    ensures v.success && v.provider == "ZOOP"
    ensures v.verified <==> ZoopValid(body) && ScoreAccepted(NameMatchScore(body))
    ensures v.verified ==> v.message == Undef && v.details == ZoopDetails(Get(body, "result"), NameMatchScore(body).value)
    ensures !v.verified ==> v.details == Undef
    ensures ZoopValid(body) && !ScoreAccepted(NameMatchScore(body)) ==>
              v.message == Str("Name match too low (" + NumberText(NameMatchScore(body)) + "%)")
    ensures !ZoopValid(body) ==> v.message == Or(Get(body, "response_message"), Str("PAN not valid"))
  {
    if ZoopValid(body) then
      var score := NameMatchScore(body);
      if ScoreAccepted(score) then
        Verification(true, true, "ZOOP", Undef, ZoopDetails(Get(body, "result"), score.value))
      else
        Verification(true, false, "ZOOP", Str("Name match too low (" + NumberText(score) + "%)"), Undef)
    else
      Verification(true, false, "ZOOP", Or(Get(body, "response_message"), Str("PAN not valid")), Undef)
  }

  /**
   * The provider tests compare strictly: a Finanalyz `code` sent as text or
   * an `isValid` sent as text fails, and so do a Zoop `response_code` sent as
   * a number and a `pan_status` in another case. A `NaN` score is refused.
   */
  lemma StrictProviderTests()
    ensures FinanalyzValid(Obj(map["code" := Num(200), "isValid" := Bool(true)]))
    ensures !FinanalyzValid(Obj(map["code" := Str("200"), "isValid" := Bool(true)]))
    ensures !FinanalyzValid(Obj(map["code" := Num(200), "isValid" := Str("true")]))
    ensures ZoopValid(Obj(map["response_code" := Str("100"), "result" := Obj(map["pan_status" := Str("VALID")])]))
    ensures !ZoopValid(Obj(map["response_code" := Num(100), "result" := Obj(map["pan_status" := Str("VALID")])]))
    ensures !ZoopValid(Obj(map["response_code" := Str("100"), "result" := Obj(map["pan_status" := Str("valid")])]))
    ensures !ScoreAccepted(None) && !ScoreAccepted(Some(79)) && ScoreAccepted(Some(80))
  {
  }

  /** A valid Zoop answer without a score is a name mismatch at 0%. */
  lemma MissingScoreIsZero(body: Value)
    requires ZoopValid(body) && !Truthy(Get(Get(body, "result"), "name_match_score"))
    ensures !ZoopVerdict(body).verified
    ensures ZoopVerdict(body).message == Str("Name match too low (0%)")
  {
  }

  /** A score sent as decimal text is read as its number: at least 80 verifies, less does not. */
  lemma TextScoreThreshold(body: Value, n: nat)
    requires ZoopValid(body) && Get(Get(body, "result"), "name_match_score") == Str(NatToString(n))
    ensures ZoopVerdict(body).verified <==> n >= 80
  {
    NumberOfDecimal(n);
    assert NatToString(n) != "";
  }

  /** A numeric score verifies exactly from 80 up. */
  lemma NumericScoreThreshold(body: Value, n: int)
    requires ZoopValid(body) && Get(Get(body, "result"), "name_match_score") == Num(n) && n != 0
    ensures ZoopVerdict(body).verified <==> n >= 80
    ensures !ZoopVerdict(body).verified ==> ZoopVerdict(body).message == Str("Name match too low (" + IntToString(n) + "%)")
  {
  }

  /** A score wrapped in a one-element array is read as the score itself, as `Number` does. */
  lemma WrappedScore(body: Value, e: Value)
    requires Get(Get(body, "result"), "name_match_score") == Arr([e])
    requires e.Str? || (e.Num? && e.n >= 0)
    ensures NameMatchScore(body) == ToNumber(e)
  {
    SingletonArrayNumber(e);
  }

  // ---------------------------------------------------------------------------
  // The chain
  // ---------------------------------------------------------------------------

  const NoProvider := Verification(false, false, "NONE", Str("Both verification providers failed (check logs for details)"), Undef)

  /** Finanalyz first; Zoop only without a Finanalyz answer; `'NONE'` without either. */
  function Chain(finanalyz: Option<Value>, zoop: Option<Value>): (v: Verification)
    ensures finanalyz.Some? ==> v == FinanalyzVerdict(finanalyz.value)
    ensures finanalyz.None? && zoop.Some? ==> v == ZoopVerdict(zoop.value)
    ensures v.success <==> finanalyz.Some? || zoop.Some?
    ensures v.provider == "NONE" <==> finanalyz.None? && zoop.None?
    ensures v.verified ==> v.success
  {
    if finanalyz.Some? then FinanalyzVerdict(finanalyz.value)
    else if zoop.Some? then ZoopVerdict(zoop.value)
    else NoProvider
  }

  /** `pan?.match(/^[A-Z]{5}[0-9]{4}[A-Z]{1}$/i)`, the same test as `isValidPanFormat`. */
  predicate AcceptedPan(pan: Option<string>)
  {
    pan.Some? && IsValidPanFormat(pan.value)
  }

  /** `name?.trim()` is truthy. */
  predicate NameGiven(name: Option<string>)
  {
    name.Some? && Trim(name.value) != ""
  }

  /** `pan.toUpperCase().trim()`: for an accepted PAN the trim removes nothing. */
  function NormalisedPan(pan: string): (p: string)
    ensures IsValidPanFormat(pan) ==> p == ToUpper(pan) && IsPanShape(p) && IsValidPanFormat(p)
  {
    UpperPanUntrimmed(pan);
    Trim(ToUpper(pan))
  }

  lemma UpperPanUntrimmed(pan: string)
    ensures IsValidPanFormat(pan) ==> Trim(ToUpper(pan)) == ToUpper(pan) && IsValidPanFormat(ToUpper(pan))
  {
    if IsValidPanFormat(pan) {
      MatchHasNoWs(ToUpper(pan), 0, PanPattern);
      TrimNoWsBorders(ToUpper(pan));
      ToUpperIdempotent(pan);
    }
  }

  /** The request `callFinanalyzPan` sends, when it is configured. */
  function FinanalyzRequests(config: PanConfig, p: string): seq<ProviderRequest>
  {
    if FinanalyzConfigured(config) then [FinanalyzRequest(config.finanalyzUrl, config.finanalyzKey, ToUpper(p))] else []
  }

  /** The request `callZoopPan` sends, when it is configured. */
  function ZoopRequests(config: PanConfig, p: string, n: string): seq<ProviderRequest>
  {
    if ZoopConfigured(config) then [ZoopRequest(config.zoopUrl, config.zoopApiKey, config.zoopAppId, ToUpper(p), ToUpper(n))] else []
  }

  /** The requests sent for an accepted input, in order: Zoop is asked only without a Finanalyz answer. */
  function Requests(config: PanConfig, p: string, n: string, finanalyz: Exchange): seq<ProviderRequest>
  {
    if Answer(FinanalyzConfigured(config), finanalyz).Some? then FinanalyzRequests(config, p)
    else FinanalyzRequests(config, p) + ZoopRequests(config, p, n)
  }

  /**
   * `validatePan(pan, name)`: the result or the exception, and the requests
   * sent. The input checks come first and send nothing.
   */
  function Validation(config: PanConfig, pan: Option<string>, name: Option<string>, finanalyz: Exchange, zoop: Exchange):
    (r: (Result<Verification, Thrown>, seq<ProviderRequest>))
    ensures !AcceptedPan(pan) ==> r == (Failure(BadRequest(Str(InvalidPanFormat))), [])
    ensures AcceptedPan(pan) && !NameGiven(name) ==> r == (Failure(BadRequest(Str(NameRequiredForVerification))), [])
    ensures AcceptedPan(pan) && NameGiven(name) ==>
              r.0 == Success(Chain(Answer(FinanalyzConfigured(config), finanalyz), Answer(ZoopConfigured(config), zoop)))
    ensures AcceptedPan(pan) && NameGiven(name) ==>
              r.1 == Requests(config, NormalisedPan(pan.value), Trim(name.value), finanalyz)
  {
    if !AcceptedPan(pan) then (Failure(BadRequest(Str(InvalidPanFormat))), [])
    else if !NameGiven(name) then (Failure(BadRequest(Str(NameRequiredForVerification))), [])
    else
      var fin := Answer(FinanalyzConfigured(config), finanalyz);
      var zo := Answer(ZoopConfigured(config), zoop);
      (Success(Chain(fin, zo)), Requests(config, NormalisedPan(pan.value), Trim(name.value), finanalyz))
  }

  /** The step-by-step `validatePan`: the input checks, then the provider chain. */
  method ValidatePan(config: PanConfig, pan: Option<string>, name: Option<string>, finanalyz: Exchange, zoop: Exchange)
    returns (r: Result<Verification, Thrown>, requests: seq<ProviderRequest>)
    ensures (r, requests) == Validation(config, pan, name, finanalyz, zoop)
  {
    if !AcceptedPan(pan) {
      return Failure(BadRequest(Str(InvalidPanFormat))), [];
    }
    if !NameGiven(name) {
      return Failure(BadRequest(Str(NameRequiredForVerification))), [];
    }
    var p := NormalisedPan(pan.value);
    var n := Trim(name.value);
    var v;
    v, requests := AskProviders(config, p, n, finanalyz, zoop);
    r := Success(v);
  }

  /** Finanalyz, then Zoop, with the reassigned `finResult` and `zoopResult` and early returns. */
  method AskProviders(config: PanConfig, p: string, n: string, finanalyz: Exchange, zoop: Exchange)
    returns (v: Verification, requests: seq<ProviderRequest>)
    ensures v == Chain(Answer(FinanalyzConfigured(config), finanalyz), Answer(ZoopConfigured(config), zoop))
    ensures requests == Requests(config, p, n, finanalyz)
  {
    requests := [];
    var finResult: Option<Value> := None;
    if FinanalyzConfigured(config) {
      requests := requests + FinanalyzRequests(config, p);
      if finanalyz.Answered? {
        finResult := Some(finanalyz.body);
      }
    }
    if finResult.Some? {
      return FinanalyzVerdict(finResult.value), requests;
    }

    var zoopResult: Option<Value> := None;
    if ZoopConfigured(config) {
      requests := requests + ZoopRequests(config, p, n);
      if zoop.Answered? {
        zoopResult := Some(zoop.body);
      }
    }
    if zoopResult.Some? {
      return ZoopVerdict(zoopResult.value), requests;
    }
    return NoProvider, requests;
  }

  /**
   * `verifyPan(panNumber, name)`: an absent or empty name is refused with
   * `'Name is required'` before `validatePan` looks at the PAN.
   */
  method VerifyPan(config: PanConfig, pan: Option<string>, name: Option<string>, finanalyz: Exchange, zoop: Exchange)
    returns (r: Result<Verification, Thrown>, requests: seq<ProviderRequest>)
    ensures (name.None? || name.value == "") ==> r == Failure(BadRequest(Str(NameRequired))) && requests == []
    ensures name.Some? && name.value != "" ==> (r, requests) == Validation(config, pan, name, finanalyz, zoop)
  {
    if name.None? || name.value == "" {
      return Failure(BadRequest(Str(NameRequired))), [];
    }
    r, requests := ValidatePan(config, pan, name, finanalyz, zoop);
  }

  /** `getPanDetails(panNumber)`: the PAN echoed back, no name, pending verification. */
  function GetPanDetails(panNumber: string): (v: Value)
    ensures Get(v, "success") == Bool(true)
    ensures Get(Get(v, "data"), "panNumber") == Str(panNumber)
    ensures Get(Get(v, "data"), "name") == Null
    ensures Get(Get(v, "data"), "status") == Str("PENDING_VERIFICATION")
  {
    Obj(map["success" := Bool(true),
            "data" := Obj(map["panNumber" := Str(panNumber), "name" := Null, "status" := Str("PENDING_VERIFICATION")])])
  }

  // ---------------------------------------------------------------------------
  // Properties of the chain
  // ---------------------------------------------------------------------------

  /** An answered Finanalyz call is final: Zoop is not asked, and its outcome does not matter. */
  lemma FinanalyzAnswerIsFinal(config: PanConfig, pan: Option<string>, name: Option<string>, body: Value, zoop1: Exchange, zoop2: Exchange)
    requires AcceptedPan(pan) && NameGiven(name) && FinanalyzConfigured(config)
    ensures Validation(config, pan, name, Answered(body), zoop1) == Validation(config, pan, name, Answered(body), zoop2)
    ensures Validation(config, pan, name, Answered(body), zoop1).0 == Success(FinanalyzVerdict(body))
    ensures Validation(config, pan, name, Answered(body), zoop1).1 ==
            [FinanalyzRequest(config.finanalyzUrl, config.finanalyzKey, ToUpper(pan.value))]
  {
    var p, n := NormalisedPan(pan.value), Trim(name.value);
    AnsweredIsFinal(config, p, n, body, Answer(ZoopConfigured(config), zoop1));
    AnsweredIsFinal(config, p, n, body, Answer(ZoopConfigured(config), zoop2));
    ToUpperIdempotent(pan.value);
  }

  /** With an answer from a configured Finanalyz, its verdict is the result and its request the only one sent. */
  lemma AnsweredIsFinal(config: PanConfig, p: string, n: string, body: Value, zo: Option<Value>)
    requires FinanalyzConfigured(config)
    ensures Chain(Answer(FinanalyzConfigured(config), Answered(body)), zo) == FinanalyzVerdict(body)
    ensures Requests(config, p, n, Answered(body)) == [FinanalyzRequest(config.finanalyzUrl, config.finanalyzKey, ToUpper(p))]
  {
  }

  /** A missing Finanalyz configuration has the same outcome as a Finanalyz transport error. */
  lemma UnconfiguredLikeTransportError(config: PanConfig, pan: Option<string>, name: Option<string>, message: string, finanalyz: Exchange, zoop: Exchange)
    requires FinanalyzConfigured(config)
    ensures Validation(config, pan, name, TransportError(message), zoop).0 ==
            Validation(config.(finanalyzKey := ""), pan, name, finanalyz, zoop).0
  {
    var unset := config.(finanalyzKey := "");
    assert Answer(FinanalyzConfigured(config), TransportError(message)) == None == Answer(FinanalyzConfigured(unset), finanalyz);
    SameAnswersSameOutcome(config, unset, pan, name, TransportError(message), finanalyz, zoop);
  }

  /** The outcome depends on the configuration only through the answers it lets through. */
  lemma SameAnswersSameOutcome(c1: PanConfig, c2: PanConfig, pan: Option<string>, name: Option<string>, f1: Exchange, f2: Exchange, zoop: Exchange)
    requires Answer(FinanalyzConfigured(c1), f1) == Answer(FinanalyzConfigured(c2), f2)
    requires ZoopConfigured(c1) == ZoopConfigured(c2)
    ensures Validation(c1, pan, name, f1, zoop).0 == Validation(c2, pan, name, f2, zoop).0
  {
  }

  /**
   * Zoop is asked exactly when it is configured and Finanalyz gave no
   * answer; it receives the upper-cased PAN and name.
   */
  lemma ZoopAskedIff(config: PanConfig, p: string, n: string, finanalyz: Exchange)
    ensures (exists q | q in Requests(config, p, n, finanalyz) :: q.ZoopRequest?) <==>
              ZoopConfigured(config) && Answer(FinanalyzConfigured(config), finanalyz).None?
    ensures forall q | q in Requests(config, p, n, finanalyz) && q.ZoopRequest? ::
              q.customerPan == ToUpper(p) && q.holderName == ToUpper(n)
  {
    var qs := Requests(config, p, n, finanalyz);
    if ZoopConfigured(config) && Answer(FinanalyzConfigured(config), finanalyz).None? {
      assert qs[|qs| - 1].ZoopRequest?;
    }
  }

  /** Every request carries a PAN of the accepted format, in upper case. */
  lemma RequestsCarryValidPan(config: PanConfig, pan: Option<string>, name: Option<string>, finanalyz: Exchange, zoop: Exchange)
    ensures forall q | q in Validation(config, pan, name, finanalyz, zoop).1 ::
              var p := if q.FinanalyzRequest? then q.panNumber else q.customerPan;
              IsValidPanFormat(p) && p == ToUpper(pan.value)
  {
    if AcceptedPan(pan) && NameGiven(name) {
      var p := NormalisedPan(pan.value);
      ToUpperIdempotent(pan.value);
      RequestsCarryUpperPan(config, p, Trim(name.value), finanalyz);
    }
  }

  /** Both providers receive the PAN they are given, upper-cased. */
  lemma RequestsCarryUpperPan(config: PanConfig, p: string, n: string, finanalyz: Exchange)
    ensures forall q | q in Requests(config, p, n, finanalyz) ::
              (if q.FinanalyzRequest? then q.panNumber else q.customerPan) == ToUpper(p)
  {
  }

  /** A result is `verified` only if a provider answered and its own verdict said so. */
  lemma VerifiedNeedsAnswer(config: PanConfig, pan: Option<string>, name: Option<string>, finanalyz: Exchange, zoop: Exchange)
    requires var r := Validation(config, pan, name, finanalyz, zoop).0; r.Success? && r.value.verified
    ensures (FinanalyzConfigured(config) && finanalyz.Answered? && FinanalyzValid(ApiResponse(finanalyz.body))) ||
            (ZoopConfigured(config) && zoop.Answered? && ZoopValid(zoop.body) && ScoreAccepted(NameMatchScore(zoop.body)))
  {
    var fin := Answer(FinanalyzConfigured(config), finanalyz);
    var zo := Answer(ZoopConfigured(config), zoop);
    assert Validation(config, pan, name, finanalyz, zoop).0 == Success(Chain(fin, zo));
    ChainVerified(fin, zo);
  }

  /** The chain's result is verified only through the verdict of the provider it took. */
  lemma ChainVerified(fin: Option<Value>, zo: Option<Value>)
    requires Chain(fin, zo).verified
    ensures (fin.Some? && FinanalyzVerdict(fin.value).verified) || (fin.None? && zo.Some? && ZoopVerdict(zo.value).verified)
  {
  }

  // ---------------------------------------------------------------------------
  // ocrPan: Google Vision, then Finanalyz OCR
  // ---------------------------------------------------------------------------

  /** The object `ocrPan` resolves with. */
  datatype PanOcrReply = PanOcrReply(success: bool, raw: Value)

  const ImageRequired := "PAN image file is required"
  const OcrUnavailable := "OCR service not available"

  /** The parsed fields of Vision's lines when the chain accepts them; a failed Vision call is caught. */
  function VisionHit(vision: Result<VisionReply, Thrown>): Option<PanParseResult>
  {
    var lines := ExtractText(vision);
    if lines.Success? && VisionAccepts(lines.value) then Some(ParsePan(lines.value)) else None
  }

  /**
   * Vision's reading is taken exactly when the call succeeded, the parser
   * found a PAN and no payment keyword occurs; its PAN is then of the
   * accepted format.
   */
  lemma VisionHitIff(vision: Result<VisionReply, Thrown>)
    ensures VisionHit(vision).Some? <==>
            ExtractText(vision).Success? && ParsePan(ExtractText(vision).value).panNumber.Some? &&
            !IsPaymentText(FullText(ExtractText(vision).value))
    ensures VisionHit(vision).Some? ==> IsValidPanFormat(VisionHit(vision).value.panNumber.value)
  {
    if VisionHit(vision).Some? {
      VisionPanIsValid(ExtractText(vision).value);
    }
  }

  /** A failed Vision call is caught: the chain moves on to Finanalyz. */
  lemma VisionErrorFallsThrough(e: Thrown)
    ensures VisionHit(Failure(e)).None?
  {
  }

  /** `raw` for an accepted Vision reading; absent fields are `null`. */
  function VisionRaw(res: PanParseResult): Value
  {
    Obj(map["provider" := Str("GOOGLE_VISION"),
            "response" := Obj(map[
              "data" := Obj(map["pan_number" := OptStr(res.panNumber), "name" := OptStr(res.name),
                                "dob" := OptStr(res.dob), "father_name" := OptStr(res.fatherName)]),
              "doc_Name" := Str("PAN Card"), "message" := Str("success")])])
  }

  /** The Vision `raw` names its provider and carries the parsed fields, `null` where absent. */
  lemma VisionRawFields(res: PanParseResult)
    ensures Get(VisionRaw(res), "provider") == Str("GOOGLE_VISION")
    ensures var data := Get(Get(VisionRaw(res), "response"), "data");
            Get(data, "pan_number") == OptStr(res.panNumber) && Get(data, "name") == OptStr(res.name) &&
            Get(data, "dob") == OptStr(res.dob) && Get(data, "father_name") == OptStr(res.fatherName)
  {
  }

  /** `!this.finanalyzOcrUrl || !this.finanalyzKey` is false. */
  predicate OcrConfigured(c: PanConfig)
  {
    c.finanalyzOcrUrl != "" && c.finanalyzKey != ""
  }

  /**
   * The Finanalyz OCR stage: a success exactly when `data.data.pan_number` is
   * truthy; a transport error is reported, not thrown.
   */
  function FinanalyzOcrReply(e: Exchange): (r: PanOcrReply)
    ensures r.success <==> e.Answered? && Truthy(Get(Get(e.body, "data"), "pan_number"))
    ensures Get(r.raw, "provider") == Str("FINANALYZ_OCR")
    ensures e.Answered? ==> Get(r.raw, "response") == e.body
    ensures e.TransportError? ==> Get(r.raw, "error") == Str(e.message)
  {
    match e
    case Answered(data) =>
      PanOcrReply(Truthy(Get(Get(data, "data"), "pan_number")),
                  Obj(map["provider" := Str("FINANALYZ_OCR"), "response" := data]))
    case TransportError(message) =>
      PanOcrReply(false, Obj(map["provider" := Str("FINANALYZ_OCR"), "error" := Str(message)]))
  }

  /** The image could be read. */
  predicate ImageRead(file: Option<Upload>, readable: bool)
  {
    file.Some? && ReadImage(file.value, readable).Success?
  }

  /**
   * `PanVerificationService.ocrPan(file)`: Vision first, accepted when the
   * parser finds a PAN on a text that is no payment document; otherwise
   * Finanalyz OCR, which must be configured.
   */
  method OcrPan(config: PanConfig, file: Option<Upload>, readable: bool, vision: Result<VisionReply, Thrown>, finanalyz: Exchange)
    returns (r: Result<PanOcrReply, Thrown>, attempts: seq<Attempt>)
    ensures file.None? ==> r == Failure(BadRequest(Str(ImageRequired))) && attempts == []
    ensures file.Some? && !ImageRead(file, readable) ==> r == Failure(BadRequest(Str(UnreadableImage))) && attempts == []
    ensures ImageRead(file, readable) && VisionHit(vision).Some? ==>
              r == Success(PanOcrReply(true, VisionRaw(VisionHit(vision).value))) && attempts == [VisionOcr]
    ensures ImageRead(file, readable) && VisionHit(vision).None? && !OcrConfigured(config) ==>
              r == Failure(BadRequest(Str(OcrUnavailable))) && attempts == [VisionOcr]
    ensures ImageRead(file, readable) && VisionHit(vision).None? && OcrConfigured(config) ==>
              r == Success(FinanalyzOcrReply(finanalyz)) && attempts == [VisionOcr, FormFile(file.value)]
  {
    if file.None? {
      return Failure(BadRequest(Str(ImageRequired))), [];
    }
    var read := ReadImage(file.value, readable);
    if read.Failure? {
      return Failure(read.error), [];
    }
    r, attempts := RecognisePan(config, file.value, vision, finanalyz);
  }

  /** The two OCR stages of `ocrPan`, once the image is read. */
  method RecognisePan(config: PanConfig, file: Upload, vision: Result<VisionReply, Thrown>, finanalyz: Exchange)
    returns (r: Result<PanOcrReply, Thrown>, attempts: seq<Attempt>)
    ensures VisionHit(vision).Some? ==>
              r == Success(PanOcrReply(true, VisionRaw(VisionHit(vision).value))) && attempts == [VisionOcr]
    ensures VisionHit(vision).None? && !OcrConfigured(config) ==>
              r == Failure(BadRequest(Str(OcrUnavailable))) && attempts == [VisionOcr]
    ensures VisionHit(vision).None? && OcrConfigured(config) ==>
              r == Success(FinanalyzOcrReply(finanalyz)) && attempts == [VisionOcr, FormFile(file)]
  {
    attempts := [VisionOcr];
    var hit := VisionHit(vision);
    if hit.Some? {
      return Success(PanOcrReply(true, VisionRaw(hit.value))), attempts;
    }
    if !OcrConfigured(config) {
      return Failure(BadRequest(Str(OcrUnavailable))), attempts;
    }
    attempts := attempts + [FormFile(file)];
    r := Success(FinanalyzOcrReply(finanalyz));
  }
}
