/**
 * `OcrService` (`src/modules/ocr/ocr.service.ts`): cheque OCR, routed once
 * per request to Digitap or to Google Vision, and the Finanalyz-first PAN
 * OCR chain.
 *
 * As in the verification services, every provider is an input: the
 * exchange with it is given as what it produced, and the methods return the
 * requests they would have sent alongside the result. An unset environment
 * variable is `""`.
 */
module Ocr {
  import opened Common
  import opened Text
  import opened Json
  import opened Errors
  import opened PanParser
  import opened PanOcr
  import opened GoogleVision
  import opened ChequeText
  import PanVerification
  import Credentials

  /** `DIGITAP_BASE_URL`, `DIGITAP_CLIENT_ID`, `DIGITAP_CLIENT_SECRET`, `FINANALYZ_OCR_URL`, `FINANALYZ_X_API_KEY`. */
  datatype OcrConfig = OcrConfig(
    digitapBaseUrl: string, digitapClientId: string, digitapClientSecret: string,
    finanalyzOcrUrl: string, finanalyzKey: string)

  // ---------------------------------------------------------------------------
  // Cheques: the Digitap route
  // ---------------------------------------------------------------------------

  /** The multipart fields of the Digitap cheque request; the image itself is not modelled. */
  datatype DigitapForm = DigitapForm(
    filename: string, contentType: string, clientRefId: string,
    isCompleteImage: string, accountHolderName: Option<string>)

  /** The providers a cheque request reaches. */
  datatype ChequeAttempt =
    | DigitapPost(url: string, authorization: string, form: DigitapForm)
    | VisionCheque

  /** How the Digitap call ended: a body with a 2xx status, or an axios error with its `response`. */
  datatype DigitapCall = Posted(data: Value) | Rejected(message: string, response: Value)

  /** One detected field of the Vision fallback. */
  datatype DetailField = DetailField(conf: real, value: string)

  /** `details` of the Vision fallback, field by field. */
  datatype ChequeDetails = ChequeDetails(
    accountNumber: DetailField, ifscCode: DetailField, chequeNumber: DetailField,
    date: DetailField, amount: DetailField, payeeName: DetailField, bankName: DetailField)

  datatype ChequeItem = ChequeItem(kind: string, details: ChequeDetails)

  /** The objects `processCheque` resolves with. */
  datatype ChequeReply =
    | DigitapFailure(status: Value, statusCode: int, error: Value, ocrReqId: Value, clientRefId: Value)
    | DigitapResult(status: Value, reportedCode: Option<int>, result: Value)
    | VisionResult(status: Value, statusCode: int, items: seq<ChequeItem>)

  const ValidImageRequired := "Valid image file is required"
  const DigitapFailed := "Digitap Cheque OCR failed"
  const ChequeFailed := "Cheque OCR failed"

  /** `isCompleteImage === 'yes' || isCompleteImage === 'true' || isCompleteImage === true` */
  predicate IsCompleteImage(v: Value)
  {
    v == Str("yes") || v == Str("true") || v == Bool(true)
  }

  /** Digitap is used when all three of its settings are set. */
  predicate DigitapConfigured(c: OcrConfig)
  {
    c.digitapBaseUrl != "" && c.digitapClientId != "" && c.digitapClientSecret != ""
  }

  /** `Number(statusCode) || 400`: `NaN` and `0` both become 400. */
  function FailureCode(statusCode: Value): (code: int)
    ensures code != 0
    ensures ToNumber(statusCode).Some? && ToNumber(statusCode).value != 0 ==> code == ToNumber(statusCode).value
    ensures ToNumber(statusCode).None? || ToNumber(statusCode) == Some(0) ==> code == 400
  {
    match ToNumber(statusCode)
    case Some(n) => if n != 0 then n else 400
    case None => 400
  }

  /** A Digitap body reporting `status === 'failure'`. */
  predicate IsFailureBody(data: Value)
  {
    Get(data, "status") == Str("failure")
  }

  /** The failure record passed back to the caller as it is. */
  function FailureRecord(data: Value): (r: ChequeReply)
    ensures r.DigitapFailure? && r.status == Get(data, "status") && r.statusCode != 0
    ensures r.error == Get(data, "error") && r.ocrReqId == Get(data, "ocrReqId") && r.clientRefId == Get(data, "clientRefId")
    ensures r.statusCode == FailureCode(Get(data, "statusCode"))
    ensures ToNumber(Get(data, "statusCode")).Some? && ToNumber(Get(data, "statusCode")).value != 0 ==>
              r.statusCode == ToNumber(Get(data, "statusCode")).value
  {
    DigitapFailure(Get(data, "status"), FailureCode(Get(data, "statusCode")),
                   Get(data, "error"), Get(data, "ocrReqId"), Get(data, "clientRefId"))
  }

  /**
   * `processChequeWithDigitap` once the request is sent. A failure body is
   * returned, whether it came with a 2xx status or on an error response. A
   * missing body makes `data.status` throw, which the method's own `catch`
   * turns into a `BadRequest`, as it does every other error.
   */
  function DigitapOutcome(call: DigitapCall): (r: Result<ChequeReply, Thrown>)
    ensures call.Posted? && IsFailureBody(call.data) ==> r == Success(FailureRecord(call.data))
    ensures call.Posted? && !IsFailureBody(call.data) && (call.data.Undef? || call.data.Null?) ==>
              r == Failure(BadRequest(Str(DigitapFailed)))
    ensures call.Posted? && !IsFailureBody(call.data) && !call.data.Undef? && !call.data.Null? ==>
              r == Success(DigitapResult(Get(call.data, "status"), ToNumber(Get(call.data, "statusCode")),
                                         Get(call.data, "result")))
    ensures call.Rejected? && IsFailureBody(Get(call.response, "data")) ==>
              r == Success(FailureRecord(Get(call.response, "data")))
    ensures call.Rejected? && !IsFailureBody(Get(call.response, "data")) ==>
              r == Failure(BadRequest(Or(Get(call.response, "data"), Str(DigitapFailed))))
  {
    match call
    case Posted(data) =>
      if IsFailureBody(data) then Success(FailureRecord(data))
      else if data.Undef? || data.Null? then Failure(BadRequest(Str(DigitapFailed)))
      else Success(DigitapResult(Get(data, "status"), ToNumber(Get(data, "statusCode")), Get(data, "result")))
    case Rejected(_, response) =>
      var data := Get(response, "data");
      if IsFailureBody(data) then Success(FailureRecord(data))
      else Failure(BadRequest(Or(data, Str(DigitapFailed))))
  }

  /** `processCheque`'s `catch`: `new BadRequestException(error?.message || 'Cheque OCR failed')`. */
  function Rewrap(e: Thrown): (r: Thrown)
    ensures r.HttpError? && r.status == 400
  {
    BadRequest(Or(MessageOf(e), Str(ChequeFailed)))
  }

  /** The request `processChequeWithDigitap` posts. */
  function DigitapRequest(config: OcrConfig, mimeType: string, clientRefId: string, accountHolderName: string,
                          complete: bool): (r: ChequeAttempt)
    ensures r.DigitapPost? && r.url == config.digitapBaseUrl + "/ocr/v1/cheque"
    ensures r.authorization == "Basic " + Credentials.BasicToken(config.digitapClientId, config.digitapClientSecret)
    ensures r.form.filename == "cheque.jpg" && r.form.contentType == mimeType && r.form.clientRefId == clientRefId
    ensures r.form.isCompleteImage == "yes" <==> complete
    ensures r.form.isCompleteImage == "no" <==> !complete
    ensures r.form.accountHolderName.Some? <==> accountHolderName != ""
    ensures r.form.accountHolderName.Some? ==> r.form.accountHolderName.value == accountHolderName
  {
    var token := Credentials.BasicToken(config.digitapClientId, config.digitapClientSecret);
    DigitapPost(config.digitapBaseUrl + "/ocr/v1/cheque", "Basic " + token,
                DigitapForm("cheque.jpg", mimeType, clientRefId, if complete then "yes" else "no",
                            if accountHolderName != "" then Some(accountHolderName) else None))
  }

  // ---------------------------------------------------------------------------
  // Cheques: the Google Vision route
  // ---------------------------------------------------------------------------

  /** `{ conf: 0.9, value: field || '' }` */
  function Detail(field: Option<string>): (d: DetailField)
    ensures d.conf == 0.9
    ensures d.value == field.GetOr("")
  {
    DetailField(0.9, field.GetOr(""))
  }

  /** The one cheque item of the Vision fallback. */
  function VisionItem(f: ChequeFields): ChequeItem
  {
    ChequeItem("cheque", ChequeDetails(Detail(f.accountNumber), Detail(f.ifscCode), Detail(f.chequeNumber),
                                       Detail(f.date), Detail(f.amount), Detail(f.payeeName), Detail(f.bankName)))
  }

  /**
   * `processChequeWithGoogleVision`: always a success with status code 200
   * and one `'cheque'` item built from `parseChequeText`; a Vision error is
   * passed on.
   */
  function VisionChequeReply(vision: Result<VisionReply, Thrown>): (r: Result<ChequeReply, Thrown>)
    ensures ExtractText(vision).Failure? ==> r == Failure(ExtractText(vision).error)
    ensures ExtractText(vision).Success? ==>
              r == Success(VisionResult(Str("success"), 200, [VisionItem(ParseCheque(ExtractText(vision).value))]))
  {
    match ExtractText(vision)
    case Failure(e) => Failure(e)
    case Success(lines) => Success(VisionResult(Str("success"), 200, [VisionItem(ParseCheque(lines))]))
  }

  /**
   * Every field of the Vision fallback has confidence 0.9 and holds what
   * the parser found, `""` when it found nothing; payee and bank are always `""`.
   */
  lemma VisionItemFields(lines: seq<string>)
    ensures var d := VisionItem(ParseCheque(lines)).details;
            d.accountNumber.conf == 0.9 && d.ifscCode.conf == 0.9 && d.chequeNumber.conf == 0.9 &&
            d.date.conf == 0.9 && d.amount.conf == 0.9 && d.payeeName.conf == 0.9 && d.bankName.conf == 0.9
    ensures var d := VisionItem(ParseCheque(lines)).details;
            d.payeeName.value == "" && d.bankName.value == ""
    ensures var d := VisionItem(ParseCheque(lines)).details;
            var s := SearchText(lines);
            d.accountNumber.value == FirstDigitWord(s, 9, 18).GetOr("") &&
            d.ifscCode.value == FirstIfsc(s).GetOr("") &&
            d.chequeNumber.value == FirstDigitWord(s, 6, 8).GetOr("") &&
            d.date.value == FirstDate(s).GetOr("") && d.amount.value == FirstAmount(s).GetOr("")
  {
  }

  /** A field the parser found is a non-empty value; an empty value means nothing was found. */
  lemma DetailEmptyIffMissing(lines: seq<string>)
    ensures var d := VisionItem(ParseCheque(lines)).details;
            (d.accountNumber.value == "" <==> ParseCheque(lines).accountNumber.None?) &&
            (d.ifscCode.value == "" <==> ParseCheque(lines).ifscCode.None?) &&
            (d.chequeNumber.value == "" <==> ParseCheque(lines).chequeNumber.None?) &&
            (d.date.value == "" <==> ParseCheque(lines).date.None?)
  {
    var f := ParseCheque(lines);
    if f.accountNumber.Some? {
      assert |f.accountNumber.value| >= 9;
    }
    if f.ifscCode.Some? {
      assert |f.ifscCode.value| == 11;
    }
    if f.chequeNumber.Some? {
      assert |f.chequeNumber.value| >= 6;
    }
    if f.date.Some? {
      assert |f.date.value| >= 6;
    }
  }

  // ---------------------------------------------------------------------------
  // processCheque
  // ---------------------------------------------------------------------------

  /** `!imageUrl || (!imageUrl.buffer && !imageUrl.path)` is false. */
  predicate HasImage(image: Option<Upload>)
  {
    image.Some? && (image.value.hasBuffer || image.value.path != "")
  }

  /** `imageUrl.mimetype || 'image/jpeg'` */
  function MimeType(file: Upload): (m: string)
    ensures m != ""
    ensures file.mimetype != "" ==> m == file.mimetype
    ensures file.mimetype == "" ==> m == "image/jpeg"
  {
    if file.mimetype != "" then file.mimetype else "image/jpeg"
  }

  /**
   * `processCheque(dto)`. The image is checked before anything is sent, and
   * `readFileSync` (whose outcome `read` gives, for an image without a
   * buffer) runs outside the `try`, so its error escapes as it is. The route
   * is fixed by the configuration: Digitap, whose errors the `catch` turns
   * into `BadRequest`s, or else Google Vision, whose promise is returned
   * without `await`, so its rejection escapes the `catch` unchanged.
   */
  method ProcessCheque(config: OcrConfig, image: Option<Upload>, clientRefId: string, accountHolderName: string,
                       isCompleteImage: Value, read: Result<(), Thrown>, digitap: DigitapCall,
                       vision: Result<VisionReply, Thrown>)
    returns (r: Result<ChequeReply, Thrown>, sent: seq<ChequeAttempt>)
    ensures !HasImage(image) ==> r == Failure(BadRequest(Str(ValidImageRequired))) && sent == []
    ensures HasImage(image) && !image.value.hasBuffer && read.Failure? ==> r == Failure(read.error) && sent == []
    ensures HasImage(image) && (image.value.hasBuffer || read.Success?) && DigitapConfigured(config) ==>
              sent == [DigitapRequest(config, MimeType(image.value), clientRefId, accountHolderName,
                                      IsCompleteImage(isCompleteImage))] &&
              r == (match DigitapOutcome(digitap)
                    case Success(reply) => Success(reply)
                    case Failure(e) => Failure(Rewrap(e)))
    ensures HasImage(image) && (image.value.hasBuffer || read.Success?) && !DigitapConfigured(config) ==>
              sent == [VisionCheque] && r == VisionChequeReply(vision)
  {
    if !HasImage(image) {
      return Failure(BadRequest(Str(ValidImageRequired))), [];
    }
    var file := image.value;
    var complete := IsCompleteImage(isCompleteImage);
    if !file.hasBuffer && read.Failure? {
      return Failure(read.error), [];
    }
    var mimeType := MimeType(file);
    if DigitapConfigured(config) {
      sent := [DigitapRequest(config, mimeType, clientRefId, accountHolderName, complete)];
      var outcome := DigitapOutcome(digitap);
      if outcome.Failure? {
        r := Failure(Rewrap(outcome.error));
      } else {
        r := Success(outcome.value);
      }
      return;
    }
    sent := [VisionCheque];
    r := VisionChequeReply(vision);
  }

  /** The Digitap form carries `isCompleteImage` as exactly `"yes"` or `"no"`, and the holder name only when given. */
  lemma DigitapFormFields(config: OcrConfig, mimeType: string, clientRefId: string, accountHolderName: string, v: Value)
    ensures var f := DigitapRequest(config, mimeType, clientRefId, accountHolderName, IsCompleteImage(v)).form;
            (f.isCompleteImage == "yes" <==> IsCompleteImage(v)) && (f.isCompleteImage == "no" <==> !IsCompleteImage(v))
    ensures var f := DigitapRequest(config, mimeType, clientRefId, accountHolderName, IsCompleteImage(v)).form;
            f.accountHolderName.Some? <==> accountHolderName != ""
    ensures DigitapRequest(config, mimeType, clientRefId, accountHolderName, IsCompleteImage(v)).authorization ==
            "Basic " + Credentials.BasicToken(config.digitapClientId, config.digitapClientSecret)
  {
  }

  /** Only the text `"yes"`, the text `"true"` and the boolean `true` count as a complete image; `"no"` does not. */
  lemma CompleteImageValues()
    ensures IsCompleteImage(Str("yes")) && IsCompleteImage(Str("true")) && IsCompleteImage(Bool(true))
    ensures !IsCompleteImage(Str("no")) && !IsCompleteImage(Str("YES")) && !IsCompleteImage(Bool(false)) && !IsCompleteImage(Undef)
  {
  }

  /**
   * A failure body gets the same reply whichever way it arrives, and its
   * status code is the one Digitap sent unless that reads as `0` or `NaN`.
   */
  lemma FailureBodyEitherWay(data: Value, message: string, response: Value)
    requires IsFailureBody(data) && Get(response, "data") == data
    ensures DigitapOutcome(Posted(data)) == DigitapOutcome(Rejected(message, response))
    ensures DigitapOutcome(Posted(data)).Success? && DigitapOutcome(Posted(data)).value.DigitapFailure?
    ensures DigitapOutcome(Posted(data)).value.statusCode != 0
    ensures ToNumber(Get(data, "statusCode")).Some? && ToNumber(Get(data, "statusCode")).value != 0 ==>
              DigitapOutcome(Posted(data)).value.statusCode == ToNumber(Get(data, "statusCode")).value
    ensures ToNumber(Get(data, "statusCode")).None? || ToNumber(Get(data, "statusCode")) == Some(0) ==>
              DigitapOutcome(Posted(data)).value.statusCode == 400
  {
  }

  /**
   * Through the two `catch`es, a Digitap call that fails without a failure
   * body reaches the caller as a `BadRequest`. Its message is the text
   * `'Digitap Cheque OCR failed'` when the error body is falsy, the body
   * when it is text; for an object body Nest's message taken from it: a
   * non-empty text `message`, `'Cheque OCR failed'` for an empty one, and
   * `'Bad Request Exception'` otherwise. An object body itself is never
   * passed on.
   */
  lemma DigitapErrorMessage(call: DigitapCall)
    requires DigitapOutcome(call).Failure?
    ensures Rewrap(DigitapOutcome(call).error).status == 400
    ensures var body := if call.Rejected? then Get(call.response, "data") else Undef;
            !Truthy(body) ==> Rewrap(DigitapOutcome(call).error) == BadRequest(Str(DigitapFailed))
    ensures var body := if call.Rejected? then Get(call.response, "data") else Undef;
            Truthy(body) && body.Str? ==> Rewrap(DigitapOutcome(call).error) == BadRequest(body)
    ensures var body := if call.Rejected? then Get(call.response, "data") else Undef;
            Truthy(body) && !body.Str? && !body.Arr? && Get(body, "message").Str? && Get(body, "message").s != "" ==>
              Rewrap(DigitapOutcome(call).error) == BadRequest(Get(body, "message"))
    ensures var body := if call.Rejected? then Get(call.response, "data") else Undef;
            Truthy(body) && !body.Str? && !body.Arr? && Get(body, "message").Str? && Get(body, "message").s == "" ==>
              Rewrap(DigitapOutcome(call).error) == BadRequest(Str(ChequeFailed))
    ensures var body := if call.Rejected? then Get(call.response, "data") else Undef;
            Truthy(body) && !body.Str? && (body.Arr? || !Get(body, "message").Str?) ==>
              Rewrap(DigitapOutcome(call).error) == BadRequest(Str("Bad Request Exception"))
  {
    BadRequestText(DigitapFailed);
  }

  // ---------------------------------------------------------------------------
  // ocrPan: Finanalyz OCR, then Google Vision
  // ---------------------------------------------------------------------------

  /** `data` of the PAN OCR reply. */
  datatype PanFields = PanFields(panNumber: Value, name: Value, dob: Value, fatherName: Value)

  /** The object `ocrPan` resolves with; an absent `message` is `None`. */
  datatype PanOcrResult = PanOcrResult(provider: string, success: bool, message: Option<string>, data: PanFields)

  const NotExtracted := "PAN could not be extracted from image"

  const Exhausted := PanOcrResult("NONE", false, Some(NotExtracted), PanFields(Str(""), Str(""), Str(""), Str("")))

  predicate FinanalyzOcrConfigured(c: OcrConfig)
  {
    c.finanalyzOcrUrl != "" && c.finanalyzKey != ""
  }

  /** `data?.data?.pan_number` when the exchange produced a body. */
  function FinanalyzPan(e: PanVerification.Exchange): Value
  {
    if e.Answered? then Get(Get(e.body, "data"), "pan_number") else Undef
  }

  /** The Finanalyz answer, when it is configured and found a PAN; a transport error is caught. */
  function FinanalyzHit(config: OcrConfig, e: PanVerification.Exchange): (r: Option<PanFields>)
    ensures r.Some? <==> FinanalyzOcrConfigured(config) && e.Answered? && Truthy(FinanalyzPan(e))
    ensures r.Some? ==> r.value.panNumber == FinanalyzPan(e)
    ensures r.Some? ==> var d := Get(e.body, "data");
              r.value.name == Or(Get(d, "name"), Str("")) && r.value.dob == Or(Get(d, "dob"), Str("")) &&
              r.value.fatherName == Or(Get(d, "father_name"), Str(""))
  {
    if FinanalyzOcrConfigured(config) && e.Answered? && Truthy(FinanalyzPan(e)) then
      var d := Get(e.body, "data");
      Some(PanFields(FinanalyzPan(e), Or(Get(d, "name"), Str("")), Or(Get(d, "dob"), Str("")),
                     Or(Get(d, "father_name"), Str(""))))
    else None
  }

  /** `{pan_number: panNumber, name: name || '', ...}` from the parsed Vision lines. */
  function VisionFields(res: PanParseResult): PanFields
  {
    PanFields(Str(res.panNumber.GetOr("")), Str(res.name.GetOr("")), Str(res.dob.GetOr("")), Str(res.fatherName.GetOr("")))
  }

  /**
   * `OcrService.ocrPan(file)`: Finanalyz OCR first, when configured, taken
   * when it names a PAN; then Vision, taken when the parser finds a PAN on a
   * text that is no payment document; else the `'NONE'` reply.
   */
  method OcrPan(config: OcrConfig, file: Option<Upload>, readable: bool, finanalyz: PanVerification.Exchange,
                vision: Result<VisionReply, Thrown>)
    returns (r: Result<PanOcrResult, Thrown>, attempts: seq<Attempt>)
    ensures file.None? ==> r == Failure(BadRequest(Str(PanVerification.ImageRequired))) && attempts == []
    ensures file.Some? && !PanVerification.ImageRead(file, readable) ==>
              r == Failure(BadRequest(Str(UnreadableImage))) && attempts == []
    ensures PanVerification.ImageRead(file, readable) ==>
              r == Success(PanOcrChain(config, file.value, finanalyz, vision).0) &&
              attempts == PanOcrChain(config, file.value, finanalyz, vision).1
  {
    if file.None? {
      return Failure(BadRequest(Str(PanVerification.ImageRequired))), [];
    }
    var read := ReadImage(file.value, readable);
    if read.Failure? {
      return Failure(read.error), [];
    }
    var reply;
    reply, attempts := RecognisePan(config, file.value, finanalyz, vision);
    r := Success(reply);
  }

  /**
   * The reply and the attempts of the two OCR stages, from what each stage
   * found: the Finanalyz fields (`configured` saying whether it was asked)
   * and the accepted Vision reading.
   */
  function Stages(configured: bool, file: Upload, hit: Option<PanFields>, res: Option<PanParseResult>):
    (r: (PanOcrResult, seq<Attempt>))
    ensures hit.Some? ==> r == (PanOcrResult("FINANALYZ_OCR", true, None, hit.value), if configured then [FormFile(file)] else [])
    ensures hit.None? && res.Some? ==> r.0 == PanOcrResult("GOOGLE_VISION", true, None, VisionFields(res.value))
    ensures hit.None? && res.None? ==> r.0 == Exhausted
    ensures hit.None? ==> r.1 == (if configured then [FormFile(file)] else []) + [VisionOcr]
  {
    var tried := if configured then [FormFile(file)] else [];
    match hit
    case Some(fields) => (PanOcrResult("FINANALYZ_OCR", true, None, fields), tried)
    case None =>
      match res
      case Some(parsed) => (PanOcrResult("GOOGLE_VISION", true, None, VisionFields(parsed)), tried + [VisionOcr])
      case None => (Exhausted, tried + [VisionOcr])
  }

  /** The two OCR stages of `ocrPan`, once the image is read. */
  function PanOcrChain(config: OcrConfig, file: Upload, finanalyz: PanVerification.Exchange,
                       vision: Result<VisionReply, Thrown>): (PanOcrResult, seq<Attempt>)
  {
    Stages(FinanalyzOcrConfigured(config), file, FinanalyzHit(config, finanalyz), PanVerification.VisionHit(vision))
  }

  /** The two stages with the early returns of the source. */
  method RecognisePan(config: OcrConfig, file: Upload, finanalyz: PanVerification.Exchange,
                      vision: Result<VisionReply, Thrown>)
    returns (reply: PanOcrResult, attempts: seq<Attempt>)
    ensures (reply, attempts) == PanOcrChain(config, file, finanalyz, vision)
  {
    attempts := [];
    if FinanalyzOcrConfigured(config) {
      attempts := [FormFile(file)];
      var hit := FinanalyzHit(config, finanalyz);
      if hit.Some? {
        return PanOcrResult("FINANALYZ_OCR", true, None, hit.value), attempts;
      }
    }
    assert FinanalyzHit(config, finanalyz).None?;
    assert attempts == if FinanalyzOcrConfigured(config) then [FormFile(file)] else [];
    attempts := attempts + [VisionOcr];
    var res := PanVerification.VisionHit(vision);
    if res.Some? {
      return PanOcrResult("GOOGLE_VISION", true, None, VisionFields(res.value)), attempts;
    }
    reply := Exhausted;
  }

  /**
   * A success names its provider and a PAN: a truthy Finanalyz value, or a
   * Vision PAN of the accepted format. The exhausted chain reports every
   * field as `""`.
   */
  lemma PanOcrOutcomes(config: OcrConfig, file: Upload, finanalyz: PanVerification.Exchange,
                       vision: Result<VisionReply, Thrown>)
    ensures var reply := PanOcrChain(config, file, finanalyz, vision).0;
            reply.success <==> reply.provider != "NONE"
    ensures var reply := PanOcrChain(config, file, finanalyz, vision).0;
            reply.success ==> Truthy(reply.data.panNumber) && reply.message.None?
    ensures var reply := PanOcrChain(config, file, finanalyz, vision).0;
            reply.provider == "GOOGLE_VISION" ==> reply.data.panNumber.Str? && IsValidPanFormat(reply.data.panNumber.s)
    ensures var reply := PanOcrChain(config, file, finanalyz, vision).0;
            !reply.success ==> reply.message == Some(NotExtracted) &&
                               reply.data == PanFields(Str(""), Str(""), Str(""), Str(""))
  {
    PanVerification.VisionHitIff(vision);
  }

  /** Vision is consulted only when Finanalyz is unconfigured, failed, or found no PAN. */
  lemma VisionOnlyAfterFinanalyz(config: OcrConfig, file: Upload, finanalyz: PanVerification.Exchange,
                                 vision: Result<VisionReply, Thrown>)
    ensures VisionOcr in PanOcrChain(config, file, finanalyz, vision).1 <==> FinanalyzHit(config, finanalyz).None?
  {
  }

  /**
   * A Finanalyz reading is final: Vision is not asked and its outcome does
   * not matter. (`PanVerificationService.ocrPan` runs the stages the other
   * way round, so there a Vision reading is final.)
   */
  lemma FinanalyzHitIsFinal(config: OcrConfig, file: Upload, finanalyz: PanVerification.Exchange,
                            vision1: Result<VisionReply, Thrown>, vision2: Result<VisionReply, Thrown>)
    requires FinanalyzOcrConfigured(config) && finanalyz.Answered? && Truthy(FinanalyzPan(finanalyz))
    ensures PanOcrChain(config, file, finanalyz, vision1) == PanOcrChain(config, file, finanalyz, vision2)
    ensures PanOcrChain(config, file, finanalyz, vision1).0.provider == "FINANALYZ_OCR"
    ensures PanOcrChain(config, file, finanalyz, vision1).1 == [FormFile(file)]
  {
  }
}
