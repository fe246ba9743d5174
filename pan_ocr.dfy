/**
 * What the two PAN OCR chains (`ocrPan` in
 * `src/modules/pan-verification/pan-verification.service.ts` and in
 * `src/modules/ocr/ocr.service.ts`) share: reading the uploaded image, the
 * payment-document test and the acceptance of Google Vision's lines.
 */
module PanOcr {
  import opened Common
  import opened Text
  import opened Errors
  import opened PanParser
  import PanParserProps

  /**
   * An uploaded file: whether Multer kept it in memory, the path it stored
   * it at (`""` when none), its original name and its MIME type.
   */
  datatype Upload = Upload(hasBuffer: bool, path: string, originalname: string, mimetype: string)

  /** The providers an OCR chain contacts, with the form-data file fields sent to Finanalyz. */
  datatype Attempt = FinanalyzOcr(filename: string, contentType: string) | VisionOcr

  const UnreadableImage := "Invalid or unreadable PAN image"

  /**
   * `file.buffer ?? (file.path ? await readFile(file.path) : null)`, with the
   * missing-buffer check: a buffer, or a path whose file `readable` says
   * could be read; anything else becomes a `BadRequest`.
   */
  function ReadImage(file: Upload, readable: bool): (r: Result<(), Thrown>)
    ensures r.Success? <==> file.hasBuffer || (file.path != "" && readable)
    ensures r.Failure? ==> r.error == BadRequest(Json.Str(UnreadableImage))
  {
    if file.hasBuffer || (file.path != "" && readable) then Success(())
    else Failure(BadRequest(Json.Str(UnreadableImage)))
  }

  /** The form-data file fields: `file.originalname || 'pan.jpg'` and `file.mimetype || 'image/jpeg'`. */
  function FormFile(file: Upload): (a: Attempt)
    ensures a.FinanalyzOcr? && a.filename != "" && a.contentType != ""
    ensures a.filename == (if file.originalname == "" then "pan.jpg" else file.originalname)
    ensures a.contentType == (if file.mimetype == "" then "image/jpeg" else file.mimetype)
  {
    FinanalyzOcr(if file.originalname != "" then file.originalname else "pan.jpg",
                 if file.mimetype != "" then file.mimetype else "image/jpeg")
  }

  /** The alternatives of `/payment|payments|paytm|upi/i`, upper-cased. */
  const PaymentKeywords: seq<string> := ["PAYMENT", "PAYMENTS", "PAYTM", "UPI"]

  /**
   * `/payment|payments|paytm|upi/i.test(text)`: the case-insensitive match of
   * an ASCII pattern is a match in the ASCII upper-cased text.
   */
  predicate IsPaymentText(text: string)
  {
    ContainsAny(ToUpper(text), PaymentKeywords)
  }

  /** `lines.join('\n').trim()` */
  function FullText(lines: seq<string>): string
  {
    Trim(Join(lines, "\n"))
  }

  /** Vision's lines are taken when the parser finds a PAN and the text is no payment document. */
  predicate VisionAccepts(lines: seq<string>)
  {
    ParsePan(lines).panNumber.Some? && !IsPaymentText(FullText(lines))
  }

  /** A text that includes `PAYMENTS` includes `PAYMENT`. */
  lemma PaymentsIncludesPayment(s: string)
    requires Contains(s, "PAYMENTS")
    ensures Contains(s, "PAYMENT")
  {
    var i := ContainsWitness(s, "PAYMENTS");
    assert s[i..i + 7] == s[i..i + 8][..7];
    ContainsAt(s, "PAYMENT", i);
  }

  /** The alternative `payments` adds nothing: `payment` already matches wherever it does. */
  lemma PaymentsRedundant(text: string)
    ensures IsPaymentText(text) <==>
            Contains(ToUpper(text), "PAYMENT") || Contains(ToUpper(text), "PAYTM") || Contains(ToUpper(text), "UPI")
  {
    var u := ToUpper(text);
    ContainsAnyIff(u, PaymentKeywords);
    assert PaymentKeywords[0] == "PAYMENT" && PaymentKeywords[1] == "PAYMENTS";
    assert PaymentKeywords[2] == "PAYTM" && PaymentKeywords[3] == "UPI";
    if Contains(u, "PAYMENTS") {
      PaymentsIncludesPayment(u);
    }
  }

  /**
   * The test ignores case: texts that differ only in the case of their
   * letters get the same verdict, and `UPI`, `upi` and `Upi` all mark a
   * payment document.
   */
  lemma PaymentTestIgnoresCase(a: string, b: string)
    requires ToUpper(a) == ToUpper(b)
    ensures IsPaymentText(a) <==> IsPaymentText(b)
    ensures IsPaymentText(a) <==> IsPaymentText(ToUpper(a))
    ensures IsPaymentText("UPI") && IsPaymentText("upi") && IsPaymentText("Upi")
  {
    ToUpperIdempotent(a);
    assert ToUpper("upi") == "UPI" && ToUpper("Upi") == "UPI" && ToUpper("UPI") == "UPI";
    ContainsAnyIff("UPI", PaymentKeywords);
    assert PaymentKeywords[3] == "UPI";
    assert Contains("UPI", "UPI") by { ContainsAt("UPI", "UPI", 0); }
  }

  /** The PAN of accepted Vision lines passes `isValidPanFormat`. */
  lemma VisionPanIsValid(lines: seq<string>)
    requires VisionAccepts(lines)
    ensures IsValidPanFormat(ParsePan(lines).panNumber.value)
  {
    PanParserProps.PanNumberIsValidFormat(lines);
  }
}
