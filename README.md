# FinTree-Sandbox PAN and OCR decision logic in Dafny

This project models the decision logic of the FinTree-Sandbox KYC gateway, a NestJS service in front of several identity
and document providers. The external providers are Finanalyz and Zoop for PAN verification, Google Vision and
Finanalyz OCR for PAN cards, Digitap for cheques and Aadhaar, and RFC 4648 base 64 for the Digitap credential.

It covers:

- **PAN text extraction** (`parsePanText`, `isValidPanFormat`, `maskPan`). The Dafny has two parts:
  - a specification by functions (`PanParser`);
  - the step-by-step parser with its loops and in-place array pushes (`PanParserImpl.ParsePanText`), proved equal to
    that specification.

  On top of both, the lemmas of `PanParserProps` prove:
  - the PAN is the leftmost PAN-shaped stretch and lies within one line;
  - the PAN that is found always passes `isValidPanFormat`;
  - the first label hit of each kind wins;
  - the date of birth comes only from after a date-of-birth label;
  - the positional fallback picks the lowest name-like line above the PAN;
  - cleaned names hold only capitals and inner white space;
  - `maskPan`'s shape.
- **PAN verification** (`validatePan`, `verifyPan`, `getPanDetails` of both PAN services). The input checks come
  first. Then Finanalyz is asked; an answer from it is final. Zoop is asked only when Finanalyz gave no answer. With
  neither, the result is `provider: 'NONE'`.
  - Each provider call is an input: a transport error, or the body received.
  - A missing configuration is decided by the configuration record and behaves like a transport error.
- **The two PAN OCR chains**, modelled separately because they run in opposite orders:
  - `PanVerificationService.ocrPan`: Vision, then Finanalyz OCR;
  - `OcrService.ocrPan`: Finanalyz OCR, then Vision, then `'NONE'`.

  Both use the payment-document test.
- **Cheque OCR**: `processCheque` and the two routes behind it.
  - The route is chosen statically: Digitap when it is configured, else Google Vision.
  - `isCompleteImage` is normalised.
  - A Digitap `failure` body passes through, both when returned normally and on an error response.
  - Every other error is rewrapped.
  - The regular expressions of `parseChequeText` are stated exactly: word boundaries, greedy runs, leftmost matches.
- **The Aadhaar service's token cache** (`getToken`). It is a class whose two fields change as in the source.
  The lemmas show:
  - a fresh token is reused;
  - a granted token is valid for at least a minute;
  - a failed exchange changes nothing.
- **The Aadhaar service's other helpers**: the static credential, the `fetchKycDetails` success test and `handleError`.
  For the credential, a UTF-8 and base 64 (section 4 of RFC 4648) encoder is proved to round-trip, so the receiving
  side recovers the client id and secret.
- **The response interceptor**: the wrapped body, the service and endpoint read from the URL, and the log status.
- **The exception filter**: the status, message and error chosen for every kind of thrown value.
- **Google Vision's line normalisation**: split on newlines, trim, drop empty lines.

JavaScript values the code inspects are the datatype `Json.Value`. It keeps `undefined` apart from `null`, and
implements truthiness, `||`, optional chaining and `Number()`. JavaScript's `trim` and `\s` are the set of white-space
characters in `Text.IsWs`. `toUpperCase` maps ASCII letters only.

The modules follow the source files:

| file | module | source |
|---|---|---|
| `text.dfy` | `Text` | string helpers |
| `json.dfy` | `Json` | JavaScript values |
| `common.dfy` | `Common` | `Option`, `Result` |
| `patterns.dfy` | `Patterns` | fixed-width regular expressions |
| `errors.dfy` | `Errors` | Nest exceptions |
| `pan_parser.dfy` | `PanParser` | `pan-parser.util.ts`, specification |
| `pan_parser_impl.dfy` | `PanParserImpl` | `pan-parser.util.ts`, loops |
| `pan_parser_props.dfy` | `PanParserProps` | `pan-parser.util.ts`, lemmas |
| `pan_ocr.dfy` | `PanOcr` | what the two OCR chains share |
| `pan_verification.dfy` | `PanVerification` | `pan-verification.service.ts` and `pan.service.ts` |
| `google_vision.dfy` | `GoogleVision` | `google-vision.service.ts` |
| `cheque_text.dfy` | `ChequeText` | `parseChequeText` |
| `ocr.dfy` | `Ocr` | `ocr.service.ts` |
| `utf8.dfy`, `base64.dfy`, `credentials.dfy` | `Utf8`, `Base64`, `Credentials` | the Digitap credential |
| `aadhaar.dfy` | `Aadhaar` | `aadhaar.service.ts` |
| `response_interceptor.dfy` | `ResponseInterceptor` | `response.interceptor.ts` |
| `exception_filter.dfy` | `ExceptionFilter` | `http-exception.filter.ts` |

## Model

| member | source | states |
|---|---|---|
| PanParser.OriginalLines | src/utils/pan-parser.util.ts:34 | every line is trimmed, and the order and number of lines are kept |
| PanParser.UpperLines | src/utils/pan-parser.util.ts:37 | every line is upper-cased, then trimmed, with the order and number of lines kept |
| PanParser.ValueLineFrom | src/utils/pan-parser.util.ts:79-91 | the scan after a name or father label stops at the first line that passes the value test; no earlier line passes it |
| PanParser.DobLineFrom | src/utils/pan-parser.util.ts:116-123 | the scan after a date-of-birth label stops at the first line that holds a date; no earlier line holds one |
| PanParser.FindKindIsFirst | src/utils/pan-parser.util.ts:129-131 | `labelIndices.find` returns the hit at the first index holding the requested kind, and nothing exactly when no hit has that kind |
| PanParserProps.FindKindConcat | src/utils/pan-parser.util.ts:129-131 | `find` over two lists laid end to end gives the first list's hit of the kind, else the second's |
| PanParser.PanLineIndex | src/utils/pan-parser.util.ts:164 | `findIndex` gives the first line that includes the PAN, or -1 when no line does |
| PanParser.Before | src/utils/pan-parser.util.ts:167 | `filter` keeps exactly the potential names on lines above the bound |
| PanParser.FirstBelowIsFirst | src/utils/pan-parser.util.ts:179 | `find` returns the potential name at the first index whose line lies above the father label, and nothing exactly when none does |
| PanParser.FirstOtherIsFirst | src/utils/pan-parser.util.ts:185 | `find` returns the potential name at the first index whose text differs from the name, and nothing exactly when none does |
| PanParser.NameLineIndex | src/utils/pan-parser.util.ts:196 | the first original line whose upper-cased text includes the upper-cased name, or -1 |
| PanParser.FatherLineAfter | src/utils/pan-parser.util.ts:199-206 | looks at most four lines after the name's line and returns the first that passes the father test |
| PanParser.KeepUpperAndWs | src/utils/pan-parser.util.ts:212 | `replace(/[^A-Z\s]/g, '')` keeps every capital and white-space character of the input, and nothing else |
| PanParserProps.KeepUpperAndWsConcat | src/utils/pan-parser.util.ts:212 | the replacement works character by character: the result for two texts end to end is their results end to end, so the order is kept |
| PanParser.Clean | src/utils/pan-parser.util.ts:211-216 | a cleaned value is no longer than the input and, when not empty, starts and ends with a capital |
| PanParserProps.NameLineIsClean | src/utils/pan-parser.util.ts:151-212 | a line that passes the name pattern is unchanged by the cleanup (lines 151 and 212) |
| PanParser.ParsePan | src/utils/pan-parser.util.ts:29-31 | an empty array of lines gives four null fields |
| PanParser.MaskPan | src/utils/pan-parser.util.ts:239-244 | an input shorter than five characters (including the empty one) is returned unchanged; any other input gives its first five characters plus `XXXX`, nine characters in all |
| PanParserImpl.ScanValueLine | src/utils/pan-parser.util.ts:79-91 | the inner `for` loop with `break` finds the value the specification assigns to a name or father label |
| PanParserImpl.ScanDobLine | src/utils/pan-parser.util.ts:116-123 | the inner `for` loop with `break` finds the date the specification assigns to a date-of-birth label |
| PanParserImpl.PushValueHits | src/utils/pan-parser.util.ts:76-111 | the loop over the name or father labels pushes exactly the specified hits onto `labelIndices` |
| PanParserImpl.PushDobHits | src/utils/pan-parser.util.ts:114-125 | the loop over the date-of-birth labels pushes exactly the specified hits |
| PanParserImpl.CollectLabels | src/utils/pan-parser.util.ts:72-126 | `labelIndices` holds all hits, line by line and in push order (name, then father, then date of birth) |
| PanParserImpl.CollectCandidates | src/utils/pan-parser.util.ts:146-160 | `potentialNames` holds, in line order, the original text of every line that passes the name tests |
| PanParserImpl.ScanFatherAfterName | src/utils/pan-parser.util.ts:199-206 | the loop with `break` finds the first line after the name that passes the father test, within four lines |
| PanParserImpl.FillByPosition | src/utils/pan-parser.util.ts:145-192 | the positional fallback block computes the specified result |
| PanParserImpl.FillFatherAfterName | src/utils/pan-parser.util.ts:195-208 | the after-name block computes the specified result |
| PanParserImpl.ParsePanText | src/utils/pan-parser.util.ts:21-219 | the imperative `parsePanText` returns exactly `ParsePan(lines)` |
| PanParserProps.PreparedLines | src/utils/pan-parser.util.ts:34-37 | an upper line is its original line upper-cased, and has the same length |
| PanParserProps.PositionalOnlyFills | src/utils/pan-parser.util.ts:169-175 | the positional fallback never changes the PAN, the date of birth, or a name or father's name already set (lines 169 and 175) |
| PanParserProps.AfterNameOnlyFills | src/utils/pan-parser.util.ts:195 | the after-name search changes only a missing father's name |
| PanParserProps.AfterNamePick | src/utils/pan-parser.util.ts:195-206 | when the after-name search sets the father's name, it is the original text of the first line, at most four lines after the name's line, that passes the name pattern, is not skipped and differs from the name |
| PanParserProps.PanAndDobFromLabelStage | src/utils/pan-parser.util.ts:40-141 | the final PAN is the PAN scan's, and the final date of birth is the first date-of-birth hit's (lines 40-45 and 139-141) |
| PanParserProps.PanIsLeftmostMatch | src/utils/pan-parser.util.ts:40-45 | the PAN is the leftmost stretch of 5 letters, 4 digits and 1 letter in the space-joined, upper-cased lines; there is no PAN exactly when there is no such stretch |
| PanParserProps.FindPanLeftmost | src/utils/pan-parser.util.ts:40-45 | the PAN scan gives the leftmost PAN-shaped stretch of the space-joined upper lines, and nothing exactly when there is none |
| PanParserProps.FindPanWithinOneLine | src/utils/pan-parser.util.ts:40-45 | a PAN found by the scan lies wholly inside one upper line |
| PanParserProps.FindPanNoneIff | src/utils/pan-parser.util.ts:40-45 | the scan finds nothing exactly when no single upper line holds a PAN-shaped stretch |
| PanParserProps.PanWithinOneLine | src/utils/pan-parser.util.ts:40-45 | the PAN found lies wholly inside one upper line |
| PanParserProps.NoPanIffNoLineMatches | src/utils/pan-parser.util.ts:40-45 | no PAN is reported exactly when no single line holds a PAN-shaped stretch |
| PanParserProps.ValidPanFormatIff | src/utils/pan-parser.util.ts:226-232 | `isValidPanFormat` holds exactly for 10 characters: 5 letters of either case, 4 digits, 1 letter |
| PanParserProps.PanNumberIsValidFormat | src/utils/pan-parser.util.ts:40-232 | every PAN `parsePanText` returns passes `isValidPanFormat` (lines 40-45 and 226-232) |
| PanParserProps.HitsForShape | src/utils/pan-parser.util.ts:76-93 | one label loop pushes a hit only if a label occurs on the line and a value was found, and then pushes only that hit |
| PanParserProps.FirstHitOfKind | src/utils/pan-parser.util.ts:72-131 | `labelIndices.find` for a kind gives the hit of the first line that has a label of that kind with a value after it |
| PanParserProps.HitValueNonEmpty | src/utils/pan-parser.util.ts:81-141 | a recorded label value is never empty, so the `hit.value` test always passes (lines 81-84 and 133-141) |
| PanParserProps.LabelNameWins | src/utils/pan-parser.util.ts:129-169 | the first name-label hit supplies the name; it is cleaned and never overwritten (lines 129-134 and 169) |
| PanParserProps.LabelFatherWins | src/utils/pan-parser.util.ts:130-195 | the first father-label hit supplies the father's name; it is cleaned and never overwritten (lines 130-137, 175 and 195) |
| PanParserProps.DobHitShape | src/utils/pan-parser.util.ts:114-125 | a recorded date of birth is `DD?MM?YYYY` (`?` is `/`, `-` or `.`). It is the leftmost date on the first date-bearing line after the first date-of-birth label that has a date after it |
| PanParserProps.DobFromLabel | src/utils/pan-parser.util.ts:113-141 | a date of birth in the result comes only from a line after a date-of-birth label, as above (lines 113-124 and 139-141) |
| PanParserProps.FatherLabelBranchUnused | src/utils/pan-parser.util.ts:178-182 | the positional fallback behaves as if no father label existed, because a father hit always sets the father's name first |
| PanParserProps.NoPanLabelsOnly | src/utils/pan-parser.util.ts:163-195 | without a PAN, the name and the father's name come from labels alone (lines 163 and 195) |
| PanParserProps.BeforeCandidates | src/utils/pan-parser.util.ts:146-167 | the potential names above a line are exactly those that the lines above it contribute |
| PanParserProps.CandidatesMembers | src/utils/pan-parser.util.ts:153-158 | every potential name is the original text of a line that passes the name-pattern, length, skip and not-the-PAN tests |
| PanParserProps.CandidatesLast | src/utils/pan-parser.util.ts:148-171 | the last potential name among the first lines is the lowest of them that passes the tests (lines 148-160 and 171) |
| PanParserProps.PositionalName | src/utils/pan-parser.util.ts:163-173 | without a name label, the name is set exactly when a line above the PAN's line looks like a name; it is then the lowest such line, cleaned |
| PanParserProps.PositionalFather | src/utils/pan-parser.util.ts:175-189 | a positional father's name needs a PAN and two potential names above it, and differs from the name |
| PanParserProps.CleanShape | src/utils/pan-parser.util.ts:211-216 | a cleaned value holds only capitals and white space, with none at either end |
| PanParserProps.CleanIdempotent | src/utils/pan-parser.util.ts:211-216 | cleaning twice is cleaning once |
| PanParserProps.CleanedNames | src/utils/pan-parser.util.ts:210-216 | the name and father's name returned are already clean, so lower-case letters of the original lines are gone |
| PanParserProps.SigneNeverMatchesUpper | src/utils/pan-parser.util.ts:51-65 | the skip keyword `'Signe'` never occurs in an upper-cased line (lines 51 and 65) |
| PanParserProps.MaskPanIdempotent | src/utils/pan-parser.util.ts:239-244 | masking a masked PAN changes nothing |
| PanParserProps.MaskPanSameIff | src/utils/pan-parser.util.ts:239-244 | two PANs mask alike exactly when their first five characters agree |
| Patterns.FirstMatch | src/utils/pan-parser.util.ts:42 | `match` of a fixed-width pattern gives the leftmost matching stretch, or none when nothing matches |
| Text.Trim | src/utils/pan-parser.util.ts:34 | `trim` gives the slice of its input left after dropping white space at both ends: every dropped character is white space, and the slice neither starts nor ends with white space |
| Text.TrimUpperCommute | src/utils/pan-parser.util.ts:34-37 | trimming then upper-casing equals upper-casing then trimming |
| Text.SplitJoin | src/modules/ocr/google-vision.service.ts:34 | joining the pieces of `split` with the separator gives back the text |
| PanVerification.Answer | src/modules/pan-verification/pan-verification.service.ts:174-304 | a provider gives an answer exactly when it is configured and answered. A missing configuration (a swallowed throw) and a transport error both give none (lines 174-177, 206-209, 215-218, 261-263 and 299-304) |
| PanVerification.FinanalyzVerdict | src/modules/pan-verification/pan-verification.service.ts:265-295 | an answered Finanalyz call is final. It is verified exactly when `code === 200 && isValid === true`, with the details and score 100. Otherwise the message defaults to `'PAN verification failed'` |
| PanVerification.FinanalyzDetailsFields | src/modules/pan-verification/pan-verification.service.ts:275-285 | the details hold the named fields and every field of the answer unchanged, and score 100 |
| PanVerification.ZoopVerdict | src/modules/pan-verification/pan-verification.service.ts:304-345 | an answered Zoop call is final. It is verified exactly when `response_code === '100'`, `pan_status === 'VALID'` and the score is at least 80. Otherwise the message is the name-mismatch text or `response_message`, else `'PAN not valid'` |
| PanVerification.NameMatchScore | src/modules/pan-verification/pan-verification.service.ts:308 | a missing or falsy score counts as 0 |
| PanVerification.MissingScoreIsZero | src/modules/pan-verification/pan-verification.service.ts:308-335 | a valid answer without a score is a name mismatch at 0% |
| PanVerification.TextScoreThreshold | src/modules/pan-verification/pan-verification.service.ts:308-310 | a score sent as decimal text verifies exactly from 80 up |
| PanVerification.NumericScoreThreshold | src/modules/pan-verification/pan-verification.service.ts:308-310 | a numeric score verifies exactly from 80 up |
| PanVerification.WrappedScore | src/modules/pan-verification/pan-verification.service.ts:308 | a score sent as a one-element array is read as that element, as `Number` reads arrays through their joined text |
| PanVerification.StrictProviderTests | src/modules/pan-verification/pan-verification.service.ts:269-310 | the provider tests are strict equalities: a text `code` or `isValid` fails Finanalyz's test, a numeric `response_code` or a lower-case `pan_status` fails Zoop's, and a `NaN` score is refused (lines 269, 307 and 310) |
| Json.ToNumber | src/modules/pan-verification/pan-verification.service.ts:308 | `Number(v)`: a number is itself, `undefined` and objects are `NaN`, `null` and `[]` are 0, a string is read as trimmed decimal digits, and an array is read through its comma-joined text |
| Json.SingletonArrayNumber | src/modules/pan-verification/pan-verification.service.ts:308 | a one-element array of text or of a natural number converts as its element does |
| PanVerification.ZoopDetailsFields | src/modules/pan-verification/pan-verification.service.ts:316-325 | the details carry the score, the PAN and the name on the card |
| PanVerification.Chain | src/modules/pan-verification/pan-verification.service.ts:259-354 | Finanalyz is asked first, then Zoop only without a Finanalyz answer. `success` holds exactly when a provider answered. The provider is `'NONE'` exactly when neither did, and verified implies success |
| PanVerification.NormalisedPan | src/modules/pan-verification/pan-verification.service.ts:254 | for an accepted PAN, `toUpperCase().trim()` is the upper-cased PAN and is still of the accepted format |
| PanVerification.Validation | src/modules/pan-verification/pan-verification.service.ts:246-355 | a bad PAN (tested untrimmed) or a blank name is refused before any request. Otherwise the result is the chain over the two answers, and the requests carry the normalised PAN and trimmed name |
| PanVerification.ValidatePan | src/modules/pan/pan.service.ts:111-220 | the step-by-step `validatePan` of both services gives exactly `Validation` |
| PanVerification.AskProviders | src/modules/pan/pan.service.ts:124-219 | the reassigned `finResult`/`zoopResult` and early returns give the chain's verdict and the specified requests |
| PanVerification.VerifyPan | src/modules/pan/pan.service.ts:223-226 | an absent or empty name is refused with `'Name is required'` and no request; otherwise it is `validatePan` |
| PanVerification.GetPanDetails | src/modules/pan/pan.service.ts:228-240 | always succeeds, echoing the PAN, with a null name and status `'PENDING_VERIFICATION'` |
| PanVerification.FinanalyzAnswerIsFinal | src/modules/pan/pan.service.ts:130-161 | once Finanalyz answers, its verdict is the result whatever Zoop would do, and the one request sent is Finanalyz's, with the upper-cased PAN |
| PanVerification.UnconfiguredLikeTransportError | src/modules/pan/pan.service.ts:80-128 | a missing Finanalyz configuration has the same outcome as a Finanalyz transport error (lines 80-83, 102-105 and 126-128) |
| PanVerification.ZoopAskedIff | src/modules/pan/pan.service.ts:39-169 | Zoop is asked exactly when it is configured and Finanalyz gave no answer, with the upper-cased PAN and name (lines 39-48 and 164-169) |
| PanVerification.RequestsCarryValidPan | src/modules/pan/pan.service.ts:85-119 | every request sent carries the upper-cased PAN, which has the accepted format (lines 85 and 112-119) |
| PanVerification.VerifiedNeedsAnswer | src/modules/pan/pan.service.ts:134-175 | a verified result needs an answer from a configured provider whose own verdict accepted it (lines 134 and 172-175) |
| PanVerification.VisionHitIff | src/modules/pan-verification/pan-verification.service.ts:72-112 | Vision is accepted exactly when its call succeeded, a PAN was parsed and no payment keyword occurs; its PAN then has the accepted format |
| PanVerification.VisionErrorFallsThrough | src/modules/pan-verification/pan-verification.service.ts:110-112 | a failed Vision call is caught and the chain moves on |
| PanVerification.VisionRawFields | src/modules/pan-verification/pan-verification.service.ts:89-104 | the Vision reply names `GOOGLE_VISION` and carries the four parsed fields, null where absent |
| PanVerification.FinanalyzOcrReply | src/modules/pan-verification/pan-verification.service.ts:128-164 | succeeds exactly when the answer has a truthy `data.pan_number`. Any other answer, or a request error, fails with provider `FINANALYZ_OCR` |
| PanVerification.OcrPan | src/modules/pan-verification/pan-verification.service.ts:53-165 | a missing or unreadable image is refused. Vision is tried first. Missing Finanalyz OCR configuration throws `'OCR service not available'`. Otherwise Finanalyz's reply is returned |
| PanVerification.RecognisePan | src/modules/pan-verification/pan-verification.service.ts:70-164 | the two stages as above, with the providers contacted in order |
| PanOcr.ReadImage | src/modules/pan-verification/pan-verification.service.ts:59-66 | an image is read exactly when it has a buffer, or a path whose file could be read; otherwise `'Invalid or unreadable PAN image'` |
| PanOcr.FormFile | src/modules/ocr/ocr.service.ts:261-265 | the form-data file name is the upload's name, `pan.jpg` when that is empty; the content type is its MIME type, `image/jpeg` when that is empty |
| PanOcr.PaymentsRedundant | src/modules/pan-verification/pan-verification.service.ts:82-83 | the alternative `payments` adds nothing to `payment` |
| PanOcr.PaymentTestIgnoresCase | src/modules/ocr/ocr.service.ts:312 | texts equal once upper-cased get the same payment verdict; `UPI`, `upi` and `Upi` each mark a payment document |
| PanOcr.VisionPanIsValid | src/modules/ocr/ocr.service.ts:314-316 | an accepted Vision reading has a PAN of the accepted format |
| GoogleVision.Normalise | src/modules/ocr/google-vision.service.ts:34-37 | every line returned is non-empty, its own trim and free of newlines |
| GoogleVision.NormaliseConcat | src/modules/ocr/google-vision.service.ts:34-37 | the lines of two texts joined by a newline are the first text's lines followed by the second's, so the order is kept |
| GoogleVision.NormaliseIdempotent | src/modules/ocr/google-vision.service.ts:34-37 | normalising lines joined back by newlines gives the same lines |
| GoogleVision.NormaliseOneLine | src/modules/ocr/google-vision.service.ts:34-37 | a text without a newline is its trim as one line, or no line |
| GoogleVision.ExtractText | src/modules/ocr/google-vision.service.ts:22-81 | both variants give the normalised first annotation, `[]` without annotations, and rethrow the client's error unchanged |
| ChequeText.RunIsMaximal | src/modules/ocr/ocr.service.ts:220-224 | a greedy run is the longest stretch of its class |
| ChequeText.DigitWordUnique | src/modules/ocr/ocr.service.ts:220-222 | at a given start, `\b\d{lo,hi}\b` can match only the whole digit run (lines 220 and 222) |
| ChequeText.FirstDigitWord | src/modules/ocr/ocr.service.ts:220-222 | the leftmost `\b\d{lo,hi}\b` match: the slice of the text at the first index where the pattern matches, of lo to hi digits, and none when no index matches (lines 220 and 222) |
| ChequeText.DigitWordsApart | src/modules/ocr/ocr.service.ts:220-222 | matches of two digit-word patterns with disjoint lengths do not overlap (lines 220 and 222) |
| ChequeText.FirstIfsc | src/modules/ocr/ocr.service.ts:221 | the leftmost `\b[A-Z]{4}\d{7}\b` match: four capitals, then seven digits |
| ChequeText.DateShapeRuns | src/modules/ocr/ocr.service.ts:223 | the repetition counts of a date match are the digit runs at its start |
| ChequeText.DateLength | src/modules/ocr/ocr.service.ts:223 | a date match is 6 to 10 characters long, whatever counts match |
| ChequeText.FirstDate | src/modules/ocr/ocr.service.ts:223 | the leftmost date: the slice of the text at the first index where the date pattern matches, 6 to 10 characters, starting and ending with a digit, with a separator at position 1 or 2; none when no index matches |
| ChequeText.AmountGroup | src/modules/ocr/ocr.service.ts:224 | group 1 of the amount is digits and commas, then a point and digits if present |
| ChequeText.FirstAmount | src/modules/ocr/ocr.service.ts:224 | the amount is group 1 of the leftmost match; there is none without a rupee sign |
| ChequeText.ParseCheque | src/modules/ocr/ocr.service.ts:216-227 | each field is the first match in the space-joined, upper-cased text; `payeeName` and `bankName` are never set |
| ChequeText.AccountAndChequeApart | src/modules/ocr/ocr.service.ts:220-222 | the account number and the cheque number are different, non-overlapping stretches (lines 220 and 222) |
| ChequeText.NoDigitsNoNumbers | src/modules/ocr/ocr.service.ts:220-223 | a text without digits has no account number, cheque number, IFSC or date |
| Ocr.FailureCode | src/modules/ocr/ocr.service.ts:149-172 | the status code is never 0: the non-zero number, else 400 (lines 149 and 172) |
| Ocr.FailureRecord | src/modules/ocr/ocr.service.ts:147-176 | a failure body is returned with its status, error, request id and client reference. Its status code is `Number(statusCode) || 400`: Digitap's own code unless that reads as 0 or `NaN`, and never 0 (lines 147-153 and 170-176) |
| Ocr.DigitapOutcome | src/modules/ocr/ocr.service.ts:126-183 | a `failure` body is returned, whether it came normally or on an error response. Other bodies give the result. Other errors throw BadRequest with the response data, else `'Digitap Cheque OCR failed'` |
| Ocr.FailureBodyEitherWay | src/modules/ocr/ocr.service.ts:146-177 | a failure body gives the same reply whether returned normally or rejected. Its status code is the one Digitap sent, or 400 when that reads as 0 or `NaN` (lines 146-154 and 168-177) |
| Ocr.DigitapErrorMessage | src/modules/ocr/ocr.service.ts:89-182 | a thrown Digitap error reaches the client as a 400 whose message is Digitap's text body, the object body's non-empty text `message`, 'Bad Request Exception' for an array or an object without a text `message`, 'Cheque OCR failed' for an empty `message`, or 'Digitap Cheque OCR failed' without a body; an object body itself is not passed on (lines 89-92 and 179-182) |
| Ocr.Rewrap | src/modules/ocr/ocr.service.ts:89-92 | the catch in `processCheque` always throws a 400 |
| Ocr.DigitapRequest | src/modules/ocr/ocr.service.ts:104-140 | posts to the base URL plus `/ocr/v1/cheque` with `Basic` and the base 64 credential. The form carries `cheque.jpg`, the MIME type and the client reference. `isCompleteImage` is `yes` exactly when the image is complete and `no` otherwise. The holder name is included, unchanged, exactly when it is not empty |
| Ocr.DigitapFormFields | src/modules/ocr/ocr.service.ts:116-124 | `isCompleteImage` reaches Digitap as exactly `yes` or `no`; the authorization is `Basic` plus the credential |
| Ocr.CompleteImageValues | src/modules/ocr/ocr.service.ts:56-59 | only `"yes"`, `"true"` and `true` count as a complete image |
| Ocr.MimeType | src/modules/ocr/ocr.service.ts:68 | the upload's MIME type, or `image/jpeg` when it is empty |
| Ocr.VisionChequeReply | src/modules/ocr/ocr.service.ts:188-214 | the Vision route yields status `success`, code 200 and one `cheque` item, or Vision's error |
| Ocr.VisionItemFields | src/modules/ocr/ocr.service.ts:196-213 | every field has conf 0.9; the payee and bank names are always `""`; the others are the parsed matches or `""` |
| Ocr.DetailEmptyIffMissing | src/modules/ocr/ocr.service.ts:203-207 | a detail value is `""` exactly when its pattern did not match |
| Ocr.ProcessCheque | src/modules/ocr/ocr.service.ts:49-93 | a missing image, or one with neither buffer nor path, is refused before any call. Otherwise the route is chosen once: Digitap when all three settings are set, else Vision, with no fallback between them |
| Ocr.FinanalyzHit | src/modules/ocr/ocr.service.ts:257-298 | Finanalyz OCR is taken exactly when it is configured, answered and `data.pan_number` is truthy. Missing fields become `""` |
| Ocr.Stages | src/modules/ocr/ocr.service.ts:260-348 | Finanalyz's hit is final. Without it, Vision's reading is taken, else the `'NONE'` record. Finanalyz is contacted only when configured |
| Ocr.RecognisePan | src/modules/ocr/ocr.service.ts:257-348 | the step-by-step chain returns exactly the reply and the attempts of `PanOcrChain` |
| Ocr.OcrPan | src/modules/ocr/ocr.service.ts:234-349 | a missing or unreadable file is refused; otherwise the chain's reply |
| Ocr.PanOcrOutcomes | src/modules/ocr/ocr.service.ts:283-348 | success holds exactly when the provider is not `NONE`. A Vision PAN has the accepted format. An exhausted chain has the message and four `""` fields |
| Ocr.VisionOnlyAfterFinanalyz | src/modules/ocr/ocr.service.ts:279-309 | Vision is contacted exactly when Finanalyz gave no hit |
| Ocr.FinanalyzHitIsFinal | src/modules/ocr/ocr.service.ts:281-293 | with a Finanalyz hit, Vision is not contacted and its outcome does not matter |
| Aadhaar.ErrorStatus | src/modules/aadhaar/aadhaar.service.ts:273-274 | never 0: the response's non-zero status, else 500 |
| Aadhaar.ErrorMessage | src/modules/aadhaar/aadhaar.service.ts:276-277 | `response.data.message`, then `error.message`, then the default, in that order |
| Aadhaar.HandleError | src/modules/aadhaar/aadhaar.service.ts:272-282 | always throws an `HttpException` with that message and status |
| Aadhaar.HandleBareError | src/modules/aadhaar/aadhaar.service.ts:272-282 | an error without a response or a message becomes the default message with status 500 |
| Aadhaar.ExpiryAfter | src/modules/aadhaar/aadhaar.service.ts:48-49 | the expiry is `now + max(expires_in - 300, 60) * 1000`: it is one of `now + 60000` and `now + (expires_in - 300) * 1000`, and no earlier than either. It is `NaN` exactly when the lifetime is not a number |
| Aadhaar.CachedTokenReused | src/modules/aadhaar/aadhaar.service.ts:36-38 | a present token before its expiry is returned unchanged, with no exchange |
| Aadhaar.TokenStep | src/modules/aadhaar/aadhaar.service.ts:35-55 | an exchange is made exactly when the cached token is not fresh. Without one the state and the cached token are returned. A failure leaves the state unchanged. A success stores the granted token and its expiry. A granted body that is neither `null` nor `undefined` succeeds |
| Aadhaar.FailedExchangeKeepsState | src/modules/aadhaar/aadhaar.service.ts:40-54 | a failed exchange leaves both fields unchanged and throws through `handleError` |
| Aadhaar.TwoCalls | src/modules/aadhaar/aadhaar.service.ts:36-51 | after one exchange, a call before the expiry (at least a minute later) makes no second exchange; a call after it does |
| Aadhaar.NaNLifetimeNeverCaches | src/modules/aadhaar/aadhaar.service.ts:48-49 | a non-numeric lifetime makes every later call exchange again |
| Aadhaar.DigitapAuth.constructor | src/modules/aadhaar/aadhaar.service.ts:23-24 | the cache starts with no token and expiry 0 |
| Aadhaar.DigitapAuth.GetToken | src/modules/aadhaar/aadhaar.service.ts:35-55 | updates `accessToken` and `tokenExpiry` as the token step specifies and returns its token or error |
| Aadhaar.BuildDigitapHeaders | src/modules/aadhaar/aadhaar.service.ts:159-175 | a missing client id or secret throws BadRequest. Otherwise `Authorization` is the bare base 64 of `id:secret` |
| Aadhaar.FetchKycDetails | src/modules/aadhaar/aadhaar.service.ts:231-269 | a missing base URL or transaction id is refused before any call. Missing credentials give `handleError`'s exception with no request. With credentials present, the request carries the URL, the id and the headers; a reply is a Success whose `success` is the given success test on the reply, and a failed request gives `handleError`'s exception |
| Aadhaar.MissingCredentialsReported500 | src/modules/aadhaar/aadhaar.service.ts:246-268 | missing credentials inside the `try` surface through `handleError` as a 500 (lines 246-248 and 266-268) |
| Aadhaar.NumericCodeIsNoSuccess | src/modules/aadhaar/aadhaar.service.ts:255-259 | code `'200'` as text is a success; the number 200 alone is not |
| Aadhaar.KycSuccessMarkers | src/modules/aadhaar/aadhaar.service.ts:255-259 | each of `code === '200'`, `success === true` and the two spellings of `status` alone is a success. Any other status, the text `'true'` for `success`, an empty body and no body are not |
| Credentials.BasicToken | src/modules/aadhaar/aadhaar.service.ts:169 | the credential is base 64 text, its length a multiple of four |
| Credentials.TokenRecoversCredentials | src/modules/aadhaar/aadhaar.service.ts:169 | decoding the credential gives back `id:secret`, which splits into the id and the secret when the client id has no colon |
| Credentials.TokenInjective | src/modules/ocr/ocr.service.ts:124 | different credentials give different tokens when neither client id has a colon |
| Credentials.ColonInIdCollides | src/modules/aadhaar/aadhaar.service.ts:169 | a colon in the client id makes two different credential pairs give the same token |
| Base64.DecodeEncode | src/modules/aadhaar/aadhaar.service.ts:169 | base 64 decoding inverts the encoding of any octets |
| Utf8.DecodeEncode | src/modules/aadhaar/aadhaar.service.ts:169 | UTF-8 decoding inverts the encoding of any text |
| Errors.BadRequest | src/modules/ocr/ocr.service.ts:53 | `new BadRequestException(...)` has status 400 |
| Errors.BadRequestText | src/modules/ocr/ocr.service.ts:53 | a BadRequest with text carries that text as its message, with error `'Bad Request'` |
| Errors.NewHttpException | src/modules/aadhaar/aadhaar.service.ts:281 | an `HttpException` keeps its status and response; a text response is its message |
| ResponseInterceptor.WrapBody | src/common/interceptors/response.interceptor.ts:45-63 | `success` holds exactly for a 2xx status. The message is `data.message` if truthy, else `'Operation successful'` for a 2xx status and `'Operation failed'` otherwise. The data is `data.data`, else `data`, else `null`. The error is `data.error` if truthy, else `null`. `provider` is kept exactly when `data.provider` is truthy |
| ResponseInterceptor.WrapIdempotent | src/common/interceptors/response.interceptor.ts:50-63 | wrapping a wrapped body again changes nothing, given some data |
| ResponseInterceptor.WrapNothingTwice | src/common/interceptors/response.interceptor.ts:53 | without data, a second wrapping nests the first body |
| ResponseInterceptor.BodyValue | src/common/interceptors/response.interceptor.ts:50-60 | the JSON sent has a `provider` key exactly when one was kept |
| ResponseInterceptor.ServiceOf | src/common/interceptors/response.interceptor.ts:90-93 | the first non-empty segment of the URL, else `'unknown'`; so either `'unknown'` or a non-empty text without `/` |
| ResponseInterceptor.EndpointOf | src/common/interceptors/response.interceptor.ts:95-98 | never empty: with two or more segments, the segments after the first joined by `/`; with fewer, `'unknown'` |
| ResponseInterceptor.ServiceEndpointSplit | src/common/interceptors/response.interceptor.ts:90-98 | with two or more segments, service + `/` + endpoint is the segments joined by `/`; with fewer, the endpoint is `'unknown'` |
| ResponseInterceptor.SlashFreeUrl | src/common/interceptors/response.interceptor.ts:90-98 | a URL without `/` is its own service, with endpoint `'unknown'` |
| ResponseInterceptor.Intercept | src/common/interceptors/response.interceptor.ts:25-76 | the body is the wrapped body. The log status is `'success'` exactly for a 2xx status, else `'error'`. The caller id is always truthy |
| ExceptionFilter.Catch | src/common/filters/http-exception.filter.ts:16-46 | the reply is never a success. An `HttpException` keeps its status; anything else gets 500 and no error. The filter throws only for a null `HttpException` response |
| ExceptionFilter.FinalMessage | src/common/filters/http-exception.filter.ts:41 | the message sent is never an array: an array is joined with `', '` into text, and anything else is kept |
| ExceptionFilter.NonErrorReply | src/common/filters/http-exception.filter.ts:20-22 | a non-`Error` gives 500, `'Internal server error'` and a null error |
| ExceptionFilter.PlainErrorReply | src/common/filters/http-exception.filter.ts:34-36 | a plain `Error` gives 500 with its own message |
| ExceptionFilter.ObjectResponseReply | src/common/filters/http-exception.filter.ts:24-30 | an object response gives its `message`, else the exception's message, and the object as the error |
| ExceptionFilter.TextResponseReply | src/common/filters/http-exception.filter.ts:31-33 | a text response gives that text and a null error |
| ExceptionFilter.BadRequestTextReply | src/common/filters/http-exception.filter.ts:24-43 | a BadRequest with text replies 400 with that text and Nest's body as the error |
| ExceptionFilter.BadRequestListReply | src/common/filters/http-exception.filter.ts:41 | a BadRequest with a list of texts replies with them joined by `', '` |

## Left out

- HTTP, form-data, axios, the Google Vision client, `fs` reads, `uuidv4`, logging and `console.log` are left out.
  - Each provider exchange is an input: `Exchange`, `DigitapCall`, `KycCall` and the Vision `Result`.
  - Whether a file could be read is an input: a boolean, or the `Result` of `readFileSync`.
  - The image bytes are not modelled.
- Time is left out: timeouts are transport errors, and the clock readings of `getToken` are parameters.
- Concurrent `getToken` calls racing on the two cache fields are not modelled.
- The `tap` database logging of the interceptor is left out. `Intercept` returns the log fields it depends on instead;
  the duration and the request payload are not modelled.
- Controllers, modules, DTO validation, the API-key guard, the OCR MIME allow-list and the payments, e-sign, KYC,
  health and GST services are not part of this model.
- The Aadhaar OTP, details, offline-verify and link-generation methods are not part of this model.
- There is no image integrity (magic-byte) check in the source, and none is modelled.
- Text.ToUpper: maps ASCII letters only. The Devanagari keywords are compared as they are.
- Json.ToNumber: numbers are integers only. `Number()` of text reads unsigned decimal digits after trimming; a sign, a
  decimal point, an exponent or a hexadecimal prefix reads as `NaN` here. An array is read through its joined text, as
  in JavaScript, so the same restriction applies to it.
- PanParser.IsValueLine, PanParser.IsCandidate, PanParser.IsValidPanFormat, PanParser.MaskPan: a string's length is its
  number of Unicode scalar values, while JavaScript's `length` and `substring` count UTF-16 code units. A character
  outside the Basic Multilingual Plane counts once here and twice in the source. So `"A😀"` passes the source's
  `length > 2` value test but not the model's, and `maskPan("😀😀😀")` is masked by the source but not by the model.
- Aadhaar.ExpiryAfter: integer arithmetic, no binary floating point.
- PanVerification.NameMatchScore: integer arithmetic, no binary floating point.
- Ocr.FailureCode: integer arithmetic, no binary floating point.
- ChequeText.AmountAt: the match is stated through greedy runs. The comment beside it argues that backtracking never
  changes the result; this is not proved against a backtracking matcher.
- Ocr.DigitapOutcome: the catch path where Digitap rejects with a `null` or `undefined` error is not modelled. There
  `error.message` in the logging call would itself throw.
- Ocr.DigitapRequest: `clientRefId` is always text. Appending an `undefined` value to the form is not modelled.

## Notes on the code as written

- `processCheque` calls the Vision route as `return this.processChequeWithGoogleVision(...)`, without `await`.
  - A rejected Vision call therefore escapes the `catch` unchanged, and `Ocr.ProcessCheque` returns Vision's error
    as it is.
  - The Digitap route is awaited, so its errors are rewrapped as BadRequest.
- `readFileSync` in `processCheque` runs outside the `try`, so its error reaches the caller unchanged.
- `verifyPan` tests the raw name (absent or empty, untrimmed) before `validatePan` tests the PAN.
- In `parsePanText`, the father-label branch of the positional fallback (lines 178-182) can never decide anything.
  A father-label hit always carries a value, so the father's name is already set
  (`PanParserProps.FatherLabelBranchUnused`).
- The skip keyword `'Signe'` is tested against upper-cased lines, where it can never occur
  (`PanParserProps.SigneNeverMatchesUpper`).
- The exception filter itself throws for an `HttpException` whose response is `null`: `typeof null` is `'object'`,
  and reading `null.message` throws. `ExceptionFilter.Catch` reports this case as `FilterThrew`.
- The Digitap credential `base64(id:secret)` (src/modules/aadhaar/aadhaar.service.ts:169, src/modules/ocr/ocr.service.ts:124) is ambiguous when the
  client id contains a colon, which the configuration never rules out: ids and secrets `("a:b", "c")` and
  `("a", "b:c")` both encode `a:b:c` and get the same token. `Credentials.TokenRecoversCredentials` and
  `Credentials.TokenInjective` therefore hold only for colon-free client ids (`Credentials.ColonInIdCollides`).
