# Smart Exam Hub: the generation endpoints, payment verification and dashboard rules in Dafny

Smart Exam Hub lets a student or teacher generate multiple-choice questions,
question papers and notes from a voice recording with an AI model. The core
modelled here has three parts.

- **The three generation edge functions** (`generate-mcq`, `generate-paper`,
  `process-voice-notes`). They share one request pipeline:
  - the body's fields are validated, and the first failing check is a 400;
  - a missing gateway key is a 500;
  - a missing Authorization header or an unknown user is a 401;
  - a per-isolate fixed-window rate limiter refuses the sixth request within
    60 seconds with a 429;
  - the `increment_usage` quota refuses with a 403;
  - only after all of these is the AI gateway asked.

  The reply is cut to its first-bracket-to-last-bracket span, which is then
  parsed as JSON.
- **`verify-razorpay-payment`.** It checks the bearer token and the four
  payment fields. It recomputes the HMAC-SHA256 signature of
  `orderId|paymentId` as lowercase hexadecimal and compares it with the posted
  one. Only then does it insert a subscription row and update the profile's
  plan.
- **The rules inside four dashboard pages**: MCQ generator, question paper,
  subscription and voice-to-notes. The model covers:
  - the free-tier gate and the remaining-count display;
  - the request each page sends;
  - the row each page saves;
  - the clipboard text of the MCQ page;
  - the sections of a question paper;
  - the plan buttons;
  - how speech-recognition results rewrite the transcript.

Each handler is first a function of its request, of the outside services and
of its state, returning the response, the new state and the list of outside
calls it made (`Generation.Handle`, `Payment.Handle`). Next to it is an
imperative version that runs the source's steps one by one against objects
holding the mutable state: `RateLimit.RateLimiter`, `Payment.Database` and
`VoicePage.VoiceNotes`. That version is proved equal to the function.
Outside services are function-valued fields of a `Services` value:
- the auth service;
- the usage RPC;
- the AI gateway;
- `JSON.parse`;
- HMAC-SHA256;
- calendar-month arithmetic;
- database failures.

The clock is a parameter.

Modules, one per file:
- `Text`: JavaScript `trim`, ASCII `toLowerCase`, decimal rendering and `parseInt`.
- `Sanitizer`: `sanitizeInput`.
- `Validation`: the field and body validators.
- `RateLimit`: `checkRateLimit`.
- `Extraction`: the JSON span of the reply.
- `Generation`: the shared handler.
- `Payment`: the payment handler.
- `Profiles`: the free-tier gate.
- `McqPage`, `PaperPage`, `SubscriptionPage`, `VoicePage`: the four pages.

## Model

| member | source | states |
|---|---|---|
| Text.TrimBounds | supabase/functions/generate-mcq/index.ts:42 | `trim` returns a contiguous slice of its input. The slice is surrounded only by whitespace and does not start or end with whitespace. |
| Text.TrimIdempotent | supabase/functions/generate-mcq/index.ts:42 | Trimming twice is the same as trimming once. |
| Text.TrimOfPadded | supabase/functions/generate-mcq/index.ts:88 | Trimming whitespace padding off a word that does not itself start or end with whitespace gives back exactly that word. |
| Text.BlankIffAllWhitespace | supabase/functions/generate-mcq/index.ts:47 | `!s.trim()` holds exactly when every character of `s` is whitespace. |
| Text.LowerCharWhitespace | supabase/functions/generate-mcq/index.ts:88 | Lowering case leaves whitespace alone and never turns anything else into whitespace. |
| Text.ToLowerAscii | supabase/functions/generate-mcq/index.ts:88 | `toLowerCase` keeps the length and maps each character independently. |
| Text.LeadingDigits | supabase/functions/generate-mcq/index.ts:97 | The digits `parseInt` reads are the longest prefix made of decimal digits. |
| Text.ParseIntOfIntString | supabase/functions/generate-mcq/index.ts:97 | `parseInt(s, 10)` reads back the decimal rendering of any integer, whatever non-digit text follows it. |
| Sanitizer.StripControl | supabase/functions/generate-mcq/index.ts:42 | The control-character replace leaves no character of the class. It keeps every other character with its multiplicity and never lengthens the text. |
| Sanitizer.SanitizeClean | supabase/functions/generate-mcq/index.ts:39-43 | A sanitized text has no stripped control character and is no longer than its input. It neither starts nor ends with whitespace. |
| Sanitizer.SanitizeIdempotent | supabase/functions/generate-mcq/index.ts:39-43 | Sanitizing twice is the same as sanitizing once. |
| Sanitizer.SanitizeFixedPoints | supabase/functions/generate-mcq/index.ts:39-43 | A text is left unchanged exactly when it has no stripped control character and no whitespace at either end. |
| Sanitizer.SanitizeBlank | supabase/functions/generate-mcq/index.ts:39-43 | A blank input sanitizes to the empty string. |
| Validation.ValidateString | supabase/functions/generate-mcq/index.ts:46-58 | The value is accepted exactly when it is a string whose sanitized text has 1 to maxLength characters, and the sanitized text is returned. The errors come in the source's order: a non-string or blank value is "required"; otherwise a sanitized text over maxLength is "too long"; otherwise an empty one is "cannot be empty after sanitization". |
| Validation.EmptyAfterSanitizationReachable | supabase/functions/generate-mcq/index.ts:54-56 | The "cannot be empty after sanitization" branch is reachable: a lone U+0001 is not blank but sanitizes to nothing. |
| Validation.ValidateText | supabase/functions/process-voice-notes/index.ts:43-55 | The text is accepted exactly when its sanitized form has 10 to 10000 characters, and the sanitized text is returned. The errors come in the source's order: a non-string or blank value is "required"; otherwise a sanitized text under 10 characters is "too short", and one over 10000 is "too long". |
| Validation.ValidateDifficulty | supabase/functions/generate-mcq/index.ts:88-94 | An accepted difficulty is one of easy, medium or hard, and every refusal is the difficulty error. |
| Validation.DifficultyAccepted | supabase/functions/generate-mcq/index.ts:88-94 | An accepted difficulty came from a string of the form whitespace, then a case variant of the level, then whitespace. |
| Validation.DifficultyPadded | supabase/functions/generate-mcq/index.ts:88-94 | Conversely, every such padded case variant of a level is accepted as that level. |
| Validation.ValidateCount | supabase/functions/generate-mcq/index.ts:97-103 | The count is accepted exactly when it parses and lies in [1, 10]: a number is taken as is, and a string or an array's text is read by `parseInt`. The accepted value is the parsed one, and every refusal is the count error. |
| Validation.StringCountAcceptance | supabase/functions/generate-mcq/index.ts:97-103 | A count sent as the decimal text of n followed by non-digits is accepted exactly when 1 <= n <= 10, and then means n. |
| Validation.ArrayCountAcceptance | supabase/functions/generate-mcq/index.ts:97-103 | An array count whose text is the decimal text of n followed by non-digits is accepted exactly when 1 <= n <= 10, and then means n. So [5] means 5 and [1, 2] means 1. |
| Validation.McqBodyAcceptance | supabase/functions/generate-mcq/index.ts:67-103 | An MCQ body passes exactly when subject and topic sanitize to 1 to 100 and 1 to 200 characters, the difficulty is a known level and the count passes. |
| Validation.McqBodyAccepted | supabase/functions/generate-mcq/index.ts:67-103 | An accepted MCQ body yields the sanitized subject (1 to 100 characters) and topic (1 to 200). It also yields a known difficulty and a count in [1, 10]. |
| Validation.McqBodyOrder | supabase/functions/generate-mcq/index.ts:69-103 | The checks run subject, topic, difficulty, count, and the first failure is the answer. A bad subject is reported whatever the other fields hold, a bad topic whenever the subject passed, a bad difficulty whenever both passed, and a bad count whenever the other three passed. |
| Validation.PaperBodyAccepted | supabase/functions/generate-paper/index.ts:63-82 | An accepted paper body yields the sanitized subject and topics. |
| Validation.PaperBodyOrder | supabase/functions/generate-paper/index.ts:66-73 | A bad subject is reported first, whatever the topics hold. |
| Validation.PaperBodyAcceptance | supabase/functions/generate-paper/index.ts:63-82 | A paper body passes exactly when the sanitized subject has 1 to 100 characters and the sanitized topics 1 to 500. |
| Validation.VoiceBodyAccepted | supabase/functions/process-voice-notes/index.ts:63-73 | A voice body passes exactly when its sanitized text has 10 to 10000 characters, and that text is what goes on. |
| RateLimit.Step | supabase/functions/generate-mcq/index.ts:21-36 | A call is allowed exactly for a new user, a passed window (now > resetTime) or a count below 5. The caller's entry is reset to (1, now + 60000) or incremented, and a refusal changes nothing. Other users' entries are untouched, and every count stays in 1..5. |
| RateLimit.RateLimiter.Check | supabase/functions/generate-mcq/index.ts:21-36 | The in-place map update returns the answer and leaves the map that Step describes. |
| RateLimit.WindowBound | supabase/functions/generate-mcq/index.ts:10-12 | Within one window, whatever other users do, a user whose entry counts c is allowed at most 5 - c further calls. The entry then records exactly those calls and keeps its reset time. |
| RateLimit.FivePerWindow | supabase/functions/generate-mcq/index.ts:21-36 | A call that opens a window is allowed and is followed by at most four more allowed calls until the window's end, inclusive. |
| Extraction.SpanIsLeftmostLongest | supabase/functions/generate-mcq/index.ts:200-201 | The extracted span is the leftmost-longest match of the greedy bracket pattern. Without any match, the whole reply is kept. |
| Extraction.SpanShape | supabase/functions/generate-mcq/index.ts:200-201 | A found span lies inside the reply, starts with the opening bracket and ends with the closing one. |
| Extraction.ReplyText | supabase/functions/generate-mcq/index.ts:195 | Non-empty content comes back unchanged. The result is the fallback exactly when the content is missing, empty, or is itself the fallback. |
| Generation.BadRequestFirst | supabase/functions/generate-mcq/index.ts:69-103 | A 400 is answered exactly when a field is invalid, with that field's error. No outside call is made and the rate-limit map is untouched. |
| Generation.KeyBeforeAuth | supabase/functions/generate-mcq/index.ts:105-108 | A valid body without a gateway key is the catch-all 500, before the Authorization header is looked at. No outside call is made and the map is untouched. |
| Generation.UnauthorizedBeforeLimits | supabase/functions/generate-mcq/index.ts:110-131 | A 401 is answered exactly when a valid request with a key has no header or no user. The limiter and the quota are not consulted. "Authentication required" is answered exactly when the header is missing. |
| Generation.RateLimitBeforeQuota | supabase/functions/generate-mcq/index.ts:133-139 | A 429 is answered exactly when the limiter refuses a signed-in user. The map is then unchanged and `increment_usage` is never called. |
| Generation.QuotaBeforeGateway | supabase/functions/generate-mcq/index.ts:141-152 | A 403 is answered exactly when `increment_usage` errs or refuses after the limiter allowed. The quota call is then the last call made. |
| Generation.GatewayOnlyAfterQuota | supabase/functions/generate-mcq/index.ts:154-187 | The gateway is asked exactly when every check passed: once, last, after get-user, the rate check and `increment_usage`. |
| Generation.CallOrder | supabase/functions/generate-mcq/index.ts:110-187 | The outside calls are always a prefix of get-user, rate check, `increment_usage`, gateway. The map changes only through one limiter step for the signed-in user. |
| Generation.SuccessShape | supabase/functions/generate-mcq/index.ts:189-209 | A 200 is answered exactly when the gateway answered and the extracted span parsed. The payload is `Success(k, parsed)`: the parsed value under `mcqs` for MCQs and under `paper` for papers, and the bare parsed result for voice notes. |
| Generation.StatusCodes | supabase/functions/generate-mcq/index.ts:60-216 | Every answer is 200, 400, 401, 403, 429 or 500, and an answer carries an error exactly when it is not 200. |
| Generation.UnreadableBody | supabase/functions/generate-mcq/index.ts:210-216 | A body that cannot be read is a 500 before any other step. |
| Generation.PromptFromSanitizedFields | supabase/functions/generate-mcq/index.ts:154-155 | The gateway request carries the sanitized body fields of its own endpoint. |
| Generation.ReplyFallbacks | supabase/functions/process-voice-notes/index.ts:155-160 | With no content, MCQ generation parses "[]" and the other two parse "{}". |
| Generation.EdgeFunction.Serve | supabase/functions/generate-mcq/index.ts:60-217 | Serving a request against the isolate's limiter object gives exactly the response, the new map and the calls of Handle. |
| Generation.EdgeFunction.Proceed | supabase/functions/generate-mcq/index.ts:105-209 | The step-by-step checks after validation give exactly Respond's outcome. |
| Payment.HexDigit | supabase/functions/verify-razorpay-payment/index.ts:40 | The hex digit of a value below 16 is lowercase and decodes back to that value. |
| Payment.PadStart | supabase/functions/verify-razorpay-payment/index.ts:40 | `padStart` fills on the left up to the width and keeps the text as its suffix. |
| Payment.ByteHexDigits | supabase/functions/verify-razorpay-payment/index.ts:40 | `b.toString(16).padStart(2, '0')` is exactly the high and the low hex digit of the byte. |
| Payment.HexEncode | supabase/functions/verify-razorpay-payment/index.ts:39-41 | The encoded digest has two characters per byte, all lowercase hex digits. |
| Payment.HexRoundTrip | supabase/functions/verify-razorpay-payment/index.ts:39-41 | Decoding the encoding gives back the bytes. |
| Payment.HexDecodeCanonical | supabase/functions/verify-razorpay-payment/index.ts:39-43 | A text that decodes to some bytes is exactly their encoding. |
| Payment.HexEncodeInjective | supabase/functions/verify-razorpay-payment/index.ts:39-43 | Two digests have the same encoding exactly when they are equal. |
| Payment.SignedMessage | supabase/functions/verify-razorpay-payment/index.ts:27 | The message is the order id, a bar, then the payment id. |
| Payment.SignedMessageInjective | supabase/functions/verify-razorpay-payment/index.ts:27 | For order ids without a bar, the message determines both ids. |
| Payment.SignatureAcceptance | supabase/functions/verify-razorpay-payment/index.ts:43 | A signature is accepted exactly when it hex-decodes to the expected digest. An accepted one has twice the digest's length and only lowercase hex digits. |
| Payment.UpdatePlans | supabase/functions/verify-razorpay-payment/index.ts:151-154 | The update sets the plan of the one matching profile, if any. It adds no profile and leaves all others unchanged. |
| Payment.BearerToken | supabase/functions/verify-razorpay-payment/index.ts:53-66 | For a header starting with "Bearer ", the token is the rest of the header. |
| Payment.UnauthorizedBeforeBody | supabase/functions/verify-razorpay-payment/index.ts:52-74 | Without a bearer header with claims, the answer is a 401 with no write. Any other body gives the same outcome, because the body is not read. |
| Payment.MissingFieldsRejected | supabase/functions/verify-razorpay-payment/index.ts:81-86 | A signed-in request is a 400 exactly when a field is missing or empty. The answer comes before the secret or signature checks and leaves the tables unchanged. |
| Payment.RejectedWithoutWrites | supabase/functions/verify-razorpay-payment/index.ts:88-110 | A missing secret is a 500, and otherwise a wrong signature is a 400. Neither changes a table or attempts a write. |
| Payment.NoWriteUnlessVerified | supabase/functions/verify-razorpay-payment/index.ts:97-154 | No table changes and no write is attempted unless every check before the writes passed. |
| Payment.WriteOrder | supabase/functions/verify-razorpay-payment/index.ts:129-162 | The profile update is always the last call and comes right after an accepted insert. A refused insert is a 500 that leaves both tables unchanged. |
| Payment.UpdateFailureKeepsSubscription | supabase/functions/verify-razorpay-payment/index.ts:150-162 | A refused profile update is a 500, but the inserted subscription row stays. |
| Payment.Upgrade | supabase/functions/verify-razorpay-payment/index.ts:164-171 | A 200 is answered exactly when every check passed and both writes were accepted. It names the plan asked for, appends the row and sets the profile's plan. |
| Payment.RowTerms | supabase/functions/verify-razorpay-payment/index.ts:118-140 | The row records the user, the plan, the ids, the start and status active. Its amount is 4900 exactly for monthly, 9900 exactly for lifetime and otherwise none. It has an expiry exactly for monthly. |
| Payment.Database.Insert | supabase/functions/verify-razorpay-payment/index.ts:129-140 | An accepted insert appends the row and leaves the profiles alone. |
| Payment.Database.SetPlan | supabase/functions/verify-razorpay-payment/index.ts:151-154 | An accepted update changes the profiles exactly as UpdatePlans says. |
| Payment.Serve | supabase/functions/verify-razorpay-payment/index.ts:46-179 | Running the handler step by step against the database gives exactly Handle's response, tables and calls. |
| Profiles.GateMatchesRemaining | src/pages/dashboard/MCQGenerator.tsx:160-162 | Generating is allowed exactly when the page shows "unlimited" or a positive remaining count. A free user over the limit sees a negative count. |
| Profiles.GateRule | src/pages/dashboard/MCQGenerator.tsx:32 | A missing profile or any non-free plan may always generate. A free profile may generate exactly while its own counter (null as 0) is below 10. |
| McqPage.GenerateGuards | src/pages/dashboard/MCQGenerator.tsx:34-64 | A request goes out exactly when subject and topic are non-blank and the gate is open. It carries the raw subject, topic and difficulty and the slider's count. |
| McqPage.SliderBeyondServerLimit | src/pages/dashboard/MCQGenerator.tsx:202-209 | A slider count the page sends passes generate-mcq's count check exactly when it is at most 10. Every count from 11 to 20 fails that check with the count error. |
| McqPage.SaveRecord | src/pages/dashboard/MCQGenerator.tsx:89-102 | No row is saved without a user or questions. Otherwise the title is subject, " - ", topic, and the row keeps the questions and their number. |
| McqPage.LetterOfOption | src/pages/dashboard/MCQGenerator.tsx:126 | Options 0 to 25 are lettered A to Z. |
| McqPage.BuildBlock | src/pages/dashboard/MCQGenerator.tsx:123-131 | The loop over the options builds exactly the heading, the option lines in order and the optional answer line. |
| McqPage.CopyText | src/pages/dashboard/MCQGenerator.tsx:121-133 | Mapping and joining build exactly the blocks joined by line breaks. |
| McqPage.NewlinesAppend | src/pages/dashboard/MCQGenerator.tsx:133 | Line breaks add up over concatenation. |
| McqPage.OptionLinesNewlines | src/pages/dashboard/MCQGenerator.tsx:125-127 | Single-line options give one line each. |
| McqPage.BlockNewlines | src/pages/dashboard/MCQGenerator.tsx:124-131 | A block has one line for the heading, one per option, and one more when answers are shown. |
| McqPage.ClipboardLines | src/pages/dashboard/MCQGenerator.tsx:121-133 | An empty list copies "". Otherwise the text has one line per heading, option and shown answer, plus one separating line break between consecutive questions. |
| PaperPage.GenerateGuards | src/pages/dashboard/QuestionPaper.tsx:38-67 | A request goes out exactly when subject and topics are non-blank and the gate is open. It carries the institution name exactly for premium plans. |
| PaperPage.TotalMarksMeaning | src/pages/dashboard/QuestionPaper.tsx:97-100 | The total is the sum of all marks when every question carries its bucket's marks. It depends only on the bucket sizes. |
| PaperPage.SaveRecord | src/pages/dashboard/QuestionPaper.tsx:92-109 | No row is saved without a user or a paper. Otherwise the title is "`subject` Question Paper", the total is counted per bucket, and an empty institution is stored as null. |
| PaperPage.SectionsShape | src/pages/dashboard/QuestionPaper.tsx:270-272 | Exactly the non-empty buckets are shown, in the order A, B, C with strictly rising marks each. |
| PaperPage.SectionsCoverPaper | src/pages/dashboard/QuestionPaper.tsx:270-272 | The shown sections together account for the whole total. |
| PaperPage.SectionUnits | src/pages/dashboard/QuestionPaper.tsx:128-131 | Section A says "mark", and B and C say "marks". |
| SubscriptionPage.CurrentPlan | src/pages/dashboard/Subscription.tsx:45 | The current plan is never empty. A missing profile or an empty plan reads as "free", and any other plan is read as it is. |
| SubscriptionPage.UpgradeIffHigherRank | src/pages/dashboard/Subscription.tsx:96-98 | Between known tiers, an upgrade is exactly a move to a higher tier. From an unknown plan, nothing is an upgrade. |
| SubscriptionPage.ButtonLabel | src/pages/dashboard/Subscription.tsx:149 | The label reads "Current Plan" exactly on the current card, and "Upgrade" exactly on a non-current upgrade. |
| SubscriptionPage.ButtonsPerPlan | src/pages/dashboard/Subscription.tsx:94-149 | The three buttons for each current plan. Free sees Current/Upgrade/Upgrade with only the first disabled. Monthly sees Downgrade/Current/Upgrade. Lifetime sees all disabled. An unknown plan sees three enabled Downgrades. |
| SubscriptionPage.Badges | src/pages/dashboard/Subscription.tsx:106-121 | Only the monthly card shows "Popular", and only the lifetime card has its own badge. |
| SubscriptionPage.HandleUpgrade | src/pages/dashboard/Subscription.tsx:37-43 | Choosing any plan leaves the profile, and so the buttons, as they were. |
| VoicePage.EarlierResultsIgnored | src/pages/dashboard/VoiceToNotes.tsx:53 | Results before resultIndex do not count. An index past the end leaves the captured transcript. |
| VoicePage.NextResult | src/pages/dashboard/VoiceToNotes.tsx:53-62 | A further result joins the final part (with a space) when final and the interim part otherwise. So a later final text lands before earlier interim text. |
| VoicePage.TranscriptLength | src/pages/dashboard/VoiceToNotes.tsx:53-62 | An event adds every text from resultIndex on, plus one space per final result. |
| VoicePage.SaveRecord | src/pages/dashboard/VoiceToNotes.tsx:147-167 | Nothing is saved without a user or transcript, and a blank title is refused. Otherwise an empty summary and an empty MCQ list are stored as null. |
| VoicePage.VoiceNotes.OnResult | src/pages/dashboard/VoiceToNotes.tsx:49-63 | The loop leaves the transcript that NewTranscript gives and touches nothing else. |
| VoicePage.VoiceNotes.Process | src/pages/dashboard/VoiceToNotes.tsx:95-121 | Nothing is sent exactly when the transcript is blank or the gate is closed. Otherwise summary and MCQs are cleared and the transcript is sent as `text`. |
| VoicePage.SentTextNotMissing | src/pages/dashboard/VoiceToNotes.tsx:119-121 | A transcript the page sends is never refused by process-voice-notes as missing. |

## Left out

- The CORS preflight (`OPTIONS`) answers and the response headers.
- The Supabase clients and services are outside functions passed in: auth (`getUser`, `getClaims`), the `increment_usage` RPC, the AI gateway `fetch`, and the table writes (only whether each write fails).
- `JSON.parse` is passed in. JSON numbers are integers in the model.
- `req.json()` failing, and a null body, are both an absent body. No other exception inside the handlers' `try` blocks is modelled, except the gateway and parse failures.
- HMAC-SHA256 and the UTF-8 encoding of secret and message are one outside function. SHA-256 itself is not part of this model.
- The clock (`Date.now()`, `new Date()`) is a parameter. `setMonth(getMonth() + 1)` is an outside function `addMonth`, and `toISOString` is not modelled.
- Generation.EdgeFunction.Serve: isolates run concurrently in the source. The model runs requests one after another on one isolate.
- Validation.ParseCount: a count that is a fractional or non-finite JSON number is not modelled, because numbers are integers here.
- Validation.Field: an array value carries the text `String(array)` gives it. How nested elements, null and objects inside an array are turned into that text is not modelled.
- Payment.Handle: fields that are present but not strings are modelled as absent. The claims `sub` is taken to be a string, as the source's cast assumes.
- Strings are sequences of Unicode scalar values, not UTF-16 code units. So lengths count characters rather than code units, and `String.fromCharCode` on a lone surrogate yields U+FFFD.
- Text.ToLowerAscii: `toLowerCase` is modelled on A-Z only. The accepted difficulty words are ASCII.
- Rendering, toasts, loading flags, PDF export and the plans' feature lists are display only and are left out.
- Speech-recognition setup, errors and the start and stop of recording are browser I/O and are left out. The transcript captured when recording starts is the parameter `base` of OnResult.
- The pages' calls to the edge functions and to `refreshProfile` are I/O. The model stops at the request body a page sends and the row it stores.
- Every other file of the repository is not part of this model: landing pages, settings, saved content, the client-side Razorpay helper.
