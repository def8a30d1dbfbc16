/**
 * The field validators of the three generation edge functions:
 * validateStringInput (generate-mcq, generate-paper), validateTextInput
 * (process-voice-notes), the difficulty check and the count check of
 * generate-mcq, and each endpoint's validation of its request body in
 * the order the handler runs the checks.
 */
module Validation {
  import opened Text
  import opened Sanitizer

  const MaxSubjectLength: nat := 100
  const MaxTopicLength: nat := 200
  const MaxTopicsLength: nat := 500
  const MinCount: int := 1
  const MaxCount: int := 10
  const MinTextLength: nat := 10
  const MaxTextLength: nat := 10000
  const ValidDifficulties: seq<string> := ["easy", "medium", "hard"]

  /**
   * A member of the parsed JSON request body, as far as the validators tell
   * values apart. An array is kept as `String(array)`, the text parseInt
   * reads from it (its elements joined by commas); null, booleans and other
   * objects are Other.
   */
  datatype Field = Missing | Str(s: string) | Num(n: int) | Arr(text: string) | Other

  type Body = map<string, Field>

  /** Destructuring `const { name } = body`: an absent key reads as undefined. */
  function Get(body: Body, name: string): Field {
    if name in body then body[name] else Missing
  }

  /** The field is a string whose sanitized text has between lo and hi characters. */
  predicate SanitizedLengthIn(f: Field, lo: int, hi: int) {
    f.Str? && lo <= |Sanitize(f.s)| <= hi
  }

  datatype FieldError =
    | Required(field: string)
    | TooLong(field: string, max: nat)
    | EmptyAfterSanitization(field: string)
    | TextRequired
    | TextTooShort
    | TextTooLong
    | BadDifficulty
    | BadCount

  /** The `error` string of the 400 response for each rejection. */
  function Message(e: FieldError): string {
    match e
    case Required(f) => f + " is required and must be a non-empty string"
    case TooLong(f, max) => f + " must be " + DecimalString(max) + " characters or less"
    case EmptyAfterSanitization(f) => f + " cannot be empty after sanitization"
    case TextRequired => "Text content is required and must be a non-empty string"
    case TextTooShort => "Text must be at least " + DecimalString(MinTextLength) + " characters"
    case TextTooLong => "Text must be " + DecimalString(MaxTextLength) + " characters or less"
    case BadDifficulty => "Difficulty must be one of: easy, medium, hard"
    case BadCount => "Count must be between 1 and 10"
  }

  datatype Checked<+T> = Valid(value: T) | Invalid(error: FieldError)

  /**
   * validateStringInput: a non-string or blank value is "required"; then the
   * sanitized value must have at most maxLength characters and at least one.
   */
  function ValidateString(value: Field, fieldName: string, maxLength: nat): (r: Checked<string>)
    ensures r.Valid? <==> value.Str? && 1 <= |Sanitize(value.s)| <= maxLength
    ensures r.Valid? ==> r.value == Sanitize(value.s)
    ensures (!value.Str? || IsBlank(value.s)) ==> r == Invalid(Required(fieldName))
    ensures value.Str? && !IsBlank(value.s) && |Sanitize(value.s)| > maxLength ==>
              r == Invalid(TooLong(fieldName, maxLength))
    ensures value.Str? && !IsBlank(value.s) && |Sanitize(value.s)| == 0 ==>
              r == Invalid(EmptyAfterSanitization(fieldName))
  {
    if !value.Str? || IsBlank(value.s) then
      if value.Str? then SanitizeBlank(value.s); Invalid(Required(fieldName))
      else Invalid(Required(fieldName))
    else
      var sanitized := Sanitize(value.s);
      if |sanitized| > maxLength then Invalid(TooLong(fieldName, maxLength))
      else if |sanitized| == 0 then Invalid(EmptyAfterSanitization(fieldName))
      else Valid(sanitized)
  }

  /** The third check of validateStringInput is live: a lone control character is not blank, yet sanitizes to nothing. */
  lemma EmptyAfterSanitizationReachable(fieldName: string, maxLength: nat)
    ensures ValidateString(Str("\U{1}"), fieldName, maxLength) == Invalid(EmptyAfterSanitization(fieldName))
  {
    assert StripControl("\U{1}") == [];
    assert !IsBlank("\U{1}");
  }

  /**
   * validateTextInput: a non-string or blank value is "required"; then the
   * sanitized text must have at least 10 characters, then at most 10000.
   */
  function ValidateText(value: Field): (r: Checked<string>)
    ensures r.Valid? <==> value.Str? && MinTextLength <= |Sanitize(value.s)| <= MaxTextLength
    ensures r.Valid? ==> r.value == Sanitize(value.s)
    ensures (!value.Str? || IsBlank(value.s)) ==> r == Invalid(TextRequired)
    ensures value.Str? && !IsBlank(value.s) && |Sanitize(value.s)| < MinTextLength ==> r == Invalid(TextTooShort)
    ensures value.Str? && !IsBlank(value.s) && |Sanitize(value.s)| > MaxTextLength ==> r == Invalid(TextTooLong)
  {
    if !value.Str? || IsBlank(value.s) then
      if value.Str? then SanitizeBlank(value.s); Invalid(TextRequired)
      else Invalid(TextRequired)
    else
      var sanitized := Sanitize(value.s);
      if |sanitized| < MinTextLength then Invalid(TextTooShort)
      else if |sanitized| > MaxTextLength then Invalid(TextTooLong)
      else Valid(sanitized)
  }

  /** `typeof difficulty === "string" ? difficulty.toLowerCase().trim() : ""`, checked against the three levels. */
  function ValidateDifficulty(value: Field): (r: Checked<string>)
    ensures r.Valid? ==> r.value in ValidDifficulties
    ensures r.Invalid? ==> r.error == BadDifficulty
  {
    var normalized := if value.Str? then Trim(ToLowerAscii(value.s)) else "";
    if normalized in ValidDifficulties then Valid(normalized) else Invalid(BadDifficulty)
  }

  lemma ToLowerAsciiConcat(a: string, b: string)
    ensures ToLowerAscii(a + b) == ToLowerAscii(a) + ToLowerAscii(b)
  {
  }

  lemma ToLowerAsciiWhitespace(w: string)
    requires AllWhitespace(w)
    ensures ToLowerAscii(w) == w
  {
    forall k | 0 <= k < |w| ensures ToLowerAscii(w)[k] == w[k] {
      LowerCharWhitespace(w[k]);
    }
  }

  lemma ToLowerAsciiSlice(s: string, i: nat, j: nat)
    requires i <= j <= |s|
    ensures ToLowerAscii(s[i..j]) == ToLowerAscii(s)[i..j]
  {
    var l, r := ToLowerAscii(s[i..j]), ToLowerAscii(s)[i..j];
    forall k | 0 <= k < |l| ensures l[k] == r[k] {
      assert s[i..j][k] == s[i + k];
    }
  }

  lemma ToLowerAsciiPrefix(s: string, i: nat)
    requires i <= |s|
    ensures ToLowerAscii(s[..i]) == ToLowerAscii(s)[..i]
  {
    var l, r := ToLowerAscii(s[..i]), ToLowerAscii(s)[..i];
    forall k | 0 <= k < i ensures l[k] == r[k] {
      assert s[..i][k] == s[k];
    }
  }

  lemma ToLowerAsciiSuffix(s: string, j: nat)
    requires j <= |s|
    ensures ToLowerAscii(s[j..]) == ToLowerAscii(s)[j..]
  {
    var l, r := ToLowerAscii(s[j..]), ToLowerAscii(s)[j..];
    forall k | 0 <= k < |s| - j ensures l[k] == r[k] {
      assert s[j..][k] == s[j + k];
    }
  }

  lemma WhitespaceOfLowered(s: string)
    requires AllWhitespace(ToLowerAscii(s))
    ensures AllWhitespace(s)
  {
    forall k | 0 <= k < |s| ensures IsWhitespace(s[k]) {
      LowerCharWhitespace(s[k]);
    }
  }

  /** A normalized difficulty is the lowered value with whitespace padding removed. */
  lemma DifficultyAccepted(value: Field, level: string)
    requires ValidateDifficulty(value) == Valid(level)
    ensures level in ValidDifficulties && value.Str?
    ensures exists p, u, q :: value.s == p + u + q && AllWhitespace(p) && AllWhitespace(q)
                              && ToLowerAscii(u) == level
  {
    var p, u, q := LoweredTrimSplit(value.s, level);
  }

  /** Whatever trims to `level` after lowering is whitespace, a spelling of `level`, whitespace. */
  lemma LoweredTrimSplit(s: string, level: string) returns (p: string, u: string, q: string)
    requires Trim(ToLowerAscii(s)) == level
    ensures s == p + u + q && AllWhitespace(p) && AllWhitespace(q) && ToLowerAscii(u) == level
  {
    var i, j := TrimBounds(ToLowerAscii(s));
    p, u, q := LoweredSplit(s, i, j);
  }

  /** Cutting a string where its lowered form is cut. */
  lemma LoweredSplit(s: string, i: nat, j: nat) returns (p: string, u: string, q: string)
    requires i <= j <= |s|
    requires AllWhitespace(ToLowerAscii(s)[..i]) && AllWhitespace(ToLowerAscii(s)[j..])
    ensures s == p + u + q && AllWhitespace(p) && AllWhitespace(q) && ToLowerAscii(u) == ToLowerAscii(s)[i..j]
  {
    p, u, q := s[..i], s[i..j], s[j..];
    ToLowerAsciiPrefix(s, i);
    ToLowerAsciiSlice(s, i, j);
    ToLowerAsciiSuffix(s, j);
    WhitespaceOfLowered(p);
    WhitespaceOfLowered(q);
    assert s[..j] == p + u;
    assert s == s[..j] + q;
  }

  /** Any mix of case of a level, padded with whitespace, is accepted as that level. */
  lemma DifficultyPadded(p: string, u: string, q: string, level: string)
    requires level in ValidDifficulties
    requires AllWhitespace(p) && AllWhitespace(q) && ToLowerAscii(u) == level
    ensures ValidateDifficulty(Str(p + u + q)) == Valid(level)
  {
    ToLowerAsciiConcat(p + u, q);
    ToLowerAsciiConcat(p, u);
    ToLowerAsciiWhitespace(p);
    ToLowerAsciiWhitespace(q);
    assert ToLowerAscii(p + u + q) == p + level + q;
    LevelUntrimmed(level);
    TrimOfPadded(p, level, q);
  }

  lemma LevelUntrimmed(level: string)
    requires level in ValidDifficulties
    ensures level != [] && !IsWhitespace(level[0]) && !IsWhitespace(level[|level| - 1])
  {
    assert level == "easy" || level == "medium" || level == "hard";
  }

  /**
   * `typeof count === "number" ? count : parseInt(count, 10)`: parseInt reads
   * a string, or the text of an array; undefined, null, booleans and other
   * objects parse to NaN (None).
   */
  function ParseCount(value: Field): Option<int> {
    match value
    case Num(n) => Some(n)
    case Str(s) => ParseInt(s)
    case Arr(t) => ParseInt(t)
    case Missing => None
    case Other => None
  }

  /** The count is accepted when it is not NaN and lies in [1, 10]. */
  function ValidateCount(value: Field): (r: Checked<int>)
    ensures r.Valid? <==> ParseCount(value).Some? && MinCount <= ParseCount(value).value <= MaxCount
    ensures r.Valid? ==> MinCount <= r.value <= MaxCount && Some(r.value) == ParseCount(value)
    ensures r.Invalid? ==> r.error == BadCount
  {
    match ParseCount(value)
    case None => Invalid(BadCount)
    case Some(n) => if n < MinCount || n > MaxCount then Invalid(BadCount) else Valid(n)
  }

  /**
   * A count sent as a string is read by parseInt: the decimal rendering of n,
   * followed by any text that does not start with a digit, is accepted
   * exactly when 1 <= n <= 10, and then means n.
   */
  lemma StringCountAcceptance(n: int, rest: string)
    requires rest == [] || !IsDigit(rest[0])
    ensures ValidateCount(Str(IntString(n) + rest)) == if MinCount <= n <= MaxCount then Valid(n) else Invalid(BadCount)
  {
    ParseIntOfIntString(n, rest);
  }

  /**
   * An array count is read by parseInt from its text, like a string: [5]
   * (text "5") is the count 5 and [1, 2] (text "1,2") the count 1.
   */
  lemma ArrayCountAcceptance(n: int, rest: string)
    requires rest == [] || !IsDigit(rest[0])
    ensures ValidateCount(Arr(IntString(n) + rest)) == if MinCount <= n <= MaxCount then Valid(n) else Invalid(BadCount)
  {
    ParseIntOfIntString(n, rest);
  }

  /** The parameters of an MCQ request once every field has passed. */
  datatype McqParams = McqParams(subject: string, topic: string, difficulty: string, count: int)

  /** generate-mcq checks subject, then topic, then difficulty, then count; the first failure is the answer. */
  function ValidateMcqBody(body: Body): Checked<McqParams> {
    match ValidateString(Get(body, "subject"), "Subject", MaxSubjectLength)
    case Invalid(e) => Invalid(e)
    case Valid(subject) =>
      match ValidateString(Get(body, "topic"), "Topic", MaxTopicLength)
      case Invalid(e) => Invalid(e)
      case Valid(topic) =>
        match ValidateDifficulty(Get(body, "difficulty"))
        case Invalid(e) => Invalid(e)
        case Valid(difficulty) =>
          match ValidateCount(Get(body, "count"))
          case Invalid(e) => Invalid(e)
          case Valid(count) => Valid(McqParams(subject, topic, difficulty, count))
  }

  /** Accepted MCQ parameters are the sanitized subject and topic, a known difficulty and a count in [1, 10]. */
  lemma McqBodyAccepted(body: Body, p: McqParams)
    requires ValidateMcqBody(body) == Valid(p)
    ensures SanitizedLengthIn(Get(body, "subject"), 1, MaxSubjectLength) && p.subject == Sanitize(Get(body, "subject").s)
    ensures SanitizedLengthIn(Get(body, "topic"), 1, MaxTopicLength) && p.topic == Sanitize(Get(body, "topic").s)
    ensures p.difficulty in ValidDifficulties
    ensures MinCount <= p.count <= MaxCount && ParseCount(Get(body, "count")) == Some(p.count)
  {
  }

  /**
   * The checks run in order and the first failure is the answer: an invalid
   * subject is reported whatever the other fields hold, and an invalid topic
   * whenever the subject passed.
   */
  lemma McqBodyOrder(body: Body)
    ensures ValidateString(Get(body, "subject"), "Subject", MaxSubjectLength).Invalid? ==>
              ValidateMcqBody(body) == Invalid(ValidateString(Get(body, "subject"), "Subject", MaxSubjectLength).error)
    ensures ValidateString(Get(body, "subject"), "Subject", MaxSubjectLength).Valid? &&
            ValidateString(Get(body, "topic"), "Topic", MaxTopicLength).Invalid? ==>
              ValidateMcqBody(body) == Invalid(ValidateString(Get(body, "topic"), "Topic", MaxTopicLength).error)
    ensures ValidateString(Get(body, "subject"), "Subject", MaxSubjectLength).Valid? &&
            ValidateString(Get(body, "topic"), "Topic", MaxTopicLength).Valid? &&
            ValidateDifficulty(Get(body, "difficulty")).Invalid? ==>
              ValidateMcqBody(body) == Invalid(BadDifficulty)
    ensures ValidateString(Get(body, "subject"), "Subject", MaxSubjectLength).Valid? &&
            ValidateString(Get(body, "topic"), "Topic", MaxTopicLength).Valid? &&
            ValidateDifficulty(Get(body, "difficulty")).Valid? &&
            ValidateCount(Get(body, "count")).Invalid? ==>
              ValidateMcqBody(body) == Invalid(BadCount)
  {
  }

  /**
   * An MCQ request passes exactly when subject and topic sanitize to an
   * allowed length, the difficulty is a known level and the count is in
   * [1, 10].
   */
  lemma McqBodyAcceptance(body: Body)
    ensures ValidateMcqBody(body).Valid? <==>
              && SanitizedLengthIn(Get(body, "subject"), 1, MaxSubjectLength)
              && SanitizedLengthIn(Get(body, "topic"), 1, MaxTopicLength)
              && ValidateDifficulty(Get(body, "difficulty")).Valid?
              && ValidateCount(Get(body, "count")).Valid?
  {
  }

  /** The parameters of a question-paper request once every field has passed. */
  datatype PaperParams = PaperParams(subject: string, topics: string)

  /** generate-paper checks subject, then topics. */
  function ValidatePaperBody(body: Body): Checked<PaperParams> {
    match ValidateString(Get(body, "subject"), "Subject", MaxSubjectLength)
    case Invalid(e) => Invalid(e)
    case Valid(subject) =>
      match ValidateString(Get(body, "topics"), "Topics", MaxTopicsLength)
      case Invalid(e) => Invalid(e)
      case Valid(topics) => Valid(PaperParams(subject, topics))
  }

  /** Accepted paper parameters are the sanitized subject and topics. */
  lemma PaperBodyAccepted(body: Body, p: PaperParams)
    requires ValidatePaperBody(body) == Valid(p)
    ensures Get(body, "subject").Str? && p.subject == Sanitize(Get(body, "subject").s)
    ensures Get(body, "topics").Str? && p.topics == Sanitize(Get(body, "topics").s)
  {
  }

  /** An invalid subject is reported first, whatever the topics hold. */
  lemma PaperBodyOrder(body: Body)
    ensures ValidateString(Get(body, "subject"), "Subject", MaxSubjectLength).Invalid? ==>
              ValidatePaperBody(body) == Invalid(ValidateString(Get(body, "subject"), "Subject", MaxSubjectLength).error)
  {
  }

  /** A paper request passes exactly when both fields are strings whose sanitized text has an allowed length. */
  lemma PaperBodyAcceptance(body: Body)
    ensures ValidatePaperBody(body).Valid? <==>
              SanitizedLengthIn(Get(body, "subject"), 1, MaxSubjectLength) &&
              SanitizedLengthIn(Get(body, "topics"), 1, MaxTopicsLength)
  {
  }

  /** process-voice-notes checks its one field, `text`. */
  function ValidateVoiceBody(body: Body): Checked<string> {
    ValidateText(Get(body, "text"))
  }

  /** Accepted voice text is the sanitized `text` field, of 10 to 10000 characters. */
  lemma VoiceBodyAccepted(body: Body)
    ensures ValidateVoiceBody(body).Valid? <==> SanitizedLengthIn(Get(body, "text"), MinTextLength, MaxTextLength)
    ensures ValidateVoiceBody(body).Valid? ==> ValidateVoiceBody(body).value == Sanitize(Get(body, "text").s)
  {
  }
}
