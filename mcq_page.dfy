/**
 * The rules inside the MCQ generator page: the request handleGenerate
 * sends, the row handleSave stores, and the plain-text rendering
 * copyToClipboard puts on the clipboard.
 */
module McqPage {
  import opened Text
  import opened Validation
  import opened Profiles

  /** One question as generate-mcq returns it. */
  datatype Mcq = Mcq(question: string, options: seq<string>, answer: string, explanation: Option<string>)

  /** The question-count slider's range. */
  const SliderMin: int := 1
  const SliderMax: int := 20

  /**
   * handleGenerate: nothing is sent when subject or topic is blank after
   * trimming or when the free-tier gate is closed; otherwise the body is
   * the raw subject, topic and difficulty and the slider's number.
   */
  function GenerateRequest(subject: string, topic: string, difficulty: string, count: int,
                           profile: Option<Profile>): Option<Body>
  {
    if IsBlank(subject) || IsBlank(topic) then None
    else if !CanGenerate(profile, Mcqs) then None
    else Some(map["subject" := Str(subject), "topic" := Str(topic),
                  "difficulty" := Str(difficulty), "count" := Num(count)])
  }

  /** A request goes out exactly when both texts are non-blank and the gate is open, and carries them untrimmed. */
  lemma GenerateGuards(subject: string, topic: string, difficulty: string, count: int, profile: Option<Profile>)
    ensures GenerateRequest(subject, topic, difficulty, count, profile).Some?
            <==> !AllWhitespace(subject) && !AllWhitespace(topic) && CanGenerate(profile, Mcqs)
    ensures GenerateRequest(subject, topic, difficulty, count, profile).Some? ==>
              var body := GenerateRequest(subject, topic, difficulty, count, profile).value;
              Get(body, "subject") == Str(subject) && Get(body, "topic") == Str(topic)
              && Get(body, "difficulty") == Str(difficulty) && Get(body, "count") == Num(count)
  {
    BlankIffAllWhitespace(subject);
    BlankIffAllWhitespace(topic);
  }

  /**
   * The slider offers 1..20 but generate-mcq accepts 1..10: every count
   * the page sends from 11 up is refused by the edge function's count check.
   */
  lemma SliderBeyondServerLimit(subject: string, topic: string, difficulty: string, count: int,
                                profile: Option<Profile>)
    requires SliderMin <= count <= SliderMax
    requires GenerateRequest(subject, topic, difficulty, count, profile).Some?
    ensures var body := GenerateRequest(subject, topic, difficulty, count, profile).value;
            ValidateCount(Get(body, "count")) == if count <= MaxCount then Valid(count) else Invalid(BadCount)
  {
  }

  /** The row inserted into saved_mcqs. */
  datatype SavedMcqs = SavedMcqs(
    userId: string,
    title: string,
    subject: string,
    topic: string,
    difficulty: string,
    questions: seq<Mcq>,
    questionCount: int)

  /** handleSave: no row without a user or without questions; the title joins subject and topic with " - ". */
  function SaveRecord(user: Option<string>, subject: string, topic: string, difficulty: string,
                      mcqs: seq<Mcq>): (r: Option<SavedMcqs>)
    ensures r.None? <==> user.None? || mcqs == []
    ensures r.Some? ==>
              && r.value.userId == user.value
              && r.value.questions == mcqs && r.value.questionCount == |mcqs|
              && r.value.subject == subject && r.value.topic == topic && r.value.difficulty == difficulty
              && |r.value.title| == |subject| + 3 + |topic|
              && r.value.title[..|subject|] == subject
              && r.value.title[|subject|..|subject| + 3] == " - "
              && r.value.title[|subject| + 3..] == topic
  {
    if user.None? || |mcqs| == 0 then None
    else Some(SavedMcqs(user.value, subject + " - " + topic, subject, topic, difficulty, mcqs, |mcqs|))
  }

  /* ---------------------------------------------------------------- */
  /* The clipboard text                                                */
  /* ---------------------------------------------------------------- */

  /**
   * `String.fromCharCode(65 + j)`: the UTF-16 code unit (65 + j) mod 2^16;
   * a lone surrogate, which a Dafny char cannot hold, becomes U+FFFD.
   */
  function Letter(j: nat): char {
    var u := (65 + j) % 0x1_0000;
    if 0xD800 <= u < 0xE000 then '\U{FFFD}' else u as char
  }

  /** The first 26 options are lettered A to Z. */
  lemma LetterOfOption(j: nat)
    requires j < 26
    ensures Letter(j) == ('A' as int + j) as char && 'A' <= Letter(j) <= 'Z'
  {
  }

  /** `   A) option` and a line break. */
  function OptionLine(j: nat, opt: string): string {
    "   " + [Letter(j)] + ") " + opt + "\n"
  }

  /** The lines of the first n options, in their order. */
  function OptionLines(opts: seq<string>, n: nat): string
    requires n <= |opts|
  {
    if n == 0 then "" else OptionLines(opts, n - 1) + OptionLine(n - 1, opts[n - 1])
  }

  /** `Q{i+1}. question` and a line break. */
  function Heading(i: nat, m: Mcq): string {
    "Q" + DecimalString(i + 1) + ". " + m.question + "\n"
  }

  function AnswerLine(m: Mcq, showAnswers: bool): string {
    if showAnswers then "   Answer: " + m.answer + "\n" else ""
  }

  /** The text built for question i. */
  function Block(i: nat, m: Mcq, showAnswers: bool): string {
    Heading(i, m) + OptionLines(m.options, |m.options|) + AnswerLine(m, showAnswers)
  }

  /** `parts.join("\n")`. */
  function JoinLines(parts: seq<string>): string {
    if |parts| == 0 then ""
    else if |parts| == 1 then parts[0]
    else JoinLines(parts[..|parts| - 1]) + "\n" + parts[|parts| - 1]
  }

  function Blocks(mcqs: seq<Mcq>, showAnswers: bool): (bs: seq<string>)
    ensures |bs| == |mcqs|
  {
    seq(|mcqs|, i requires 0 <= i < |mcqs| => Block(i, mcqs[i], showAnswers))
  }

  /** The text copyToClipboard writes: one block per question, joined by line breaks. */
  function ClipboardText(mcqs: seq<Mcq>, showAnswers: bool): string {
    JoinLines(Blocks(mcqs, showAnswers))
  }

  /** The body of `mcqs.map`: the heading, then `str +=` once per option, then the answer. */
  method BuildBlock(i: nat, m: Mcq, showAnswers: bool) returns (str: string)
    ensures str == Block(i, m, showAnswers)
  {
    str := "Q" + DecimalString(i + 1) + ". " + m.question + "\n";
    var j := 0;
    while j < |m.options|
      invariant 0 <= j <= |m.options|
      invariant str == Heading(i, m) + OptionLines(m.options, j)
    {
      str := str + "   " + [Letter(j)] + ") " + m.options[j] + "\n";
      j := j + 1;
    }
    if showAnswers {
      str := str + "   Answer: " + m.answer + "\n";
    }
  }

  /** copyToClipboard: map every question to its block, then join them with line breaks. */
  method CopyText(mcqs: seq<Mcq>, showAnswers: bool) returns (text: string)
    ensures text == ClipboardText(mcqs, showAnswers)
  {
    var blocks: seq<string> := [];
    var i := 0;
    while i < |mcqs|
      invariant 0 <= i <= |mcqs|
      invariant blocks == Blocks(mcqs, showAnswers)[..i]
    {
      var b := BuildBlock(i, mcqs[i], showAnswers);
      blocks := blocks + [b];
      i := i + 1;
    }
    assert blocks == Blocks(mcqs, showAnswers);
    text := "";
    var k := 0;
    while k < |blocks|
      invariant 0 <= k <= |blocks|
      invariant text == JoinLines(blocks[..k])
    {
      if k > 0 {
        text := text + "\n";
      }
      text := text + blocks[k];
      assert blocks[..k + 1][..k] == blocks[..k];
      k := k + 1;
    }
    assert blocks[..|blocks|] == blocks;
  }

  /* ---------------------------------------------------------------- */
  /* What the clipboard text looks like                                */
  /* ---------------------------------------------------------------- */

  /** The number of line breaks in a text. */
  function Newlines(s: string): nat {
    if s == [] then 0 else Newlines(s[..|s| - 1]) + if s[|s| - 1] == '\n' then 1 else 0
  }

  /** A text without line breaks has none. */
  lemma {:induction false} NoNewlines(s: string)
    requires '\n' !in s
    ensures Newlines(s) == 0
    decreases |s|
  {
    if s != [] {
      NoNewlines(s[..|s| - 1]);
    }
  }

  /** No text of the question (its question, options or answer) holds a line break, and it has at most 26 options. */
  predicate SingleLine(m: Mcq) {
    && '\n' !in m.question && '\n' !in m.answer
    && |m.options| <= 26
    && forall j :: 0 <= j < |m.options| ==> '\n' !in m.options[j]
  }

  /** The lines of one block: the heading, one per option, and the answer when shown. */
  function BlockLines(m: Mcq, showAnswers: bool): nat {
    1 + |m.options| + if showAnswers then 1 else 0
  }

  function TotalLines(mcqs: seq<Mcq>, showAnswers: bool): nat {
    if mcqs == [] then 0 else TotalLines(mcqs[..|mcqs| - 1], showAnswers) + BlockLines(mcqs[|mcqs| - 1], showAnswers)
  }

  lemma {:induction false} NewlinesAppend(a: string, b: string)
    ensures Newlines(a + b) == Newlines(a) + Newlines(b)
    decreases |b|
  {
    if b != [] {
      assert (a + b)[..|a + b| - 1] == a + b[..|b| - 1];
      NewlinesAppend(a, b[..|b| - 1]);
    } else {
      assert a + b == a;
    }
  }

  /** A text without a line break, followed by one, has exactly one. */
  lemma OneNewline(a: string)
    requires '\n' !in a
    ensures Newlines(a + "\n") == 1
  {
    NoNewlines(a);
    assert (a + "\n")[..|a|] == a;
  }

  lemma {:induction false} OptionLinesNewlines(opts: seq<string>, n: nat)
    requires n <= |opts| && n <= 26
    requires forall j :: 0 <= j < |opts| ==> '\n' !in opts[j]
    ensures Newlines(OptionLines(opts, n)) == n
  {
    if n > 0 {
      OptionLinesNewlines(opts, n - 1);
      LetterOfOption(n - 1);
      var line := "   " + [Letter(n - 1)] + ") " + opts[n - 1];
      assert '\n' !in line;
      OneNewline(line);
      NewlinesAppend(OptionLines(opts, n - 1), OptionLine(n - 1, opts[n - 1]));
    }
  }

  lemma HeadingNewlines(i: nat, m: Mcq)
    requires '\n' !in m.question
    ensures Newlines(Heading(i, m)) == 1
  {
    var digits := DecimalString(i + 1);
    assert '\n' !in digits;
    var head := "Q" + digits + ". " + m.question;
    assert '\n' !in head;
    OneNewline(head);
  }

  lemma AnswerNewlines(m: Mcq, showAnswers: bool)
    requires '\n' !in m.answer
    ensures Newlines(AnswerLine(m, showAnswers)) == if showAnswers then 1 else 0
  {
    if showAnswers {
      var answer := "   Answer: " + m.answer;
      assert '\n' !in answer;
      OneNewline(answer);
    }
  }

  /** Every block of a single-line question ends its heading, each option and the shown answer with a line break. */
  lemma BlockNewlines(i: nat, m: Mcq, showAnswers: bool)
    requires SingleLine(m)
    ensures Newlines(Block(i, m, showAnswers)) == BlockLines(m, showAnswers)
  {
    var head, opts, answer := Heading(i, m), OptionLines(m.options, |m.options|), AnswerLine(m, showAnswers);
    HeadingNewlines(i, m);
    OptionLinesNewlines(m.options, |m.options|);
    AnswerNewlines(m, showAnswers);
    NewlinesAppend(head, opts);
    NewlinesAppend(head + opts, answer);
  }

  /** Dropping the last question drops the last block. */
  lemma BlocksPrefix(mcqs: seq<Mcq>, showAnswers: bool)
    requires mcqs != []
    ensures Blocks(mcqs, showAnswers)[..|mcqs| - 1] == Blocks(mcqs[..|mcqs| - 1], showAnswers)
  {
  }

  /** The clipboard text of all but the last question, a line break, and the last block. */
  lemma ClipboardSnoc(mcqs: seq<Mcq>, showAnswers: bool)
    requires |mcqs| > 1
    ensures Newlines(ClipboardText(mcqs, showAnswers))
            == Newlines(ClipboardText(mcqs[..|mcqs| - 1], showAnswers)) + 1
               + Newlines(Block(|mcqs| - 1, mcqs[|mcqs| - 1], showAnswers))
  {
    BlocksPrefix(mcqs, showAnswers);
    var front := ClipboardText(mcqs[..|mcqs| - 1], showAnswers);
    var last := Block(|mcqs| - 1, mcqs[|mcqs| - 1], showAnswers);
    assert ClipboardText(mcqs, showAnswers) == front + "\n" + last;
    NewlinesAppend(front, "\n");
    NewlinesAppend(front + "\n", last);
    OneNewline("");
    assert "" + "\n" == "\n";
  }

  lemma ClipboardSingle(mcqs: seq<Mcq>, showAnswers: bool)
    requires |mcqs| == 1
    ensures ClipboardText(mcqs, showAnswers) == Block(0, mcqs[0], showAnswers)
  {
  }

  /**
   * The clipboard text has one line per heading, option and shown answer,
   * and one empty line between consecutive questions: the blocks are
   * joined by a single extra line break, and an empty list gives "".
   */
  lemma {:induction false} ClipboardLines(mcqs: seq<Mcq>, showAnswers: bool)
    requires forall i :: 0 <= i < |mcqs| ==> SingleLine(mcqs[i])
    ensures mcqs == [] ==> ClipboardText(mcqs, showAnswers) == ""
    ensures mcqs != [] ==> Newlines(ClipboardText(mcqs, showAnswers)) == TotalLines(mcqs, showAnswers) + |mcqs| - 1
    decreases |mcqs|
  {
    if mcqs != [] {
      var n := |mcqs|;
      BlockNewlines(n - 1, mcqs[n - 1], showAnswers);
      if n == 1 {
        ClipboardSingle(mcqs, showAnswers);
      } else {
        ClipboardSnoc(mcqs, showAnswers);
        ClipboardLines(mcqs[..n - 1], showAnswers);
      }
    }
  }
}
