/**
 * The rules inside the question-paper page: the request handleGenerate
 * sends (the institution name only for premium plans), the row handleSave
 * stores with its total marks, and which sections the paper shows.
 */
module PaperPage {
  import opened Text
  import opened Validation
  import opened Profiles

  /** One generated question and the marks the model put on it. */
  datatype Question = Question(question: string, marks: int, answer: Option<string>)

  /** The paper: the 1-mark, 2-mark and 5-mark questions. */
  datatype Paper = Paper(oneMarks: seq<Question>, twoMarks: seq<Question>, fiveMarks: seq<Question>)

  /**
   * handleGenerate: nothing is sent when subject or topics is blank after
   * trimming or the free-tier gate is closed. The institution name is sent
   * only for a premium plan; otherwise it is undefined, which JSON leaves
   * out of the body.
   */
  function GenerateRequest(subject: string, topics: string, institutionName: string,
                           profile: Option<Profile>): Option<Body>
  {
    if IsBlank(subject) || IsBlank(topics) then None
    else if !CanGenerate(profile, Papers) then None
    else
      var body := map["subject" := Str(subject), "topics" := Str(topics)];
      Some(if IsPremium(profile) then body["institutionName" := Str(institutionName)] else body)
  }

  /** A request goes out exactly when both texts are non-blank and the gate is open; it names the institution exactly for premium plans. */
  lemma GenerateGuards(subject: string, topics: string, institutionName: string, profile: Option<Profile>)
    ensures GenerateRequest(subject, topics, institutionName, profile).Some?
            <==> !AllWhitespace(subject) && !AllWhitespace(topics) && CanGenerate(profile, Papers)
    ensures GenerateRequest(subject, topics, institutionName, profile).Some? ==>
              var body := GenerateRequest(subject, topics, institutionName, profile).value;
              && Get(body, "subject") == Str(subject) && Get(body, "topics") == Str(topics)
              && ("institutionName" in body <==> IsPremium(profile))
              && (IsPremium(profile) ==> body["institutionName"] == Str(institutionName))
  {
    BlankIffAllWhitespace(subject);
    BlankIffAllWhitespace(topics);
  }

  /** `oneMarks.length * 1 + twoMarks.length * 2 + fiveMarks.length * 5`. */
  function TotalMarks(p: Paper): int {
    |p.oneMarks| * 1 + |p.twoMarks| * 2 + |p.fiveMarks| * 5
  }

  /** The sum of the marks the questions themselves carry. */
  function SumMarks(qs: seq<Question>): int {
    if qs == [] then 0 else SumMarks(qs[..|qs| - 1]) + qs[|qs| - 1].marks
  }

  /** Every question carries the given marks. */
  predicate AllMarked(qs: seq<Question>, marks: int) {
    forall k :: 0 <= k < |qs| ==> qs[k].marks == marks
  }

  lemma {:induction false} SumMarksUniform(qs: seq<Question>, marks: int)
    requires AllMarked(qs, marks)
    ensures SumMarks(qs) == |qs| * marks
    decreases |qs|
  {
    if qs != [] {
      SumMarksUniform(qs[..|qs| - 1], marks);
    }
  }

  lemma {:induction false} SumMarksAppend(a: seq<Question>, b: seq<Question>)
    ensures SumMarks(a + b) == SumMarks(a) + SumMarks(b)
    decreases |b|
  {
    if b != [] {
      assert (a + b)[..|a + b| - 1] == a + b[..|b| - 1];
      SumMarksAppend(a, b[..|b| - 1]);
    } else {
      assert a + b == a;
    }
  }

  /**
   * The total counts questions per bucket, not their `marks` fields: when
   * every question carries its bucket's marks it is the sum of all marks,
   * and two papers with the same bucket sizes have the same total whatever
   * marks their questions carry.
   */
  lemma TotalMarksMeaning(p: Paper, q: Paper)
    ensures AllMarked(p.oneMarks, 1) && AllMarked(p.twoMarks, 2) && AllMarked(p.fiveMarks, 5) ==>
              TotalMarks(p) == SumMarks(p.oneMarks + p.twoMarks + p.fiveMarks)
    ensures |p.oneMarks| == |q.oneMarks| && |p.twoMarks| == |q.twoMarks| && |p.fiveMarks| == |q.fiveMarks| ==>
              TotalMarks(p) == TotalMarks(q)
  {
    if AllMarked(p.oneMarks, 1) && AllMarked(p.twoMarks, 2) && AllMarked(p.fiveMarks, 5) {
      SumMarksUniform(p.oneMarks, 1);
      SumMarksUniform(p.twoMarks, 2);
      SumMarksUniform(p.fiveMarks, 5);
      SumMarksAppend(p.oneMarks, p.twoMarks);
      SumMarksAppend(p.oneMarks + p.twoMarks, p.fiveMarks);
    }
  }

  /** The row inserted into saved_papers. */
  datatype SavedPaper = SavedPaper(
    userId: string,
    title: string,
    subject: string,
    institutionName: Option<string>,
    questions: Paper,
    totalMarks: int)

  /**
   * handleSave: no row without a user or a paper; the title is
   * `${subject} Question Paper` and an empty institution name is stored as null.
   */
  function SaveRecord(user: Option<string>, subject: string, institutionName: string,
                      paper: Option<Paper>): (r: Option<SavedPaper>)
    ensures r.None? <==> user.None? || paper.None?
    ensures r.Some? ==>
              && r.value.userId == user.value && r.value.subject == subject
              && r.value.questions == paper.value
              && r.value.totalMarks == TotalMarks(paper.value)
              && (r.value.institutionName.None? <==> institutionName == "")
              && (r.value.institutionName.Some? ==> r.value.institutionName.value == institutionName)
              && r.value.title == subject + " Question Paper" && r.value.title[..|subject|] == subject
  {
    if user.None? || paper.None? then None
    else
      Some(SavedPaper(user.value, subject + " Question Paper", subject,
                      if institutionName == "" then None else Some(institutionName),
                      paper.value, TotalMarks(paper.value)))
  }

  /** A rendered section: its letter, the marks of each question, and the questions. */
  datatype Section = Section(title: char, marksEach: int, questions: seq<Question>)

  /** Sections A (1 mark), B (2 marks) and C (5 marks), each only when its bucket is non-empty. */
  function VisibleSections(p: Paper): seq<Section> {
    (if |p.oneMarks| > 0 then [Section('A', 1, p.oneMarks)] else [])
    + (if |p.twoMarks| > 0 then [Section('B', 2, p.twoMarks)] else [])
    + (if |p.fiveMarks| > 0 then [Section('C', 5, p.fiveMarks)] else [])
  }

  /** The marks of the questions of the shown sections. */
  function SectionMarks(ss: seq<Section>): int {
    if ss == [] then 0 else SectionMarks(ss[..|ss| - 1]) + ss[|ss| - 1].marksEach * |ss[|ss| - 1].questions|
  }

  /**
   * The shown sections are the non-empty buckets in the order A, B, C with
   * strictly rising marks each, and none of them is empty.
   */
  lemma SectionsShape(p: Paper)
    ensures |VisibleSections(p)| == (if |p.oneMarks| > 0 then 1 else 0) + (if |p.twoMarks| > 0 then 1 else 0)
                                    + (if |p.fiveMarks| > 0 then 1 else 0)
    ensures forall k :: 0 <= k < |VisibleSections(p)| ==> |VisibleSections(p)[k].questions| > 0
    ensures forall k, l :: 0 <= k < l < |VisibleSections(p)| ==>
              VisibleSections(p)[k].marksEach < VisibleSections(p)[l].marksEach
              && VisibleSections(p)[k].title < VisibleSections(p)[l].title
  {
  }

  /** Together the shown sections account for the whole total. */
  lemma SectionsCoverPaper(p: Paper)
    ensures SectionMarks(VisibleSections(p)) == TotalMarks(p)
  {
    var a := if |p.oneMarks| > 0 then [Section('A', 1, p.oneMarks)] else [];
    var b := if |p.twoMarks| > 0 then [Section('B', 2, p.twoMarks)] else [];
    var c := if |p.fiveMarks| > 0 then [Section('C', 5, p.fiveMarks)] else [];
    SectionMarksAppend(a, b);
    SectionMarksAppend(a + b, c);
  }

  lemma {:induction false} SectionMarksAppend(a: seq<Section>, b: seq<Section>)
    ensures SectionMarks(a + b) == SectionMarks(a) + SectionMarks(b)
    decreases |b|
  {
    if b != [] {
      assert (a + b)[..|a + b| - 1] == a + b[..|b| - 1];
      SectionMarksAppend(a, b[..|b| - 1]);
    } else {
      assert a + b == a;
    }
  }

  /** The unit in a section heading: `mark` plus an `s` when more than one mark each. */
  function MarkUnit(marksEach: int): string {
    "mark" + if marksEach > 1 then "s" else ""
  }

  /** `Section: {title} ({marksEach} mark{s} each)`. */
  function SectionHeading(s: Section): string {
    "Section: " + [s.title] + " (" + IntString(s.marksEach) + " " + MarkUnit(s.marksEach) + " each)"
  }

  /** Section A says "mark", B and C say "marks". */
  lemma SectionUnits(p: Paper)
    ensures forall k :: 0 <= k < |VisibleSections(p)| ==>
              (MarkUnit(VisibleSections(p)[k].marksEach) == "mark" <==> VisibleSections(p)[k].title == 'A')
  {
  }
}
