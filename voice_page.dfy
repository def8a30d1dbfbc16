/**
 * The rules inside the voice-to-notes page: how a speech-recognition
 * result event rewrites the transcript, when processing sends the
 * transcript, and the row handleSave stores. The page's React state
 * (transcript, summary and MCQs) is the VoiceNotes object.
 */
module VoicePage {
  import opened Text
  import opened Validation
  import opened Profiles

  /** One entry of `event.results`: its best alternative's text and whether it is final. */
  datatype SpeechResult = SpeechResult(text: string, isFinal: bool)

  /** One question of the generated MCQs. */
  datatype Mcq = Mcq(question: string, options: seq<string>, answer: string)

  /** The texts of the final results among results[lo..hi], each followed by a space. */
  function Finals(results: seq<SpeechResult>, lo: nat, hi: nat): string
    requires hi <= |results|
    decreases hi
  {
    if hi <= lo then ""
    else Finals(results, lo, hi - 1) + if results[hi - 1].isFinal then results[hi - 1].text + " " else ""
  }

  /** The texts of the interim results among results[lo..hi], with no separator. */
  function Interims(results: seq<SpeechResult>, lo: nat, hi: nat): string
    requires hi <= |results|
    decreases hi
  {
    if hi <= lo then ""
    else Interims(results, lo, hi - 1) + if results[hi - 1].isFinal then "" else results[hi - 1].text
  }

  /**
   * The transcript after a result event: the transcript captured when
   * recording started (`base`), then the final texts from `resultIndex`
   * on, then the interim texts.
   */
  function NewTranscript(base: string, results: seq<SpeechResult>, resultIndex: nat): string {
    base + Finals(results, resultIndex, |results|) + Interims(results, resultIndex, |results|)
  }

  lemma {:induction false} FinalsShift(results: seq<SpeechResult>, lo: nat, hi: nat)
    requires lo <= hi <= |results|
    ensures Finals(results, lo, hi) == Finals(results[lo..], 0, hi - lo)
    ensures Interims(results, lo, hi) == Interims(results[lo..], 0, hi - lo)
    decreases hi
  {
    if lo < hi {
      FinalsShift(results, lo, hi - 1);
      assert results[lo..][hi - 1 - lo] == results[hi - 1];
    }
  }

  /**
   * Results before `resultIndex` do not count: the event reads the same as
   * one holding only the later results. An index past the end leaves the
   * base transcript.
   */
  lemma EarlierResultsIgnored(base: string, results: seq<SpeechResult>, resultIndex: nat)
    ensures resultIndex <= |results| ==>
              NewTranscript(base, results, resultIndex) == NewTranscript(base, results[resultIndex..], 0)
    ensures resultIndex >= |results| ==> NewTranscript(base, results, resultIndex) == base
  {
    if resultIndex <= |results| {
      FinalsShift(results, resultIndex, |results|);
    }
  }

  /**
   * A further result goes to the final part when it is final and to the
   * interim part otherwise, so a later final text lands before every
   * earlier interim text.
   */
  lemma NextResult(base: string, results: seq<SpeechResult>, resultIndex: nat, r: SpeechResult)
    requires resultIndex <= |results|
    ensures var rs := results + [r];
            NewTranscript(base, rs, resultIndex)
            == base + Finals(results, resultIndex, |results|) + (if r.isFinal then r.text + " " else "")
               + Interims(results, resultIndex, |results|) + (if r.isFinal then "" else r.text)
  {
    var rs := results + [r];
    FinalsPrefix(results, rs, resultIndex, |results|);
  }

  lemma {:induction false} FinalsPrefix(results: seq<SpeechResult>, rs: seq<SpeechResult>, lo: nat, hi: nat)
    requires hi <= |results| <= |rs| && results == rs[..|results|]
    ensures Finals(rs, lo, hi) == Finals(results, lo, hi)
    ensures Interims(rs, lo, hi) == Interims(results, lo, hi)
    decreases hi
  {
    if lo < hi {
      FinalsPrefix(results, rs, lo, hi - 1);
      assert rs[hi - 1] == results[hi - 1];
    }
  }

  /** The number of final results among results[lo..hi]. */
  function FinalCount(results: seq<SpeechResult>, lo: nat, hi: nat): nat
    requires hi <= |results|
    decreases hi
  {
    if hi <= lo then 0 else FinalCount(results, lo, hi - 1) + if results[hi - 1].isFinal then 1 else 0
  }

  function TextLength(results: seq<SpeechResult>, lo: nat, hi: nat): nat
    requires hi <= |results|
    decreases hi
  {
    if hi <= lo then 0 else TextLength(results, lo, hi - 1) + |results[hi - 1].text|
  }

  /** The text added by an event: every text from resultIndex on, and one space per final result. */
  lemma {:induction false} TranscriptLength(results: seq<SpeechResult>, lo: nat, hi: nat)
    requires hi <= |results|
    ensures |Finals(results, lo, hi)| + |Interims(results, lo, hi)|
            == TextLength(results, lo, hi) + FinalCount(results, lo, hi)
    decreases hi
  {
    if lo < hi {
      TranscriptLength(results, lo, hi - 1);
    }
  }

  /** The row inserted into saved_notes. */
  datatype SavedNote = SavedNote(
    userId: string,
    title: string,
    originalText: string,
    summary: Option<string>,
    generatedMcqs: Option<seq<Mcq>>)

  /** Why handleSave stored nothing. */
  datatype SaveRefusal = NothingToSave | TitleRequired

  datatype SaveResult = Saved(row: SavedNote) | NotSaved(reason: SaveRefusal)

  /**
   * handleSave: silently nothing without a user or with an empty
   * transcript; a title that is blank after trimming is refused; otherwise
   * an empty summary and an empty MCQ list are stored as null.
   */
  function SaveRecord(user: Option<string>, title: string, transcript: string, summary: string,
                      mcqs: seq<Mcq>): (r: SaveResult)
    ensures r == NotSaved(NothingToSave) <==> user.None? || transcript == ""
    ensures r == NotSaved(TitleRequired) <==> user.Some? && transcript != "" && AllWhitespace(title)
    ensures r.Saved? ==>
              && r.row.userId == user.value && r.row.title == title && r.row.originalText == transcript
              && (r.row.summary.None? <==> summary == "")
              && (r.row.summary.Some? ==> r.row.summary.value == summary)
              && (r.row.generatedMcqs.None? <==> mcqs == [])
              && (r.row.generatedMcqs.Some? ==> r.row.generatedMcqs.value == mcqs)
  {
    BlankIffAllWhitespace(title);
    if user.None? || transcript == "" then NotSaved(NothingToSave)
    else if IsBlank(title) then NotSaved(TitleRequired)
    else Saved(SavedNote(user.value, title, transcript,
                         if summary == "" then None else Some(summary),
                         if |mcqs| > 0 then Some(mcqs) else None))
  }

  /** The page's state. */
  class VoiceNotes {
    var transcript: string
    var summary: string
    var mcqs: seq<Mcq>

    constructor ()
      ensures transcript == "" && summary == "" && mcqs == []
    {
      transcript := "";
      summary := "";
      mcqs := [];
    }

    /**
     * recognition.onresult: the loop from resultIndex over the results,
     * building the final and the interim text, then the new transcript.
     * `base` is the transcript captured when recording started.
     */
    method OnResult(base: string, results: seq<SpeechResult>, resultIndex: nat)
      modifies this
      ensures transcript == NewTranscript(base, results, resultIndex)
      ensures summary == old(summary) && mcqs == old(mcqs)
    {
      var interimTranscript := "";
      var finalTranscript := base;
      var i := resultIndex;
      if i < |results| {
        while i < |results|
          invariant resultIndex <= i <= |results|
          invariant finalTranscript == base + Finals(results, resultIndex, i)
          invariant interimTranscript == Interims(results, resultIndex, i)
        {
          var result := results[i];
          if result.isFinal {
            finalTranscript := finalTranscript + result.text + " ";
          } else {
            interimTranscript := interimTranscript + result.text;
          }
          i := i + 1;
        }
      }
      transcript := finalTranscript + interimTranscript;
    }

    /**
     * handleProcess: nothing for a blank transcript or a closed gate;
     * otherwise the summary and MCQs are cleared and the transcript is
     * sent as `text`.
     */
    method Process(profile: Option<Profile>) returns (request: Option<Body>)
      modifies this
      ensures request.None? <==> AllWhitespace(old(transcript)) || !CanGenerate(profile, Voice)
      ensures request.None? ==> summary == old(summary) && mcqs == old(mcqs)
      ensures request.Some? ==> summary == "" && mcqs == [] && request.value == map["text" := Str(transcript)]
      ensures transcript == old(transcript)
    {
      BlankIffAllWhitespace(transcript);
      if IsBlank(transcript) {
        return None;
      }
      if !CanGenerate(profile, Voice) {
        return None;
      }
      summary := "";
      mcqs := [];
      return Some(map["text" := Str(transcript)]);
    }
  }

  /**
   * A transcript the page sends is never refused by process-voice-notes
   * as missing: it is a string that is not whitespace only.
   */
  lemma SentTextNotMissing(transcript: string)
    requires !AllWhitespace(transcript)
    ensures ValidateText(Str(transcript)) != Invalid(TextRequired)
  {
  }
}
