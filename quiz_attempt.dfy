/**
 * Taking a quiz, src/components/dashboard/QuizAttempt.js: the answers object
 * that radio selections fill, the submit payload built from its entries, and
 * the state the submit leaves. The answers object is modelled as its entries
 * in insertion order, which is the order `Object.entries` lists them for the
 * non-numeric ids the server issues.
 */
module QuizAttempt {
  import opened Common
  import opened Api

  /** One entry of the answers object: question id to chosen option text. */
  datatype Answer = Answer(qid: string, text: string)

  /** Object keys are unique. */
  predicate UniqueKeys(answers: seq<Answer>) {
    forall i, j :: 0 <= i < j < |answers| ==> answers[i].qid != answers[j].qid
  }

  /** `answers[qid]`: the entry's text, or `undefined`. */
  function AnswerFor(answers: seq<Answer>, qid: string): (r: Option<string>)
    ensures r.None? <==> forall i :: 0 <= i < |answers| ==> answers[i].qid != qid
  {
    if answers == [] then None
    else if answers[0].qid == qid then Some(answers[0].text)
    else AnswerFor(answers[1..], qid)
  }

  /** With unique keys, each entry is what a lookup of its key finds. */
  lemma {:induction false} AnswerForEntry(answers: seq<Answer>, i: nat)
    requires UniqueKeys(answers) && i < |answers|
    ensures AnswerFor(answers, answers[i].qid) == Some(answers[i].text)
  {
    if i > 0 {
      assert answers[1..][i - 1] == answers[i];
      AnswerForEntry(answers[1..], i - 1);
    }
  }

  /**
   * `{ ...prev, [qid]: optionText }`: an existing key keeps its place and
   * takes the new text; a new key goes last.
   */
  function Select(answers: seq<Answer>, qid: string, text: string): (r: seq<Answer>)
    ensures |r| == if AnswerFor(answers, qid).Some? then |answers| else |answers| + 1
  {
    if answers == [] then [Answer(qid, text)]
    else if answers[0].qid == qid then [Answer(qid, text)] + answers[1..]
    else [answers[0]] + Select(answers[1..], qid, text)
  }

  /** Selecting a question not yet answered appends its entry after all the others. */
  lemma {:induction false} SelectAppendsNew(answers: seq<Answer>, qid: string, text: string)
    requires AnswerFor(answers, qid).None?
    ensures Select(answers, qid, text) == answers + [Answer(qid, text)]
  {
    if answers != [] {
      SelectAppendsNew(answers[1..], qid, text);
      assert answers == [answers[0]] + answers[1..];
    }
  }

  /**
   * Selecting an answered question overwrites its first entry in place:
   * every other entry keeps its position and content.
   */
  lemma {:induction false} SelectOverwritesFirst(answers: seq<Answer>, qid: string, text: string, i: nat)
    requires i < |answers| && answers[i].qid == qid
    requires forall j :: 0 <= j < i ==> answers[j].qid != qid
    ensures Select(answers, qid, text) == answers[i := Answer(qid, text)]
  {
    if i > 0 {
      var rest := answers[1..];
      forall j | 0 <= j < i - 1 ensures rest[j].qid != qid {
        assert rest[j] == answers[j + 1];
      }
      SelectOverwritesFirst(rest, qid, text, i - 1);
      assert answers[i := Answer(qid, text)] == [answers[0]] + rest[i - 1 := Answer(qid, text)];
    }
  }

  /** After a selection the question reads back the chosen text and every other question is as before. */
  lemma {:induction false} SelectReadsBack(answers: seq<Answer>, qid: string, text: string)
    ensures AnswerFor(Select(answers, qid, text), qid) == Some(text)
    ensures forall k :: k != qid ==> AnswerFor(Select(answers, qid, text), k) == AnswerFor(answers, k)
  {
    if answers != [] && answers[0].qid != qid {
      SelectReadsBack(answers[1..], qid, text);
      var r := Select(answers, qid, text);
      assert r[1..] == Select(answers[1..], qid, text);
    } else if answers != [] {
      var r := Select(answers, qid, text);
      assert r[1..] == answers[1..];
    }
  }

  /** The keys of a selection are the old keys plus the selected question. */
  lemma {:induction false} SelectKeys(answers: seq<Answer>, qid: string, text: string)
    ensures forall i :: 0 <= i < |Select(answers, qid, text)| ==>
      Select(answers, qid, text)[i].qid == qid || AnswerFor(answers, Select(answers, qid, text)[i].qid).Some?
  {
    if answers != [] && answers[0].qid != qid {
      SelectKeys(answers[1..], qid, text);
      var r := Select(answers, qid, text);
      assert r[1..] == Select(answers[1..], qid, text);
      forall i | 1 <= i < |r| ensures r[i].qid == qid || AnswerFor(answers, r[i].qid).Some? {
        assert r[i] == r[1..][i - 1];
      }
    }
  }

  /** A selection keeps the object's keys unique. */
  lemma {:induction false} SelectKeepsUniqueKeys(answers: seq<Answer>, qid: string, text: string)
    requires UniqueKeys(answers)
    ensures UniqueKeys(Select(answers, qid, text))
  {
    if answers != [] && answers[0].qid != qid {
      SelectKeepsUniqueKeys(answers[1..], qid, text);
      SelectKeys(answers[1..], qid, text);
      var r := Select(answers, qid, text);
      var rest := Select(answers[1..], qid, text);
      assert r[1..] == rest;
      forall j | 1 <= j < |r| ensures r[0].qid != r[j].qid {
        assert r[j] == rest[j - 1];
        if AnswerFor(answers[1..], rest[j - 1].qid).Some? {
          var m :| 0 <= m < |answers[1..]| && answers[1..][m].qid == rest[j - 1].qid;
          assert answers[m + 1].qid == r[j].qid;
        }
      }
    }
  }

  /** Choosing again overwrites: only the last choice for a question counts. */
  lemma ReselectOverwrites(answers: seq<Answer>, qid: string, first: string, second: string)
    ensures forall k :: AnswerFor(Select(Select(answers, qid, first), qid, second), k)
                     == AnswerFor(Select(answers, qid, second), k)
  {
    SelectReadsBack(answers, qid, first);
    SelectReadsBack(Select(answers, qid, first), qid, second);
    SelectReadsBack(answers, qid, second);
  }

  /** A radio button is checked exactly when the stored answer is its option text. */
  predicate Checked(answers: seq<Answer>, qid: string, optionText: string) {
    AnswerFor(answers, qid) == Some(optionText)
  }

  /** The selection is what shows as checked: the chosen option and no other of that question. */
  lemma SelectedIsChecked(answers: seq<Answer>, qid: string, text: string, other: string)
    ensures Checked(Select(answers, qid, text), qid, text)
    ensures other != text ==> !Checked(Select(answers, qid, text), qid, other)
  {
    SelectReadsBack(answers, qid, text);
  }

  /** One `{questionId, selectedOption}` of the payload. */
  datatype SubmittedAnswer = SubmittedAnswer(questionId: string, selectedOption: string)

  /** The body of `POST /quizzes/:id/submit`. */
  datatype SubmitPayload = SubmitPayload(quizId: string, answers: seq<SubmittedAnswer>)

  function PayloadOf(quizId: string, answers: seq<Answer>): (p: SubmitPayload)
    ensures p.quizId == quizId && |p.answers| == |answers|
    ensures forall i :: 0 <= i < |answers| ==>
      p.answers[i].questionId == answers[i].qid && p.answers[i].selectedOption == answers[i].text
  {
    SubmitPayload(quizId, seq(|answers|, i requires 0 <= i < |answers| =>
                                SubmittedAnswer(answers[i].qid, answers[i].text)))
  }

  /**
   * The payload has exactly one entry per answered question, carrying that
   * question's answer, and none for an unanswered one.
   */
  lemma PayloadOnePerQuestion(quizId: string, answers: seq<Answer>)
    requires UniqueKeys(answers)
    ensures var p := PayloadOf(quizId, answers).answers;
      && (forall i, j :: 0 <= i < j < |p| ==> p[i].questionId != p[j].questionId)
      && (forall i :: 0 <= i < |p| ==> AnswerFor(answers, p[i].questionId) == Some(p[i].selectedOption))
      && (forall q :: AnswerFor(answers, q).Some? <==> exists i :: 0 <= i < |p| && p[i].questionId == q)
  {
    var p := PayloadOf(quizId, answers).answers;
    forall i | 0 <= i < |p| ensures AnswerFor(answers, p[i].questionId) == Some(p[i].selectedOption) {
      AnswerForEntry(answers, i);
    }
    forall q | AnswerFor(answers, q).Some? ensures exists i :: 0 <= i < |p| && p[i].questionId == q {
      var i :| 0 <= i < |answers| && answers[i].qid == q;
      assert p[i].questionId == q;
    }
  }

  /** The score the server returns. */
  datatype QuizResult = QuizResult(score: int, total: int)

  /** The page's state (the question list is only rendered). */
  class QuizAttemptPage {
    const quizId: string
    var answers: seq<Answer>
    var submitted: bool
    var result: Option<QuizResult>

    constructor (quizId: string)
      ensures this.quizId == quizId && answers == [] && !submitted && result.None?
    {
      this.quizId := quizId;
      answers := [];
      submitted := false;
      result := None;
    }

    /** `handleSelect`. */
    method HandleSelect(qid: string, optionText: string)
      modifies this
      ensures answers == Select(old(answers), qid, optionText)
      ensures Checked(answers, qid, optionText)
      ensures forall k :: k != qid ==> AnswerFor(answers, k) == AnswerFor(old(answers), k)
      ensures UniqueKeys(old(answers)) ==> UniqueKeys(answers)
      ensures submitted == old(submitted) && result == old(result)
    {
      SelectReadsBack(answers, qid, optionText);
      if UniqueKeys(answers) {
        SelectKeepsUniqueKeys(answers, qid, optionText);
      }
      answers := Select(answers, qid, optionText);
    }

    /**
     * `handleSubmit`: the payload is sent; the result is stored and the page
     * switches to the score only when the request succeeds (a rejection is
     * not caught and changes nothing).
     */
    method HandleSubmit(reply: Reply<QuizResult>) returns (payload: SubmitPayload)
      modifies this
      ensures payload == PayloadOf(quizId, answers)
      ensures answers == old(answers)
      ensures reply.Ok? ==> result == Some(reply.data) && submitted
      ensures reply.Err? ==> result == old(result) && submitted == old(submitted)
    {
      payload := PayloadOf(quizId, answers);
      if reply.Ok? {
        result := Some(reply.data);
        submitted := true;
      }
    }
  }
}
