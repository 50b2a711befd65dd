/**
 * The question editor of src/components/admin/AddQuestions.js: the option
 * list it edits in place, the submit guard on the stored token, the reset
 * after a successful post, and the status message it shows.
 */
module AddQuestions {
  import opened Common
  import opened Api

  const OptionCount := 4
  const NotLoggedInMessage := "\U{274C} You must be logged in to add a question."
  const AddedMessage := "\U{2705} Question added!"
  const FailedMessage := "\U{274C} Failed to add question."
  const NoConnectionMessage := "\U{274C} Could not connect to server."
  const DefaultServerMessage := "Something went wrong"

  /** `${n}` for any integer status. */
  function IntToString(n: int): (r: string)
    ensures n >= 0 ==> r == NatToString(n)
    ensures n < 0 ==> r == "-" + NatToString(-n)
  {
    if n >= 0 then NatToString(n) else "-" + NatToString(-n)
  }

  /** The body of `POST /quizzes/:id/questions`. */
  datatype QuestionPayload = QuestionPayload(questionText: string, options: seq<string>, correctOption: int)

  /** The request: path, body and its explicit `Authorization` header. */
  datatype QuestionRequest = QuestionRequest(path: string, payload: QuestionPayload, authorization: string)

  /**
   * The message after a rejected post: with a response, its status and the
   * server's message (or the default); without one, the connection message.
   */
  function ErrorMessage(err: HttpError): (m: string)
    ensures err.response.None? ==> m == NoConnectionMessage
    ensures err.response.Some? ==>
      m == "\U{274C} Error " + IntToString(err.response.value.status) + ": "
           + ServerMessageOr(err, DefaultServerMessage)
  {
    match err.response
    case None => NoConnectionMessage
    case Some(r) => "\U{274C} Error " + IntToString(r.status) + ": " + ServerMessageOr(err, DefaultServerMessage)
  }

  /** A connection failure and a server error never read alike. */
  lemma ErrorMessagesDistinguishCause(e1: HttpError, e2: HttpError)
    requires e1.response.None? && e2.response.Some?
    ensures ErrorMessage(e1) != ErrorMessage(e2)
  {
    var m1, m2 := ErrorMessage(e1), ErrorMessage(e2);
    assert m1[2] == 'C' && m2[2] == 'E';
  }

  /** The form's state. */
  class AddQuestionsForm {
    const quizId: string
    var questionText: string
    var options: seq<string>
    var correctOption: int
    var message: string

    /** The blank form: four empty options, the first marked correct. */
    predicate IsBlank()
      reads this
    {
      questionText == "" && options == ["", "", "", ""] && correctOption == 0
    }

    constructor (quizId: string)
      ensures this.quizId == quizId && IsBlank() && message == ""
      ensures |options| == OptionCount
    {
      this.quizId := quizId;
      questionText := "";
      options := ["", "", "", ""];
      correctOption := 0;
      message := "";
    }

    /** `handleOptionChange`: only the given option changes; the count stays. */
    method HandleOptionChange(value: string, index: nat)
      requires index < |options|
      modifies this
      ensures |options| == |old(options)| && options[index] == value
      ensures forall j :: 0 <= j < |options| && j != index ==> options[j] == old(options)[j]
      ensures questionText == old(questionText) && correctOption == old(correctOption) && message == old(message)
    {
      var updated := options;
      updated := updated[index := value];
      options := updated;
    }

    /**
     * `handleSubmit`: without a stored token only the message changes and no
     * request is made. Otherwise the form is posted; a 200 or 201 resets it
     * to the blank form, any other answer keeps it and sets a failure message.
     */
    method HandleSubmit(store: LocalStorage, reply: Reply<int>) returns (request: Option<QuestionRequest>)
      modifies this
      ensures var token := store.GetItem(TokenKey);
        && (!Truthy(token) ==>
              request.None? && message == NotLoggedInMessage
              && questionText == old(questionText) && options == old(options) && correctOption == old(correctOption))
        && (Truthy(token) ==>
              request == Some(QuestionRequest("/quizzes/" + quizId + "/questions",
                                              QuestionPayload(old(questionText), old(options), old(correctOption)),
                                              BearerPrefix + token.value)))
      ensures Truthy(store.GetItem(TokenKey)) && reply.Ok? && (reply.data == 200 || reply.data == 201) ==>
        message == AddedMessage && IsBlank()
      ensures Truthy(store.GetItem(TokenKey)) && reply.Ok? && reply.data != 200 && reply.data != 201 ==>
        message == FailedMessage
        && questionText == old(questionText) && options == old(options) && correctOption == old(correctOption)
      ensures Truthy(store.GetItem(TokenKey)) && reply.Err? ==>
        message == ErrorMessage(reply.error)
        && questionText == old(questionText) && options == old(options) && correctOption == old(correctOption)
    {
      var token := store.GetItem(TokenKey);
      if !Truthy(token) {
        message := NotLoggedInMessage;
        return None;
      }
      request := Some(QuestionRequest("/quizzes/" + quizId + "/questions",
                                      QuestionPayload(questionText, options, correctOption),
                                      BearerPrefix + token.value));
      match reply {
        case Ok(status) =>
          if status == 201 || status == 200 {
            message := AddedMessage;
            questionText := "";
            options := ["", "", "", ""];
            correctOption := 0;
          } else {
            message := FailedMessage;
          }
        case Err(e) =>
          message := ErrorMessage(e);
      }
    }
  }
}
