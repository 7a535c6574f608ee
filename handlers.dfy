/**
 The request handlers: the rendering of a request-level error as an HTTP
 status and body, and the six handlers that hand the request to an inner
 function over one data-access object and wrap its result for the transport.
 */
module Handlers {
  import opened Models
  import QuestionsDao
  import AnswersDao

  /** The request-level error taxonomy. */
  datatype HandlerError =
    | BadRequest(msg: string)
    | InternalError(msg: string)

  /** "400 Bad Request", section 15.5.1 of RFC 9110. */
  const BAD_REQUEST: nat := 400

  /** "500 Internal Server Error", section 15.6.1 of RFC 9110. */
  const INTERNAL_SERVER_ERROR: nat := 500

  /** The client-error status class 4xx, section 15.5 of RFC 9110. */
  predicate IsClientError(status: nat)
  {
    400 <= status < 500
  }

  /** The server-error status class 5xx, section 15.6 of RFC 9110. */
  predicate IsServerError(status: nat)
  {
    500 <= status < 600
  }

  /** A response as the transport sends it: a status and a text body. */
  datatype Response = Response(status: nat, body: string)

  /** The success body: the value the transport serialises as JSON. */
  datatype Json<T> = Json(inner: T)

  /** The shared application state; each handler picks the one data-access object it needs. */
  datatype AppState = AppState(questionsDao: QuestionsDao.QuestionsDaoImpl, answersDao: AnswersDao.AnswersDaoImpl)

  /**
   An error becomes a response whose body is the error's message unchanged;
   a bad request is a client error with status 400, an internal error a
   server error with status 500.
   */
  function IntoResponse(e: HandlerError): (r: Response)
    ensures r.body == e.msg
    ensures e.BadRequest? <==> IsClientError(r.status)
    ensures e.InternalError? <==> IsServerError(r.status)
    ensures e.BadRequest? ==> r.status == BAD_REQUEST
    ensures e.InternalError? ==> r.status == INTERNAL_SERVER_ERROR
  {
    match e
    case BadRequest(msg) => Response(BAD_REQUEST, msg)
    case InternalError(msg) => Response(INTERNAL_SERVER_ERROR, msg)
  }

  /**
   Reads an error back from a response, for the two statuses an error renders
   as: the inverse of `IntoResponse`, used to show that mapping loses nothing.
   */
  function ErrorOf(r: Response): (e: Option<HandlerError>)
    ensures e.Some? <==> r.status in {BAD_REQUEST, INTERNAL_SERVER_ERROR}
    ensures r.status == BAD_REQUEST ==> e == Some(BadRequest(r.body))
    ensures r.status == INTERNAL_SERVER_ERROR ==> e == Some(InternalError(r.body))
  {
    if r.status == BAD_REQUEST then Some(BadRequest(r.body))
    else if r.status == INTERNAL_SERVER_ERROR then Some(InternalError(r.body))
    else None
  }

  /** Every error can be read back from its response: the mapping loses nothing. */
  lemma ErrorOfIntoResponse(e: HandlerError)
    ensures ErrorOf(IntoResponse(e)) == Some(e)
  {
  }

  /** Distinct errors give distinct responses: each variant has its own status. */
  lemma IntoResponseInjective(e1: HandlerError, e2: HandlerError)
    requires IntoResponse(e1) == IntoResponse(e2)
    ensures e1 == e2
  {
  }

  /** The `Ok(Json(inner?))` shape every handler shares. */
  function Forward<T>(inner: Result<T, HandlerError>): (r: Result<Json<T>, HandlerError>)
    ensures r.Ok? <==> inner.Ok?
    ensures r.Ok? ==> r.value.inner == inner.value
    ensures r.Err? ==> r.error == inner.error
  {
    match inner
    case Err(e) => Err(e)
    case Ok(v) => Ok(Json(v))
  }

  /** Unwraps the JSON body again: the inverse of `Forward`. */
  function Unwrap<T>(r: Result<Json<T>, HandlerError>): (u: Result<T, HandlerError>)
    ensures u.Ok? <==> r.Ok?
    ensures u.Ok? ==> u.value == r.value.inner
    ensures u.Err? ==> u.error == r.error
  {
    match r
    case Err(e) => Err(e)
    case Ok(j) => Ok(j.inner)
  }

  lemma UnwrapForward<T>(inner: Result<T, HandlerError>)
    ensures Unwrap(Forward(inner)) == inner
  {
  }

  lemma ForwardUnwrap<T>(r: Result<Json<T>, HandlerError>)
    ensures Forward(Unwrap(r)) == r
  {
  }

  // ---- The six handlers; `inner` is the request-level function each one delegates to ----

  function CreateQuestion(state: AppState, question: Question,
                          inner: (Question, QuestionsDao.QuestionsDaoImpl) -> Result<QuestionDetail, HandlerError>)
    : (r: Result<Json<QuestionDetail>, HandlerError>)
    ensures Unwrap(r) == inner(question, state.questionsDao)
  {
    Forward(inner(question, state.questionsDao))
  }

  function ReadQuestions(state: AppState,
                         inner: QuestionsDao.QuestionsDaoImpl -> Result<seq<QuestionDetail>, HandlerError>)
    : (r: Result<Json<seq<QuestionDetail>>, HandlerError>)
    ensures Unwrap(r) == inner(state.questionsDao)
  {
    Forward(inner(state.questionsDao))
  }

  function DeleteQuestion(state: AppState, questionUuid: QuestionId,
                          inner: (QuestionId, QuestionsDao.QuestionsDaoImpl) -> Result<(), HandlerError>)
    : (r: Result<Json<()>, HandlerError>)
    ensures Unwrap(r) == inner(questionUuid, state.questionsDao)
  {
    Forward(inner(questionUuid, state.questionsDao))
  }

  function CreateAnswer(state: AppState, answer: Answer,
                        inner: (Answer, AnswersDao.AnswersDaoImpl) -> Result<AnswerDetail, HandlerError>)
    : (r: Result<Json<AnswerDetail>, HandlerError>)
    ensures Unwrap(r) == inner(answer, state.answersDao)
  {
    Forward(inner(answer, state.answersDao))
  }

  function ReadAnswers(state: AppState, questionUuid: QuestionId,
                       inner: (QuestionId, AnswersDao.AnswersDaoImpl) -> Result<seq<AnswerDetail>, HandlerError>)
    : (r: Result<Json<seq<AnswerDetail>>, HandlerError>)
    ensures Unwrap(r) == inner(questionUuid, state.answersDao)
  {
    Forward(inner(questionUuid, state.answersDao))
  }

  function DeleteAnswer(state: AppState, answerUuid: AnswerId,
                        inner: (AnswerId, AnswersDao.AnswersDaoImpl) -> Result<(), HandlerError>)
    : (r: Result<Json<()>, HandlerError>)
    ensures Unwrap(r) == inner(answerUuid, state.answersDao)
  {
    Forward(inner(answerUuid, state.answersDao))
  }

  /** The question handlers see only the questions data-access object. */
  lemma QuestionHandlersUseOnlyQuestionsDao(
    s1: AppState, s2: AppState, question: Question, id: QuestionId,
    create: (Question, QuestionsDao.QuestionsDaoImpl) -> Result<QuestionDetail, HandlerError>,
    read: QuestionsDao.QuestionsDaoImpl -> Result<seq<QuestionDetail>, HandlerError>,
    delete: (QuestionId, QuestionsDao.QuestionsDaoImpl) -> Result<(), HandlerError>)
    requires s1.questionsDao == s2.questionsDao
    ensures CreateQuestion(s1, question, create) == CreateQuestion(s2, question, create)
    ensures ReadQuestions(s1, read) == ReadQuestions(s2, read)
    ensures DeleteQuestion(s1, id, delete) == DeleteQuestion(s2, id, delete)
  {
  }

  /** The answer handlers see only the answers data-access object. */
  lemma AnswerHandlersUseOnlyAnswersDao(
    s1: AppState, s2: AppState, answer: Answer, qid: QuestionId, aid: AnswerId,
    create: (Answer, AnswersDao.AnswersDaoImpl) -> Result<AnswerDetail, HandlerError>,
    read: (QuestionId, AnswersDao.AnswersDaoImpl) -> Result<seq<AnswerDetail>, HandlerError>,
    delete: (AnswerId, AnswersDao.AnswersDaoImpl) -> Result<(), HandlerError>)
    requires s1.answersDao == s2.answersDao
    ensures CreateAnswer(s1, answer, create) == CreateAnswer(s2, answer, create)
    ensures ReadAnswers(s1, qid, read) == ReadAnswers(s2, qid, read)
    ensures DeleteAnswer(s1, aid, delete) == DeleteAnswer(s2, aid, delete)
  {
  }
}
