/**
 The questions data-access object: create a question, delete one by id, list
 them all. Each operation sends at most one statement to the pool and
 classifies the driver's failure; the only identifier it parses is the one
 passed to delete.
 */
module QuestionsDao {
  import opened Models

  /** The data-access object owns a handle on the shared pool. */
  datatype QuestionsDaoImpl = QuestionsDaoImpl(db: Pool)

  /** A stored row rendered as the detail form: typed columns become text. */
  function QuestionDetailOf(env: Env, rec: QuestionRecord): (d: QuestionDetail)
    ensures d.questionUuid == env.uuidText(rec.questionUuid)
    ensures d.title == rec.title
    ensures d.description == rec.description
    ensures d.createdAt == env.timeText(rec.createdAt)
  {
    QuestionDetail(env.uuidText(rec.questionUuid), rec.title, rec.description, env.timeText(rec.createdAt))
  }

  /** The rows of a SELECT rendered one by one, in the order the driver returned them. */
  function QuestionDetails(env: Env, records: seq<QuestionRecord>): (ds: seq<QuestionDetail>)
    ensures |ds| == |records|
    ensures forall i :: 0 <= i < |records| ==> ds[i] == QuestionDetailOf(env, records[i])
  {
    if records == [] then [] else [QuestionDetailOf(env, records[0])] + QuestionDetails(env, records[1..])
  }

  /**
   Inserts the title and description. On success the detail carries the
   returned row's fields; every failure is `Other` around the driver's error.
   */
  function CreateQuestion(env: Env, dao: QuestionsDaoImpl, question: Question): (o: Outcome<QuestionDetail>)
    ensures o.issued == [InsertIntoQuestions(question.title, question.description)]
    ensures var row := dao.db.insertQuestion(question.title, question.description);
      && (o.result.Ok? <==> row.Ok?)
      && (o.result.Ok? ==>
            && o.result.value.questionUuid == env.uuidText(row.value.questionUuid)
            && o.result.value.title == row.value.title
            && o.result.value.description == row.value.description
            && o.result.value.createdAt == env.timeText(row.value.createdAt))
      && (o.result.Err? ==> row.Err? && o.result.error == Other(row.error))
    ensures !(o.result.Err? && o.result.error.InvalidUUID?)
  {
    var row := dao.db.insertQuestion(question.title, question.description);
    var result := match row
      case Err(e) => Err(Other(e))
      case Ok(rec) => Ok(QuestionDetailOf(env, rec));
    Outcome(result, [InsertIntoQuestions(question.title, question.description)])
  }

  /**
   Parses the id first: a malformed id is `InvalidUUID` and nothing is sent.
   Otherwise one DELETE is sent; any driver error is `Other`, and any success
   is `Ok(())` however many rows it removed.
   */
  function DeleteQuestion(env: Env, dao: QuestionsDaoImpl, questionUuid: string): (o: Outcome<()>)
    ensures var p := env.parseUuid(questionUuid);
      && (p.Err? ==> o.issued == [] && o.result == Err(InvalidUUID(p.error)))
      && (p.Ok? ==>
            var deleted := dao.db.deleteQuestion(p.value);
            && o.issued == [DeleteFromQuestions(p.value)]
            && (o.result.Ok? <==> deleted.Ok?)
            && (deleted.Err? ==> o.result == Err(Other(deleted.error))))
  {
    match env.parseUuid(questionUuid)
    case Err(msg) => Outcome(Err(InvalidUUID(msg)), [])
    case Ok(uuid) =>
      var result := match dao.db.deleteQuestion(uuid)
        case Err(e) => Err(Other(e))
        case Ok(_) => Ok(());
      Outcome(result, [DeleteFromQuestions(uuid)])
  }

  /**
   Sends one SELECT. On success the list is the fetched rows rendered element by
   element in order; every failure is `Other` around the driver's error.
   */
  function GetQuestions(env: Env, dao: QuestionsDaoImpl): (o: Outcome<seq<QuestionDetail>>)
    ensures o.issued == [SelectAllQuestions]
    ensures var rows := dao.db.selectQuestions;
      && (o.result.Ok? <==> rows.Ok?)
      && (o.result.Ok? ==>
            && |o.result.value| == |rows.value|
            && forall i :: 0 <= i < |rows.value| ==> o.result.value[i] == QuestionDetailOf(env, rows.value[i]))
      && (o.result.Err? ==> rows.Err? && o.result.error == Other(rows.error))
    ensures dao.db.selectQuestions == Ok([]) ==> o.result == Ok([])
  {
    var result := match dao.db.selectQuestions
      case Err(e) => Err(Other(e))
      case Ok(records) => Ok(QuestionDetails(env, records));
    Outcome(result, [SelectAllQuestions])
  }

  // ---- Properties relating several calls or several inputs ----

  /** Rendering a list splits over concatenation: the order of the rows is kept. */
  lemma QuestionDetailsAppend(env: Env, a: seq<QuestionRecord>, b: seq<QuestionRecord>)
    ensures QuestionDetails(env, a + b) == QuestionDetails(env, a) + QuestionDetails(env, b)
  {
  }

  /** Every fetched row appears, rendered, in the list. */
  lemma QuestionDetailsContains(env: Env, records: seq<QuestionRecord>, rec: QuestionRecord)
    requires rec in records
    ensures QuestionDetailOf(env, rec) in QuestionDetails(env, records)
  {
  }

  /**
   With a store whose INSERT returns the title and description it was given,
   a created question echoes its input.
   */
  lemma CreateQuestionEchoesInput(env: Env, dao: QuestionsDaoImpl, question: Question)
    requires forall t, d :: dao.db.insertQuestion(t, d).Ok? ==>
               dao.db.insertQuestion(t, d).value.title == t && dao.db.insertQuestion(t, d).value.description == d
    ensures var o := CreateQuestion(env, dao, question);
      o.result.Ok? ==> o.result.value.title == question.title && o.result.value.description == question.description
  {
  }

  /**
   Create, then list: when the SELECT returns the row the INSERT returned, the
   list holds a detail equal to the created one.
   */
  lemma CreatedQuestionIsListed(env: Env, dao: QuestionsDaoImpl, question: Question)
    requires dao.db.insertQuestion(question.title, question.description).Ok?
    requires dao.db.selectQuestions.Ok?
    requires dao.db.insertQuestion(question.title, question.description).value in dao.db.selectQuestions.value
    ensures CreateQuestion(env, dao, question).result.Ok?
    ensures GetQuestions(env, dao).result.Ok?
    ensures CreateQuestion(env, dao, question).result.value in GetQuestions(env, dao).result.value
  {
  }

  /**
   A delete that succeeds at the store succeeds whatever it removed: deleting
   an absent id (zero rows) reads the same as deleting a present one.
   */
  lemma DeleteQuestionIgnoresRowCount(env: Env, dao1: QuestionsDaoImpl, dao2: QuestionsDaoImpl, questionUuid: string)
    requires env.parseUuid(questionUuid).Ok?
    requires dao1.db.deleteQuestion(env.parseUuid(questionUuid).value).Ok?
    requires dao2.db.deleteQuestion(env.parseUuid(questionUuid).value).Ok?
    ensures DeleteQuestion(env, dao1, questionUuid) == DeleteQuestion(env, dao2, questionUuid)
    ensures DeleteQuestion(env, dao1, questionUuid).result == Ok(())
  {
  }
}
