/**
 The answers data-access object: create an answer to a question, delete one
 by id, list the answers of a question. Every operation parses its identifier
 before it sends anything to the pool; create additionally tells a
 foreign-key violation (the referenced question does not exist) apart from
 every other failure.
 */
module AnswersDao {
  import opened Models

  /** The data-access object owns a handle on the shared pool. */
  datatype AnswersDaoImpl = AnswersDaoImpl(db: Pool)

  /** The store rejected a row because the question it references does not exist. */
  predicate IsForeignKeyViolation(env: Env, e: DriverError): (b: bool)
    ensures b <==> e.Database? && e.code.Some? && e.code.value == env.foreignKeyViolation
    ensures e.NonDatabase? ==> !b
  {
    e.Database? && e.code == Some(env.foreignKeyViolation)
  }

  /**
   The classification of an INSERT failure: a reference the store rejects
   reads as an invalid identifier, carrying the server's message; anything
   else is `Other` around the driver's error itself.
   */
  function ClassifyInsertError(env: Env, e: DriverError): (r: DBError)
    ensures r.InvalidUUID? <==> IsForeignKeyViolation(env, e)
    ensures r.InvalidUUID? ==> r.detail == e.message
    ensures r.Other? ==> r.cause == e
  {
    if e.Database? && e.code.Some? && e.code.value == env.foreignKeyViolation then
      InvalidUUID(e.message)
    else
      Other(e)
  }

  /** A stored row rendered as the detail form: typed columns become text. */
  function AnswerDetailOf(env: Env, rec: AnswerRecord): (d: AnswerDetail)
    ensures d.answerUuid == env.uuidText(rec.answerUuid)
    ensures d.questionUuid == env.uuidText(rec.questionUuid)
    ensures d.content == rec.content
    ensures d.createdAt == env.timeText(rec.createdAt)
  {
    AnswerDetail(env.uuidText(rec.answerUuid), env.uuidText(rec.questionUuid), rec.content, env.timeText(rec.createdAt))
  }

  /** The rows of a SELECT rendered one by one, in the order the driver returned them. */
  function AnswerDetails(env: Env, records: seq<AnswerRecord>): (ds: seq<AnswerDetail>)
    ensures |ds| == |records|
    ensures forall i :: 0 <= i < |records| ==> ds[i] == AnswerDetailOf(env, records[i])
  {
    if records == [] then [] else [AnswerDetailOf(env, records[0])] + AnswerDetails(env, records[1..])
  }

  /**
   Parses the referenced question's id: a malformed id is `InvalidUUID` and
   nothing is sent. Otherwise one INSERT is sent with the parsed id and the
   content; a foreign-key violation is `InvalidUUID`, every other failure is
   `Other`, and success carries the returned row's fields as text.
   */
  function CreateAnswer(env: Env, dao: AnswersDaoImpl, answer: Answer): (o: Outcome<AnswerDetail>)
    ensures var p := env.parseUuid(answer.questionUuid);
      && (p.Err? ==> o.issued == [] && o.result == Err(InvalidUUID(p.error)))
      && (p.Ok? ==>
            var row := dao.db.insertAnswer(p.value, answer.content);
            && o.issued == [InsertIntoAnswers(p.value, answer.content)]
            && (o.result.Ok? <==> row.Ok?)
            && (o.result.Ok? ==>
                  && o.result.value.answerUuid == env.uuidText(row.value.answerUuid)
                  && o.result.value.questionUuid == env.uuidText(row.value.questionUuid)
                  && o.result.value.content == row.value.content
                  && o.result.value.createdAt == env.timeText(row.value.createdAt))
            && (row.Err? && IsForeignKeyViolation(env, row.error) ==>
                  o.result == Err(InvalidUUID(row.error.message)))
            && (row.Err? && !IsForeignKeyViolation(env, row.error) ==>
                  o.result == Err(Other(row.error))))
  {
    match env.parseUuid(answer.questionUuid)
    case Err(msg) => Outcome(Err(InvalidUUID(msg)), [])
    case Ok(uuid) =>
      var result := match dao.db.insertAnswer(uuid, answer.content)
        case Err(e) => Err(ClassifyInsertError(env, e))
        case Ok(rec) => Ok(AnswerDetailOf(env, rec));
      Outcome(result, [InsertIntoAnswers(uuid, answer.content)])
  }

  /**
   Parses the id first: a malformed id is `InvalidUUID` and nothing is sent.
   Otherwise one DELETE is sent; any driver error is `Other` (no foreign-key
   reclassification here), and any success is `Ok(())` however many rows it
   removed.
   */
  function DeleteAnswer(env: Env, dao: AnswersDaoImpl, answerUuid: string): (o: Outcome<()>)
    ensures var p := env.parseUuid(answerUuid);
      && (p.Err? ==> o.issued == [] && o.result == Err(InvalidUUID(p.error)))
      && (p.Ok? ==>
            var deleted := dao.db.deleteAnswer(p.value);
            && o.issued == [DeleteFromAnswers(p.value)]
            && (o.result.Ok? <==> deleted.Ok?)
            && (deleted.Err? ==> o.result == Err(Other(deleted.error))))
  {
    match env.parseUuid(answerUuid)
    case Err(msg) => Outcome(Err(InvalidUUID(msg)), [])
    case Ok(uuid) =>
      var result := match dao.db.deleteAnswer(uuid)
        case Err(e) => Err(Other(e))
        case Ok(_) => Ok(());
      Outcome(result, [DeleteFromAnswers(uuid)])
  }

  /**
   Parses the question's id first: a malformed id is `InvalidUUID` and nothing
   is sent. Otherwise one SELECT is sent; any driver error is `Other`, and
   success is the fetched rows rendered element by element in order — no rows
   is an empty list, not an error.
   */
  function GetAnswers(env: Env, dao: AnswersDaoImpl, questionUuid: string): (o: Outcome<seq<AnswerDetail>>)
    ensures var p := env.parseUuid(questionUuid);
      && (p.Err? ==> o.issued == [] && o.result == Err(InvalidUUID(p.error)))
      && (p.Ok? ==>
            var rows := dao.db.selectAnswers(p.value);
            && o.issued == [SelectAnswersOf(p.value)]
            && (o.result.Ok? <==> rows.Ok?)
            && (o.result.Ok? ==>
                  && |o.result.value| == |rows.value|
                  && forall i :: 0 <= i < |rows.value| ==> o.result.value[i] == AnswerDetailOf(env, rows.value[i]))
            && (rows.Err? ==> o.result == Err(Other(rows.error)))
            && (rows == Ok([]) ==> o.result == Ok([])))
  {
    match env.parseUuid(questionUuid)
    case Err(msg) => Outcome(Err(InvalidUUID(msg)), [])
    case Ok(uuid) =>
      var result := match dao.db.selectAnswers(uuid)
        case Err(e) => Err(Other(e))
        case Ok(records) => Ok(AnswerDetails(env, records));
      Outcome(result, [SelectAnswersOf(uuid)])
  }

  // ---- Properties relating several calls or several inputs ----

  /**
   The three ways an INSERT failure stays opaque: the failure is not the
   server's, the server gave no code, or the code is another one.
   */
  lemma ClassifyInsertErrorOtherCases(env: Env, e: DriverError)
    ensures e.NonDatabase? ==> ClassifyInsertError(env, e) == Other(e)
    ensures e.Database? && e.code.None? ==> ClassifyInsertError(env, e) == Other(e)
    ensures e.Database? && e.code.Some? && e.code.value != env.foreignKeyViolation ==>
              ClassifyInsertError(env, e) == Other(e)
  {
  }

  /**
   A malformed id and a dangling reference are indistinguishable at the
   level of the error taxonomy: both are `InvalidUUID`.
   */
  lemma CreateAnswerInvalidUuidCauses(env: Env, dao: AnswersDaoImpl, answer: Answer)
    ensures var o := CreateAnswer(env, dao, answer);
      var p := env.parseUuid(answer.questionUuid);
      (o.result.Err? && o.result.error.InvalidUUID?) <==>
        (p.Err? || (dao.db.insertAnswer(p.value, answer.content).Err? &&
                    IsForeignKeyViolation(env, dao.db.insertAnswer(p.value, answer.content).error)))
  {
  }

  /** Delete and list never reclassify a store error as an invalid identifier. */
  lemma InvalidUuidOnlyFromParse(env: Env, dao: AnswersDaoImpl, id: string)
    ensures var o := DeleteAnswer(env, dao, id);
      o.result.Err? && o.result.error.InvalidUUID? <==> env.parseUuid(id).Err?
    ensures var o := GetAnswers(env, dao, id);
      o.result.Err? && o.result.error.InvalidUUID? <==> env.parseUuid(id).Err?
  {
  }

  /** Rendering a list splits over concatenation: the order of the rows is kept. */
  lemma AnswerDetailsAppend(env: Env, a: seq<AnswerRecord>, b: seq<AnswerRecord>)
    ensures AnswerDetails(env, a + b) == AnswerDetails(env, a) + AnswerDetails(env, b)
  {
  }

  /** Every fetched row appears, rendered, in the list. */
  lemma AnswerDetailsContains(env: Env, records: seq<AnswerRecord>, rec: AnswerRecord)
    requires rec in records
    ensures AnswerDetailOf(env, rec) in AnswerDetails(env, records)
  {
  }

  /**
   With a store whose INSERT returns the reference and content it was given,
   a created answer carries the content and the canonical rendering of the
   parsed reference (not necessarily the text the caller sent).
   */
  lemma CreateAnswerEchoesInput(env: Env, dao: AnswersDaoImpl, answer: Answer)
    requires forall u, c :: dao.db.insertAnswer(u, c).Ok? ==>
               dao.db.insertAnswer(u, c).value.questionUuid == u && dao.db.insertAnswer(u, c).value.content == c
    ensures var o := CreateAnswer(env, dao, answer);
      o.result.Ok? ==>
        && env.parseUuid(answer.questionUuid).Ok?
        && o.result.value.questionUuid == env.uuidText(env.parseUuid(answer.questionUuid).value)
        && o.result.value.content == answer.content
  {
  }

  /**
   Create, then list the question's answers: when the SELECT returns the row
   the INSERT returned, the list holds a detail equal to the created one.
   */
  lemma CreatedAnswerIsListed(env: Env, dao: AnswersDaoImpl, answer: Answer)
    requires env.parseUuid(answer.questionUuid).Ok?
    requires dao.db.insertAnswer(env.parseUuid(answer.questionUuid).value, answer.content).Ok?
    requires dao.db.selectAnswers(env.parseUuid(answer.questionUuid).value).Ok?
    requires dao.db.insertAnswer(env.parseUuid(answer.questionUuid).value, answer.content).value
               in dao.db.selectAnswers(env.parseUuid(answer.questionUuid).value).value
    ensures CreateAnswer(env, dao, answer).result.Ok?
    ensures GetAnswers(env, dao, answer.questionUuid).result.Ok?
    ensures CreateAnswer(env, dao, answer).result.value in GetAnswers(env, dao, answer.questionUuid).result.value
  {
  }

  /**
   A delete that succeeds at the store succeeds whatever it removed: deleting
   an absent id (zero rows) reads the same as deleting a present one.
   */
  lemma DeleteAnswerIgnoresRowCount(env: Env, dao1: AnswersDaoImpl, dao2: AnswersDaoImpl, answerUuid: string)
    requires env.parseUuid(answerUuid).Ok?
    requires dao1.db.deleteAnswer(env.parseUuid(answerUuid).value).Ok?
    requires dao2.db.deleteAnswer(env.parseUuid(answerUuid).value).Ok?
    ensures DeleteAnswer(env, dao1, answerUuid) == DeleteAnswer(env, dao2, answerUuid)
    ensures DeleteAnswer(env, dao1, answerUuid).result == Ok(())
  {
  }
}
