/**
 The data shapes shared by the two data-access objects and the request handlers:
 the input and detail forms of questions and answers, the typed rows the driver
 returns, the driver's error, the storage-level error taxonomy, and the two
 boundaries the data-access objects talk to — the connection pool and the
 libraries that parse and render identifiers and timestamps.
 */
module Models {

  datatype Result<+T, +E> = Ok(value: T) | Err(error: E)

  datatype Option<+T> = None | Some(value: T)

  /** A UUID is a 128-bit value. */
  newtype Uuid = x: int | 0 <= x < 0x1_0000_0000_0000_0000_0000_0000_0000_0000

  /** A creation time as the store reports it. */
  datatype Timestamp = Timestamp(ticks: int)

  // ---- Input and detail forms, as they cross the request boundary ----

  datatype Question = Question(title: string, description: string)

  datatype QuestionDetail =
    QuestionDetail(questionUuid: string, title: string, description: string, createdAt: string)

  datatype QuestionId = QuestionId(questionUuid: string)

  datatype Answer = Answer(questionUuid: string, content: string)

  datatype AnswerDetail =
    AnswerDetail(answerUuid: string, questionUuid: string, content: string, createdAt: string)

  datatype AnswerId = AnswerId(answerUuid: string)

  // ---- Rows as the driver returns them, with typed columns ----

  datatype QuestionRecord =
    QuestionRecord(questionUuid: Uuid, title: string, description: string, createdAt: Timestamp)

  datatype AnswerRecord =
    AnswerRecord(answerUuid: Uuid, questionUuid: Uuid, content: string, createdAt: Timestamp)

  /**
   A failure reported by the driver. A `Database` failure is one the server
   reported, possibly with a SQLSTATE code; every other failure (connection,
   pool, protocol, decoding) is `NonDatabase`. `message` is the error's text.
   */
  datatype DriverError =
    | Database(code: Option<string>, message: string)
    | NonDatabase(message: string)

  /** The storage-level error taxonomy. */
  datatype DBError =
    | InvalidUUID(detail: string)
    | Other(cause: DriverError)

  /** The statements a data-access object can send to the pool, with their parameters. */
  datatype Statement =
    | InsertIntoQuestions(title: string, description: string)
    | SelectAllQuestions
    | DeleteFromQuestions(questionUuid: Uuid)
    | InsertIntoAnswers(questionUuid: Uuid, content: string)
    | SelectAnswersOf(questionUuid: Uuid)
    | DeleteFromAnswers(answerUuid: Uuid)

  /**
   The connection pool, seen only through what each statement would return:
   the row an `INSERT ... RETURNING *` yields, the rows a `SELECT` yields,
   the number of rows a `DELETE` affects, or the driver's error.
   */
  datatype Pool = Pool(
    insertQuestion: (string, string) -> Result<QuestionRecord, DriverError>,
    selectQuestions: Result<seq<QuestionRecord>, DriverError>,
    deleteQuestion: Uuid -> Result<nat, DriverError>,
    insertAnswer: (Uuid, string) -> Result<AnswerRecord, DriverError>,
    selectAnswers: Uuid -> Result<seq<AnswerRecord>, DriverError>,
    deleteAnswer: Uuid -> Result<nat, DriverError>)

  /**
   The libraries the data-access objects rely on: the UUID parser (its error
   carries the parse error's text), the textual renderings of a UUID and of a
   timestamp, and the SQLSTATE code of a foreign-key violation.
   */
  datatype Env = Env(
    parseUuid: string -> Result<Uuid, string>,
    uuidText: Uuid -> string,
    timeText: Timestamp -> string,
    foreignKeyViolation: string)

  /** What a data-access call returns, together with the statements it sent to the pool, in order. */
  datatype Outcome<T> = Outcome(result: Result<T, DBError>, issued: seq<Statement>)
}
