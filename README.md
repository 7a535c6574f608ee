# Questions-and-answers service: data-access layer and error rendering

This project models the data-access layer of a small CRUD service for questions
and their answers, together with the request handlers that sit on top of it.

- **Questions DAO.** The questions data-access object creates a question, deletes a question by id and lists all questions.
- **Answers DAO.** The answers data-access object creates an answer, deletes an answer by id and lists the answers of one question.
- **Error classification.** Each DAO operation parses its identifier first. A malformed identifier is `InvalidUUID`, and no statement reaches the store. Creating an answer reclassifies a foreign-key violation from the store as `InvalidUUID`. Every other driver failure is `Other`, which carries the driver's error.
- **Error rendering.** `BadRequest` renders as status 400 and `InternalError` as status 500. In both cases the body is the message, unchanged.
- **Handlers.** Each of the six handlers returns its inner function's result unchanged, with the success value wrapped as JSON.

Files:

- `models.dfy` (module `Models`) holds the data shapes. These are the input and detail forms, the typed rows, `DriverError`, `DBError` and the statement datatype.
- `models.dfy` also holds the two boundaries the DAOs depend on:
  - `Pool`: for each SQL statement, the result the store would return.
  - `Env`: the UUID parser, the renderings of UUIDs and timestamps as text, and the SQLSTATE code of a foreign-key violation.
- `questions_dao.dfy` and `answers_dao.dfy` hold one module per DAO.
- `handlers.dfy` holds `HandlerError`, the conversion to a response and the six handlers.

Each DAO operation is a function that returns an `Outcome`. An `Outcome` is the
operation's `Result` plus the list of statements it sent to the pool, in order.
This list lets a contract say "a malformed id sends nothing". The list is an
ordinary (non-ghost) field.

The Rust module `crate::models` is not part of this model. Its types (`Answer`,
`AnswerDetail`, `DBError`, the error-code constants and so on) are rebuilt in
`Models` from how the three core files use them.

Two behaviours of the code that a reader might expect otherwise:

- A created answer's `question_uuid` is the `to_string()` rendering of the returned row's UUID column, not the caller's text.
- A list keeps the order in which the driver returned the rows; the code imposes no order of its own.

## Model

| member | source | states |
|---|---|---|
| `AnswersDao.ClassifyInsertError` | src/persistence/answers_dao.rs:40-49 | An INSERT failure is `InvalidUUID` exactly when it is a database error whose code equals the foreign-key-violation code, and then it carries the server message. Every other failure is `Other` wrapping the original driver error. |
| `AnswersDao.CreateAnswer` | src/persistence/answers_dao.rs:26-57 | If the reference does not parse, the result is `InvalidUUID` with the parser's message and no statement is sent. Otherwise exactly one INSERT is sent, with the parsed id and the content. The call succeeds exactly when the INSERT does, and then each field is the returned row's field as text. A foreign-key violation gives `InvalidUUID`; any other failure gives `Other` with the driver error. |
| `AnswersDao.DeleteAnswer` | src/persistence/answers_dao.rs:59-69 | If the id does not parse, the result is `InvalidUUID` and nothing is sent. Otherwise exactly one DELETE is sent, and the call gives `Ok(())` exactly when the DELETE succeeds. Any driver error is `Other` with no foreign-key reclassification. |
| `AnswersDao.GetAnswers` | src/persistence/answers_dao.rs:71-90 | If the id does not parse, the result is `InvalidUUID` and nothing is sent. Otherwise exactly one SELECT is sent, and any driver error is `Other`. On success the list has one element per fetched row, and element i is row i rendered. Zero rows give `Ok([])`. |
| `AnswersDao.IsForeignKeyViolation` | src/persistence/answers_dao.rs:41-43 | True exactly when the failure is a database error that carries a code, and that code equals the foreign-key-violation code. A non-database error is never one. |
| `AnswersDao.AnswerDetailOf` | src/persistence/answers_dao.rs:51-56 | Field by field: both UUIDs and `created_at` are the row's values through `to_string`; `content` is copied unchanged. The same literal is at answers_dao.rs:81-86. |
| `AnswersDao.AnswerDetails` | src/persistence/answers_dao.rs:79-87 | The rendered list has the rows' length, and element i is row i rendered, so order is kept. |
| `AnswersDao.ClassifyInsertErrorOtherCases` | src/persistence/answers_dao.rs:40-49 | Three kinds of failure all stay `Other` with the original error: a non-database error, a database error with no code, and a database error with a different code. |
| `AnswersDao.CreateAnswerInvalidUuidCauses` | src/persistence/answers_dao.rs:26-49 | `create_answer` fails with `InvalidUUID` in exactly two cases: the reference did not parse, or the INSERT reported a foreign-key violation. |
| `AnswersDao.InvalidUuidOnlyFromParse` | src/persistence/answers_dao.rs:59-77 | `delete_answer` and `get_answers` fail with `InvalidUUID` exactly when their id does not parse. A store error never becomes `InvalidUUID` in these two operations. |
| `AnswersDao.AnswerDetailsAppend` | src/persistence/answers_dao.rs:79-87 | Rendering a concatenation of row lists gives the concatenation of the rendered lists. |
| `AnswersDao.AnswerDetailsContains` | src/persistence/answers_dao.rs:79-87 | Every fetched row appears, rendered, in the returned list. |
| `AnswersDao.CreateAnswerEchoesInput` | src/persistence/answers_dao.rs:29-56 | Suppose the store's INSERT returns the reference and content it was given. Then a created answer carries the input content, and its `question_uuid` is the canonical rendering of the parsed reference. |
| `AnswersDao.CreatedAnswerIsListed` | src/persistence/answers_dao.rs:26-90 | Suppose the SELECT for the question returns the row the INSERT returned. Then listing that question's answers gives a list that contains the created detail. |
| `AnswersDao.DeleteAnswerIgnoresRowCount` | src/persistence/answers_dao.rs:63-68 | Any successful DELETE gives `Ok(())`, whatever the number of rows removed, so deleting an absent id is not an error. |
| `QuestionsDao.CreateQuestion` | src/persistence/questions_dao.rs:25-45 | Exactly one INSERT is sent, with the title and description. The call succeeds exactly when the INSERT does. On success the title and description are the row's, and the id and timestamp are the row's values as text. Every failure is `Other` with the driver error, and the call never fails with `InvalidUUID`. |
| `QuestionsDao.DeleteQuestion` | src/persistence/questions_dao.rs:47-57 | If the id does not parse, the result is `InvalidUUID` and nothing is sent. Otherwise exactly one DELETE is sent. Any driver error is `Other`, and any success is `Ok(())`. |
| `QuestionsDao.GetQuestions` | src/persistence/questions_dao.rs:59-76 | Exactly one SELECT is sent. Every failure is `Other` with the driver error. On success the list has one element per fetched row, and element i is row i rendered. Zero rows give `Ok([])`. |
| `QuestionsDao.QuestionDetailOf` | src/persistence/questions_dao.rs:39-44 | Field by field: `question_uuid` and `created_at` are the row's values through `to_string`; `title` and `description` are copied unchanged. The same literal is at questions_dao.rs:67-72. |
| `QuestionsDao.QuestionDetails` | src/persistence/questions_dao.rs:65-73 | The rendered list has the rows' length, and element i is row i rendered. |
| `QuestionsDao.QuestionDetailsAppend` | src/persistence/questions_dao.rs:65-73 | Rendering a concatenation of row lists gives the concatenation of the rendered lists. |
| `QuestionsDao.QuestionDetailsContains` | src/persistence/questions_dao.rs:65-73 | Every fetched row appears, rendered, in the returned list. |
| `QuestionsDao.CreateQuestionEchoesInput` | src/persistence/questions_dao.rs:26-44 | Suppose the store's INSERT returns the title and description it was given. Then a created question echoes both. |
| `QuestionsDao.CreatedQuestionIsListed` | src/persistence/questions_dao.rs:25-75 | Suppose the SELECT returns the row the INSERT returned. Then the list of questions contains the created detail. |
| `QuestionsDao.DeleteQuestionIgnoresRowCount` | src/persistence/questions_dao.rs:51-56 | Any successful DELETE gives `Ok(())`, whatever the number of rows removed. |
| `Handlers.IntoResponse` | src/handlers/mod.rs:9-20 | The body is the error's message, unchanged. `BadRequest` gives status 400, a client error. `InternalError` gives status 500, a server error. |
| `Handlers.ErrorOf` | src/handlers/mod.rs:11-18 | Not in the source: the inverse of the status mapping, used by `ErrorOfIntoResponse` to show the mapping loses nothing. Only statuses 400 and 500 read back as an error: 400 as `BadRequest(body)`, 500 as `InternalError(body)`. |
| `Handlers.ErrorOfIntoResponse` | src/handlers/mod.rs:11-18 | Reading the error back from its response gives the original error. |
| `Handlers.IntoResponseInjective` | src/handlers/mod.rs:11-18 | Distinct errors render as distinct responses, because each variant has its own status. |
| `Handlers.Forward` | src/handlers/mod.rs:28-30 | The handler result is `Ok` exactly when the inner result is. On success it wraps the inner value unchanged; on failure it is the same `HandlerError`. |
| `Handlers.Unwrap` | src/handlers/mod.rs:28-30 | Not in the source: the inverse of `Forward`. It is `Ok` exactly when its argument is, and then carries the JSON body's value; an error passes through unchanged. |
| `Handlers.UnwrapForward` | src/handlers/mod.rs:28-30 | Unwrapping the JSON body after `Forward` gives back the inner result. |
| `Handlers.ForwardUnwrap` | src/handlers/mod.rs:28-30 | `Forward` after unwrapping gives back the handler result. |
| `Handlers.CreateQuestion` | src/handlers/mod.rs:24-31 | Unwrapped, the response is exactly the inner `create_question` result on the state's questions DAO. |
| `Handlers.ReadQuestions` | src/handlers/mod.rs:33-39 | Unwrapped, the response is exactly the inner `read_questions` result on the questions DAO. |
| `Handlers.DeleteQuestion` | src/handlers/mod.rs:41-48 | Unwrapped, the response is exactly the inner `delete_question` result on the questions DAO. |
| `Handlers.CreateAnswer` | src/handlers/mod.rs:52-59 | Unwrapped, the response is exactly the inner `create_answer` result on the answers DAO. |
| `Handlers.ReadAnswers` | src/handlers/mod.rs:61-67 | Unwrapped, the response is exactly the inner `read_answers` result on the answers DAO. |
| `Handlers.DeleteAnswer` | src/handlers/mod.rs:70-77 | Unwrapped, the response is exactly the inner `delete_answer` result on the answers DAO. |
| `Handlers.QuestionHandlersUseOnlyQuestionsDao` | src/handlers/mod.rs:24-48 | Two states with the same questions DAO give the same result for each question handler. |
| `Handlers.AnswerHandlersUseOnlyAnswersDao` | src/handlers/mod.rs:52-77 | Two states with the same answers DAO give the same result for each answer handler. |

## Left out

- **SQL execution.** Postgres, the connection pool and SQL semantics are out: constraint enforcement, default UUIDs and timestamps, and row order. `Pool` gives each statement's result as a given input, the rows being whatever the store returns.
- **Store behaviour and identifier freshness.** Whether the store returns what was inserted, and whether generated ids are fresh, belong to the store. The lemmas that need the store to return what was inserted take that as a `requires`.
- **The UUID library.** `Uuid::parse_str` is the function `Env.parseUuid`, and the forms it accepts are not modelled. Its error carries the rendered parse error.
- **Rendering as text.** `Uuid::to_string` and the timestamp's `to_string` are the functions `Env.uuidText` and `Env.timeText`.
- **`postgres_error_codes::FOREIGN_KEY_VIOLATION`.** Its value is in `crate::models`, which is not part of this model. It is the field `Env.foreignKeyViolation`, not a fixed constant.
- **The error's text.** `db_err.to_string()` is modelled as the database error's `message` field.
- **`DBError` to `HandlerError`.** The mapping lives in `handlers_inner`, which is not part of this model. The inner functions the handlers delegate to are parameters.
- **Async plumbing.** `async`/`await`, `async_trait`, boxing of the driver error, and the `Arc<dyn ...>` trait objects in the application state are runtime concerns. A DAO is its pool handle.
- **Framework internals.** axum extraction, JSON (de)serialisation and response construction are out. A response is a status and a text body; `Json` is a plain wrapper.
- **State between calls.** Each call is modelled against a fixed snapshot of the store. No state carries over between calls, so cascading or orphaning on question delete is not modelled.
