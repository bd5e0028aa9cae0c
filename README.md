# ExpertSQL: the question-to-SQL pipeline, modelled in Dafny

ExpertSQL answers a natural-language question about a PostgreSQL database. It
shows a language model the database schema and asks it for one SQL statement.
It cleans the reply and checks it against a SELECT-only, deny-list policy. It
runs the statement and asks the model for a short summary of the rows. The HTTP
handler `POST /query` maps each outcome to a status and a JSON body.

This project models the deterministic core of that pipeline and proves what it
guarantees:

- `validate_sql`, the safety policy (module `SqlValidation`, file
  `sql_validation.dfy`). It is characterised three ways:
  - as a padded substring test;
  - as "a keyword stands between spaces or ends";
  - as "a keyword is one of the words of `query.upper().split(' ')`".
- Worked examples on concrete statements (module `SqlValidationExamples`).
- The clean-up of the model's SQL reply and `generate_sql` (module
  `SqlGeneration`).
- `generate_natural_language_summary`, as a specification function and as the
  loop the source runs (module `Summary`).
- The shaping loops of the database layer, `get_schema` and the row conversion of
  `execute_query` (module `NeonDb`). Driver cells are values of a tagged type
  (`Values.Value`) in which the objects that have a `.hex` attribute are marked.
- `process_query`, as a function from the request body and the collaborators to
  the response and the list of external calls made (module `QueryEndpoint`).
  There are end-to-end scenarios in `QueryEndpointScenarios`.

Support modules:

- `Wrappers`: `Option` and `Result`.
- `Strings`: Python's `strip`, `lstrip`, ASCII `upper`/`lower`, `startswith`,
  `in`, `join`, `split(' ')` and `str()` of integers.
- `Dicts`: an insertion-ordered dictionary with distinct keys; `Put` is `d[k] = v`.

Every collaborator the handler reaches is a parameter: the schema inspector, the
model, the database and the summary model (`QueryEndpoint.Collaborators`). The
model answers with its text, or with the message of the error it raised. The
database answers with its records, or with its error message.

### Behaviour of the code worth knowing

- `validate_sql` scans for forbidden keywords before the SELECT check, so
  `DELETE FROM x` is refused for `DELETE`, not for not being a SELECT.
- Only a literal space bounds a keyword; other whitespace and punctuation do
  not. A keyword after a line break or glued to `;` is not seen
  (`SqlValidationExamples.KeywordAfterLineBreakAccepted`).
- A refused non-SELECT statement gets the message "Only SELECT queries are
  allowed".
- An empty reply from the model is not a generation failure. It is cleaned to the
  empty statement, which the SELECT check then refuses.
- A schema failure and a model failure during generation are answered with 500
  and the bare message. `get_schema` runs outside the `try` of `generate_sql`,
  and the model error is re-raised with a prefix; both reach the outer handler of
  `process_query`.
- `generate_sql` fetches the schema itself rather than receiving it.

## Model

| member | source | states |
|---|---|---|
| `SqlValidation.FirstForbidden` | neon_db.py:90-93 | The keyword loop finds the first keyword of the list, in list order, whose padded form occurs in the padded upper-cased query; it finds none exactly when no keyword occurs. |
| `SqlValidation.ValidateSql` | neon_db.py:84-103 | The `(is_valid, error_message)` pair: the message is empty exactly when the statement is accepted, and an accepted statement, left-trimmed and upper-cased, starts with SELECT. The full characterization is `ValidateSqlPolicy`. |
| `SqlValidation.ValidateSqlPolicy` | neon_db.py:84-103 | A statement is accepted iff no forbidden keyword occurs between spaces and the left-trimmed upper-cased text starts with SELECT. The message is empty iff it is accepted. A refusal names a keyword when one occurs, else gives the SELECT-only message. |
| `SqlValidation.ReportsFirstKeyword` | neon_db.py:91-97 | When keyword k occurs and none before it in the list does, the verdict is refusal naming k, whatever the statement starts with. The scan comes before the SELECT check. |
| `SqlValidation.CaseInsensitive` | neon_db.py:88 | The verdict of a statement equals the verdict of its upper-cased form. |
| `SqlValidation.UpperOfUpperLStrip` | neon_db.py:96 | Upper-casing the left-trimmed upper-cased text again changes nothing. |
| `SqlValidation.KeywordNeedsSpaces` | neon_db.py:92 | The padded test holds iff the keyword occurs at some position with a space or an end of the text on each side. |
| `SqlValidation.PaddedMatchIsBounded` | neon_db.py:92 | A padded match at a position is a keyword occurrence there, bounded by spaces or ends. |
| `SqlValidation.BoundedIsPaddedMatch` | neon_db.py:92 | A keyword occurrence bounded by spaces or ends is a padded match at the same position. |
| `SqlValidation.KeywordIsWord` | neon_db.py:92 | For text made of space-free words joined by single spaces, the padded test holds iff the keyword is one of the words. |
| `SqlValidation.FirstForbiddenWord` | neon_db.py:87-93 | Reference scan over words: the first keyword in list order that is a word, and none exactly when no keyword is a word. |
| `SqlValidation.ScanByWords` | neon_db.py:91-93 | The substring scan of `validate_sql` and the word scan find the same keyword. |
| `SqlValidation.ValidateSqlByWords` | neon_db.py:88-103 | For any split of the upper-cased text into space-free words, the verdict is the word-level policy. |
| `SqlValidation.ValidateSqlBySplit` | neon_db.py:88-103 | The verdict is the word-level policy over `query.upper().split(' ')`. |
| `SqlValidation.RefusedAtWord` | neon_db.py:91-93 | A statement whose words contain a keyword is refused naming the first such keyword of the list. |
| `SqlValidation.GateDecides` | neon_db.py:95-103 | With no keyword among the words, the statement is accepted iff its left-trimmed upper-cased text starts with SELECT, and refused with the SELECT-only message otherwise. |
| `SqlValidationExamples.DeleteRefusedForKeyword` | neon_db.py:91-97 | `DELETE FROM x` is refused naming DELETE, not for failing the SELECT check. |
| `SqlValidationExamples.StackedDropRefused` | neon_db.py:91-93 | `SELECT * FROM t; DROP TABLE t` is refused naming DROP. |
| `SqlValidationExamples.KeywordInsideIdentifierAccepted` | neon_db.py:92 | `SELECT dropped_at FROM t` is accepted: a keyword inside an identifier does not match. |
| `SqlValidationExamples.KeywordAfterLineBreakAccepted` | neon_db.py:92 | `SELECT 1;` then a line break then `DROP TABLE t` is accepted: a keyword after a line break does not match. |
| `SqlValidationExamples.ShowRefusedByGate` | neon_db.py:96-97 | `SHOW TABLES` is refused with the SELECT-only message. |
| `SqlValidationExamples.MissingTableAccepted` | neon_db.py:99-103 | `SELECT * FROM nonexistent_table` is accepted: there is no table check. |
| `SqlValidationExamples.RenameCustomersRefused` | neon_db.py:91-93 | `UPDATE customers SET name='x'` is refused naming UPDATE. |
| `SqlValidationExamples.CountCustomersAccepted` | neon_db.py:95-103 | `SELECT COUNT(*) FROM customers` is accepted with an empty message. |
| `SqlGeneration.DropOpener` | app.py:126-127 | A text starting with "```sql" is that opener followed by the result; any other text is returned unchanged. |
| `SqlGeneration.DropFence` | app.py:128-129 | A text ending with "```" is the result followed by that fence; any other text is returned unchanged. |
| `SqlGeneration.CleanSql` | app.py:124-131 | The cleaned statement never starts or ends with whitespace. |
| `SqlGeneration.CleanSqlWithoutFences` | app.py:124-131 | On a reply whose stripped form has neither fence, cleaning is `strip()`. |
| `SqlGeneration.CleanSqlIdempotentWithoutFences` | app.py:124-131 | On such a reply, cleaning twice is cleaning once. |
| `SqlGeneration.CleanSqlFencedBlock` | app.py:124-131 | A fenced block with any whitespace around it is cleaned to its stripped body. |
| `SqlGeneration.CleanSqlUnfences` | app.py:124-131 | A stripped statement in a fenced block, with any whitespace around the fences and the statement, is cleaned back to the statement. |
| `SqlGeneration.CleanSqlFencedLine` | app.py:124-131 | A stripped statement on its own line between the fences is cleaned back to the statement. |
| `SqlGeneration.CleanSqlKeepsBareStatement` | app.py:124-131 | A stripped non-empty statement with no backquote at either end is cleaned to itself. |
| `SqlGeneration.GenerationError` | app.py:132-133 | A model failure's message is "Error generating SQL: " followed by the model's own message, which can be read back from it. |
| `SqlGeneration.GenerateSql` | app.py:99-133 | A schema failure propagates unchanged. A model failure becomes "Error generating SQL: " plus its message. Success happens iff both calls succeed, and then the result is the cleaned reply, which is stripped. |
| `Summary.KeptKeys` | app.py:58-62 | A key is kept iff it is a key of the row and its lower-cased name contains neither "vector" nor "embedding". |
| `Summary.BulkyIgnoresCase` | app.py:61 | The test for a bulky column ignores letter case: a name and its upper-cased form are both bulky or both not. |
| `Summary.SafeSerialize` | app.py:46-52 | A cell's safe string is its `str()` whenever that does not raise, including for values with `.hex`; when `str()` raises it is "[complex data]". |
| `Summary.SafeRow` | app.py:57-66 | A sample row has exactly the kept keys, in the row's order. |
| `Summary.SafeRowGet` | app.py:58-63 | In a sample row, each kept column maps to the safe string of its value and every other column is absent. |
| `Summary.Sample` | app.py:55-66 | The sample holds the first min(5, n) result rows, in order, each in its sample form. |
| `Summary.PromptFor` | app.py:68-78 | The summary prompt carries the question and the sample; its header counts are the sample's length and the number of results, the first never above the second. |
| `Summary.FallbackReadsBack` | app.py:96 | The fallback text reads back as its parts: "Found ", the row count in decimal digits that parse back to the count, " results with columns: ", the columns joined by ", ", and ".". |
| `Strings.NatToStringRoundTrip` | app.py:96 | The decimal digits written for a count parse back to that count. |
| `Summary.Summarize` | app.py:33-96 | The model is asked iff there are results; no results give the fixed message. The prompt carries the question, the total, and a sample of the first min(5, total) rows in order with the shown count equal to the sample's length. A reply gives its stripped text; a failed call gives the fallback with the row count and the first row's columns. |
| `Summary.OnlySampleMatters` | app.py:56 | Two result sets of the same size that agree on their first five rows are summarized alike. |
| `Summary.SampleRowColumns` | app.py:56-66 | Row i of the prompt's sample keeps a column iff the result row has it and it is not bulky, and gives it the safe string of its value. |
| `Summary.BuildSafeRow` | app.py:57-65 | The inner loop builds exactly the sample form of the row. |
| `Summary.GenerateSummary` | app.py:33-96 | The loop form returns the summary and the prompt of the specification function `Summarize`. |
| `NeonDb.DescribeColumn` | neon_db.py:55-60 | A column description keeps the name, the type text and nullability; it is a primary key iff the inspector said so, and false when the entry has no such key. |
| `Values.HasHex` | neon_db.py:76-77 | A value with `.hex` always prints: its `str()` never raises. |
| `Values.Display` | neon_db.py:77 | `str()` can raise only for an arbitrary driver object; a string prints as itself. |
| `NeonDb.DescribeTable` | neon_db.py:53-60 | One description per inspected column, in the inspector's order. |
| `NeonDb.GetSchema` | neon_db.py:47-63 | The schema's tables are exactly the listed tables, each mapped to the descriptions of its columns. Without repeated names, the tables keep the listing order. |
| `NeonDb.NormalizeValue` | neon_db.py:76-77 | A value with `.hex` becomes a string that prints the same; any other value is kept; no result has `.hex`. |
| `NeonDb.NormalizeRow` | neon_db.py:73-80 | A converted row has the same keys in the same order; no cell has `.hex`; every cell prints as before; cells without `.hex` are unchanged. |
| `NeonDb.NormalizeRowGet` | neon_db.py:74-79 | Looking a column up in the converted row gives the normalized cell, and nothing where the row had nothing. |
| `NeonDb.NormalizeRowIdempotent` | neon_db.py:74-79 | Converting a converted row changes nothing. |
| `NeonDb.NormalizeRows` | neon_db.py:71-82 | One converted row per record: same keys in the same order, no cell with `.hex`, every cell printing as before. |
| `NeonDb.ConvertRecords` | neon_db.py:71-82 | The loop gives one row per record, in order, each the converted record. |
| `QueryEndpoint.GenerationCalls` | app.py:99-122 | Generation inspects the schema first. A schema failure ends the calls there; otherwise the model is asked exactly once, with the fetched schema and the question. The database is never called. |
| `QueryEndpoint.SummaryCalls` | app.py:80-93 | Summarizing never calls the database. |
| `QueryEndpoint.RunStatement` | app.py:157-175 | Status 200 iff the database answers, and then the body carries the question, the statement and the converted rows. A database error gives 400 with "Error executing query: " and the statement. The first call runs this statement and no later call runs any statement, so the database is called exactly once. |
| `QueryEndpoint.CheckStatement` | app.py:148-175 | A refused statement gives 400 with "Invalid SQL query: " plus the reason and the statement, and makes no call; an accepted one is run. Only validated statements reach the database, and at most once. |
| `QueryEndpoint.ProcessQuery` | app.py:137-178 | The status is 200, 400 or 500, and 200 iff the body is an answer. A missing or empty question gives 400 "No query provided" with no call. Only validated statements reach the database, and the database is called at most once. A 500 carries no statement and follows no database call. An answer carries the question, a validated statement and exactly that statement's converted rows. |
| `QueryEndpoint.RejectedStatementNeverRuns` | app.py:149-154 | A generated statement that fails validation gives 400 with the reason and the statement, and the database is never called. |
| `QueryEndpoint.ExecutionFailureReported` | app.py:171-175 | A validated statement the database refuses gives 400 with the database's message and the statement. |
| `QueryEndpoint.SuccessfulAnswer` | app.py:157-170 | A validated statement the database answers gives 200 with the question, the statement, the converted rows and their summary. |
| `QueryEndpoint.GenerationFailureIsServerError` | app.py:177-178 | A schema or model failure during generation gives 500 with that message alone, and no database call. |
| `QueryEndpoint.SummaryNeverDecidesOutcome` | app.py:161-170 | Replacing the summary model changes neither the status nor anything in the body but the summary text. |
| `QueryEndpoint.NoQueryIgnoresCollaborators` | app.py:140-143 | Without a question the response does not depend on any collaborator. |
| `QueryEndpointScenarios.EmptyQuestionScenario` | app.py:140-143 | An empty question gives 400 "No query provided" and no call. |
| `QueryEndpointScenarios.CountScenario` | app.py:124-170 | A fenced counting statement that the database answers gives 200 with the bare statement and the converted rows. |
| `QueryEndpointScenarios.MissingTableScenario` | app.py:157-175 | A read of a missing table passes validation and gives 400 with the database's message and the statement. |
| `QueryEndpointScenarios.UpdateScenario` | app.py:146-154 | A generated UPDATE gives 400 naming UPDATE, with the statement, and the database is never called. |

## Left out

- Flask routing, CORS, the index page, the `/health` endpoint, environment loading and the start-up checks for the API key and database URL: HTTP and configuration plumbing.
- The OpenAI chat-completion calls: they are parameters answering with a reply or an error. The model name, temperature and token limits are not modelled.
- The wording of both prompts and the `json.dumps` layout of the schema and the sample: free text. The prompts are modelled by their contents (schema and question; question, sample rows, shown and total counts).
- The SQLAlchemy engine, its pool settings, `check_connection` and the execution of the statement: I/O through a foreign driver. The inspector's listings and the driver's records are inputs.
- `init_db.py` is not part of this model: table declarations and seeding.
- Python's `str()` of arbitrary objects and `hasattr(value, 'hex')`: a driver value is a tagged `Values.Value`. `Uuid`, `Bytes` and `Float` carry `.hex` and the text `str()` gives them; `Opaque` is any other object, whose `str()` may raise.
- Unicode case mapping: `Upper` and `Lower` map ASCII letters only, so `validate_sql` is modelled for ASCII upper-casing.
- Questions that are not strings, and results the JSON encoder cannot serialize: the model covers a request body that is unreadable or an object whose `query` is absent or a string, and result values `jsonify` accepts. In the source, a truthy non-string `query` is handled like a string question, a falsy one gets 400 "No query provided", and a failure to serialize the success response happens inside the inner `try`, so it is answered with 400 "Error executing query: " plus the message and the statement.
- Result mappings with repeated column names: a row is a dictionary with distinct keys.
- `NeonDb.GetSchema`: states the listing order only when table names are not repeated; a repeated name keeps its first position and its last columns, which the dictionary model reproduces but the contract does not spell out.
- Logging of the summary error: output only.
