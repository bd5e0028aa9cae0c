/** `process_query`: the POST /query handler, from the request body to the HTTP
    status and JSON body, together with the external calls it makes on the way. */
module QueryEndpoint {
  import opened Wrappers
  import opened Dicts
  import opened Values
  import opened NeonDb
  import opened SqlValidation
  import opened SqlGeneration
  import opened Summary

  /** `request.json`: an object whose `query` member is present (as a string) or
      not, or a body that cannot be read as an object, with the message of what
      was raised. */
  datatype RequestBody = Unreadable(reason: string) | JsonObject(query: Option<string>)

  /** Everything the handler depends on beyond its own code: the schema (or the
      message `get_schema()` raises), the model asked for SQL (its reply or the
      message of its error), the database (the records of a statement, or the
      message of its error) and the model asked for a summary (its reply, or `None`
      when the call raises). */
  datatype Collaborators = Collaborators(
    schema: Result<Schema, string>,
    askSql: SqlPrompt -> Result<string, string>,
    execute: string -> Result<seq<Dict<Value>>, string>,
    askSummary: SummaryPrompt -> Option<string>)

  /** The calls that leave the process, in the order they are made. */
  datatype ExternalCall =
    | InspectSchema
    | AskForSql(sqlPrompt: SqlPrompt)
    | RunQuery(sql: string)
    | AskForSummary(summaryPrompt: SummaryPrompt)

  /** `{"success": true, "query", "sql", "results", "summary"}`, or
      `{"error", "generated_sql"?}`. */
  datatype ResponseBody =
    | Answer(query: string, sql: string, results: seq<Dict<Value>>, summary: string)
    | ErrorBody(error: string, generatedSql: Option<string>)

  datatype Response = Response(status: int, body: ResponseBody)

  datatype Handled = Handled(response: Response, calls: seq<ExternalCall>)

  const NoQueryMessage := "No query provided"

  function InvalidSqlError(reason: string): string {
    "Invalid SQL query: " + reason
  }

  function ExecutionError(message: string): string {
    "Error executing query: " + message
  }

  /** A missing member and an empty string are both falsy. */
  predicate NoQuery(body: RequestBody) {
    body.JsonObject? && (body.query.None? || body.query.value == "")
  }

  predicate RunsQuery(calls: seq<ExternalCall>) {
    exists c :: c in calls && c.RunQuery?
  }

  /** The database is called at most once: no retry. */
  predicate RunsAtMostOnce(calls: seq<ExternalCall>) {
    forall i, j :: 0 <= i < j < |calls| && calls[i].RunQuery? ==> !calls[j].RunQuery?
  }

  lemma RunsOnlyFirst(calls: seq<ExternalCall>)
    requires calls != [] && !RunsQuery(calls[1..])
    ensures RunsAtMostOnce(calls)
  {
    forall i, j | 0 <= i < j < |calls| && calls[i].RunQuery?
      ensures !calls[j].RunQuery?
    {
      assert calls[j] == calls[1..][j - 1];
    }
  }

  lemma RunsAfter(front: seq<ExternalCall>, back: seq<ExternalCall>)
    requires !RunsQuery(front) && RunsAtMostOnce(back)
    ensures RunsAtMostOnce(front + back)
  {
    var calls := front + back;
    forall i, j | 0 <= i < j < |calls| && calls[i].RunQuery?
      ensures !calls[j].RunQuery?
    {
      if |front| <= i {
        assert calls[i] == back[i - |front|] && calls[j] == back[j - |front|];
      }
    }
  }

  /** Every statement sent to the database passed `validate_sql`. */
  predicate OnlyValidatedRuns(calls: seq<ExternalCall>) {
    forall c :: c in calls && c.RunQuery? ==> ValidateSql(c.sql).isValid
  }

  /** The calls `generate_sql` makes: the schema, then the model if the schema came. */
  function GenerationCalls(question: string, env: Collaborators): (calls: seq<ExternalCall>)
    ensures env.schema.Failure? ==> calls == [InspectSchema]
    ensures env.schema.Success? ==>
      calls == [InspectSchema, AskForSql(SqlPrompt(env.schema.value, question))]
    ensures !RunsQuery(calls)
  {
    match env.schema
    case Failure(_) => [InspectSchema]
    case Success(s) => [InspectSchema, AskForSql(SqlPrompt(s, question))]
  }

  function SummaryCalls(outcome: SummaryOutcome): (calls: seq<ExternalCall>)
    ensures !RunsQuery(calls)
  {
    if outcome.asked.Some? then [AskForSummary(outcome.asked.value)] else []
  }

  /** The inner `try` of `process_query()`, for a statement that passed validation:
      run it, then summarize the converted rows. */
  function RunStatement(question: string, sql: string, env: Collaborators): (h: Handled)
    ensures h.response.status == 200 <==> env.execute(sql).Success?
    ensures h.response.status == 200 <==> h.response.body.Answer?
    ensures env.execute(sql).Failure? ==>
      h.response == Response(400, ErrorBody(ExecutionError(env.execute(sql).error), Some(sql)))
    ensures h.response.body.Answer? ==>
      h.response.body.query == question && h.response.body.sql == sql
      && h.response.body.results == NormalizeRows(env.execute(sql).value)
    ensures h.calls != [] && h.calls[0] == RunQuery(sql)
    ensures !RunsQuery(h.calls[1..])
  {
    match env.execute(sql)
    case Failure(e) =>
      Handled(Response(400, ErrorBody(ExecutionError(e), Some(sql))), [RunQuery(sql)])
    case Success(records) =>
      var rows := NormalizeRows(records);
      var outcome := Summarize(question, rows, env.askSummary);
      var calls := [RunQuery(sql)] + SummaryCalls(outcome);
      assert calls[1..] == SummaryCalls(outcome);
      Handled(Response(200, Answer(question, sql, rows, outcome.summary)), calls)
  }

  /** `process_query()` after the SQL has been generated. */
  function CheckStatement(question: string, sql: string, env: Collaborators): (h: Handled)
    ensures h.response.status == 200 || h.response.status == 400
    ensures h.response.status == 200 <==> h.response.body.Answer?
    ensures !ValidateSql(sql).isValid ==>
      h == Handled(Response(400, ErrorBody(InvalidSqlError(ValidateSql(sql).message), Some(sql))), [])
    ensures ValidateSql(sql).isValid ==> h == RunStatement(question, sql, env)
    ensures OnlyValidatedRuns(h.calls)
    ensures RunsAtMostOnce(h.calls)
  {
    var verdict := ValidateSql(sql);
    if !verdict.isValid then
      Handled(Response(400, ErrorBody(InvalidSqlError(verdict.message), Some(sql))), [])
    else
      var ran := RunStatement(question, sql, env);
      RunsOnlyFirst(ran.calls);
      ran
  }

  /** `process_query()`. Whatever goes wrong, a statement reaches the database only
      after passing `validate_sql`; a 200 carries exactly the converted rows of that
      statement; a 500 never carries `generated_sql` and never follows a database
      call. */
  function ProcessQuery(body: RequestBody, env: Collaborators): (h: Handled)
    ensures h.response.status == 200 || h.response.status == 400 || h.response.status == 500
    ensures h.response.status == 200 <==> h.response.body.Answer?
    ensures NoQuery(body) ==> h == Handled(Response(400, ErrorBody(NoQueryMessage, None)), [])
    ensures h.calls == [] <==> body.Unreadable? || NoQuery(body)
    ensures h.calls != [] ==> h.calls[0] == InspectSchema
    ensures OnlyValidatedRuns(h.calls)
    ensures RunsAtMostOnce(h.calls)
    ensures h.response.status == 500 ==> h.response.body.ErrorBody? && h.response.body.generatedSql.None?
    ensures h.response.status == 500 ==> !RunsQuery(h.calls)
    ensures h.response.body.Answer? ==>
      var a := h.response.body;
      && body.JsonObject? && body.query == Some(a.query)
      && ValidateSql(a.sql).isValid
      && env.execute(a.sql).Success?
      && a.results == NormalizeRows(env.execute(a.sql).value)
      && RunQuery(a.sql) in h.calls
  {
    match body
    case Unreadable(reason) => Handled(Response(500, ErrorBody(reason, None)), [])
    case JsonObject(query) =>
      if query.None? || query.value == "" then
        Handled(Response(400, ErrorBody(NoQueryMessage, None)), [])
      else
        var question := query.value;
        var asked := GenerationCalls(question, env);
        match GenerateSql(question, env.schema, env.askSql)
        case Failure(e) =>
          Handled(Response(500, ErrorBody(e, None)), asked)
        case Success(sql) =>
          var checked := CheckStatement(question, sql, env);
          assert checked.calls != [] ==> checked.calls[0] in checked.calls;
          RunsAfter(asked, checked.calls);
          Handled(checked.response, asked + checked.calls)
  }

  /** Once a statement is generated, the handler's answer is that of checking it,
      after the calls made to generate it. */
  lemma AfterGeneration(question: string, env: Collaborators, sql: string)
    requires question != ""
    requires GenerateSql(question, env.schema, env.askSql) == Success(sql)
    ensures ProcessQuery(JsonObject(Some(question)), env) ==
      Handled(CheckStatement(question, sql, env).response,
              GenerationCalls(question, env) + CheckStatement(question, sql, env).calls)
  {
  }

  /** The generated statement is rejected: 400 with the reason and the statement,
      and the database is never called. */
  lemma RejectedStatementNeverRuns(question: string, env: Collaborators, sql: string)
    requires question != ""
    requires GenerateSql(question, env.schema, env.askSql) == Success(sql)
    requires !ValidateSql(sql).isValid
    ensures var h := ProcessQuery(JsonObject(Some(question)), env);
      && h.response == Response(400, ErrorBody(InvalidSqlError(ValidateSql(sql).message), Some(sql)))
      && !RunsQuery(h.calls)
  {
    AfterGeneration(question, env, sql);
    var asked := GenerationCalls(question, env);
    assert asked + [] == asked;
  }

  /** The statement passes but the database raises: 400 with the database's message
      and the statement. */
  lemma ExecutionFailureReported(question: string, env: Collaborators, sql: string, message: string)
    requires question != ""
    requires GenerateSql(question, env.schema, env.askSql) == Success(sql)
    requires ValidateSql(sql).isValid
    requires env.execute(sql) == Failure(message)
    ensures ProcessQuery(JsonObject(Some(question)), env).response
         == Response(400, ErrorBody(ExecutionError(message), Some(sql)))
  {
    AfterGeneration(question, env, sql);
  }

  /** The statement passes and the database answers: 200 with the question, the
      statement, the converted rows and the summary of those rows. */
  lemma SuccessfulAnswer(question: string, env: Collaborators, sql: string, records: seq<Dict<Value>>)
    requires question != ""
    requires GenerateSql(question, env.schema, env.askSql) == Success(sql)
    requires ValidateSql(sql).isValid
    requires env.execute(sql) == Success(records)
    ensures ProcessQuery(JsonObject(Some(question)), env).response
         == Response(200, Answer(question, sql, NormalizeRows(records),
                                 Summarize(question, NormalizeRows(records), env.askSummary).summary))
  {
    AfterGeneration(question, env, sql);
  }

  /** A schema or model failure while generating: 500 with that message alone, and
      no database call. */
  lemma GenerationFailureIsServerError(question: string, env: Collaborators, message: string)
    requires question != ""
    requires GenerateSql(question, env.schema, env.askSql) == Failure(message)
    ensures var h := ProcessQuery(JsonObject(Some(question)), env);
      && h.response == Response(500, ErrorBody(message, None))
      && !RunsQuery(h.calls)
  {
  }

  /** The summary model never decides the outcome: replacing it changes neither the
      status nor anything in the response but the summary text. */
  lemma SummaryNeverDecidesOutcome(body: RequestBody, env: Collaborators,
                                   otherAsk: SummaryPrompt -> Option<string>)
    ensures var h := ProcessQuery(body, env);
            var h' := ProcessQuery(body, env.(askSummary := otherAsk));
      && h'.response.status == h.response.status
      && (h.response.body.ErrorBody? ==> h'.response.body == h.response.body)
      && (h.response.body.Answer? ==> h'.response.body == h.response.body.(summary := h'.response.body.summary))
  {
  }

  /** No query: the answer does not depend on any collaborator. */
  lemma NoQueryIgnoresCollaborators(body: RequestBody, env: Collaborators, env': Collaborators)
    requires NoQuery(body)
    ensures ProcessQuery(body, env) == ProcessQuery(body, env')
  {
  }
}

/** The end-to-end scenarios of the query endpoint on concrete statements. */
module QueryEndpointScenarios {
  import opened Wrappers
  import opened Strings
  import opened NeonDb
  import opened SqlValidation
  import opened SqlValidationExamples
  import opened SqlGeneration
  import opened QueryEndpoint

  /** An empty question: 400 "No query provided", and no call of any kind. */
  lemma EmptyQuestionScenario(env: Collaborators)
    ensures ProcessQuery(JsonObject(Some("")), env)
         == Handled(Response(400, ErrorBody("No query provided", None)), [])
  {
  }

  /** The three statements below are bare: stripped, no backquote at either end. */
  lemma BareStatement(sql: string)
    requires sql == CountCustomers || sql == MissingTable || sql == RenameCustomers
    ensures IsStripped(sql) && sql != []
    ensures sql[0] != '`' && sql[|sql| - 1] != '`'
  {
  }

  /** The model answers with the statement in a fenced block and the table has rows:
      200 with the bare statement and the converted rows, whatever the summary model
      does. */
  lemma CountScenario(question: string, env: Collaborators, schema: Schema, records: seq<Dicts.Dict<Values.Value>>)
    requires question != ""
    requires env.schema == Success(schema)
    requires env.askSql(SqlPrompt(schema, question)) == Success(SqlOpener + ("\n" + CountCustomers + "\n") + Fence)
    requires env.execute(CountCustomers) == Success(records)
    ensures var r := ProcessQuery(JsonObject(Some(question)), env).response;
      && r.status == 200
      && r.body == Answer(question, CountCustomers, NormalizeRows(records), r.body.summary)
  {
    BareStatement(CountCustomers);
    CleanSqlFencedLine(CountCustomers);
    assert GenerateSql(question, env.schema, env.askSql) == Success(CountCustomers);
    CountCustomersAccepted();
    SuccessfulAnswer(question, env, CountCustomers, records);
  }

  /** A statement on a table that does not exist passes validation and fails in the
      database: 400 with the database's message and the statement. */
  lemma MissingTableScenario(question: string, env: Collaborators, schema: Schema, message: string)
    requires question != ""
    requires env.schema == Success(schema)
    requires env.askSql(SqlPrompt(schema, question)) == Success(MissingTable)
    requires env.execute(MissingTable) == Failure(message)
    ensures ProcessQuery(JsonObject(Some(question)), env).response
         == Response(400, ErrorBody("Error executing query: " + message, Some(MissingTable)))
  {
    BareStatement(MissingTable);
    CleanSqlKeepsBareStatement(MissingTable);
    MissingTableAccepted();
  }

  /** A generated UPDATE is rejected naming the keyword, with the statement, and the
      database is never called. */
  lemma UpdateScenario(question: string, env: Collaborators, schema: Schema)
    requires question != ""
    requires env.schema == Success(schema)
    requires env.askSql(SqlPrompt(schema, question)) == Success(RenameCustomers)
    ensures var h := ProcessQuery(JsonObject(Some(question)), env);
      && h.response == Response(400, ErrorBody(
           InvalidSqlError(ForbiddenMessage("UPDATE")), Some(RenameCustomers)))
      && !RunsQuery(h.calls)
  {
    BareStatement(RenameCustomers);
    CleanSqlKeepsBareStatement(RenameCustomers);
    RenameCustomersRefused();
  }
}
