/** `generate_sql`: asking the model for a statement and cleaning its reply. */
module SqlGeneration {
  import opened Wrappers
  import opened Strings
  import opened NeonDb

  /** What the model is shown: the schema and the question (the prompt's wording
      and the JSON layout of the schema are not modelled). */
  datatype SqlPrompt = SqlPrompt(schema: Schema, question: string)

  const SqlOpener := "```sql"
  const Fence := "```"

  /** `s[6:]` when `s` starts with "```sql". */
  function DropOpener(s: string): (r: string)
    ensures StartsWith(s, SqlOpener) ==> s == SqlOpener + r
    ensures !StartsWith(s, SqlOpener) ==> r == s
  {
    if StartsWith(s, SqlOpener) then s[|SqlOpener|..] else s
  }

  /** `s[:-3]` when `s` ends with "```". */
  function DropFence(s: string): (r: string)
    ensures EndsWith(s, Fence) ==> s == r + Fence
    ensures !EndsWith(s, Fence) ==> r == s
  {
    if EndsWith(s, Fence) then s[..|s| - |Fence|] else s
  }

  /** The clean-up of the model's reply: strip, drop a leading "```sql", drop a
      trailing "```", strip again. */
  function CleanSql(reply: string): (sql: string)
    ensures IsStripped(sql)
  {
    Strip(DropFence(DropOpener(Strip(reply))))
  }

  /** Without fences, cleaning is `strip()`. */
  lemma CleanSqlWithoutFences(reply: string)
    requires !StartsWith(Strip(reply), SqlOpener) && !EndsWith(Strip(reply), Fence)
    ensures CleanSql(reply) == Strip(reply)
  {
    StripIdempotent(reply);
  }

  /** On a reply without fences, cleaning is idempotent. */
  lemma CleanSqlIdempotentWithoutFences(reply: string)
    requires !StartsWith(Strip(reply), SqlOpener) && !EndsWith(Strip(reply), Fence)
    ensures CleanSql(CleanSql(reply)) == CleanSql(reply)
  {
    CleanSqlWithoutFences(reply);
    StripIdempotent(reply);
    CleanSqlWithoutFences(Strip(reply));
  }

  lemma BlockStripped(body: string)
    ensures IsStripped(SqlOpener + body + Fence)
    ensures SqlOpener + body + Fence == SqlOpener + (body + Fence)
  {
    var block := SqlOpener + body + Fence;
    assert block[0] == '`' && block[|block| - 1] == '`';
  }

  /** A fenced block, with whitespace around it, comes back as its stripped body. */
  lemma CleanSqlFencedBlock(w0: string, body: string, w3: string)
    requires AllSpace(w0) && AllSpace(w3)
    ensures CleanSql(w0 + (SqlOpener + body + Fence) + w3) == Strip(body)
  {
    BlockStripped(body);
    StripPadded(w0, SqlOpener + body + Fence, w3);
    OpenerDropped(body);
    FenceDropped(body);
  }

  lemma OpenerDropped(body: string)
    ensures DropOpener(SqlOpener + (body + Fence)) == body + Fence
  {
    var block := SqlOpener + (body + Fence);
    assert block[..|SqlOpener|] == SqlOpener;
  }

  lemma FenceDropped(body: string)
    ensures DropFence(body + Fence) == body
  {
    assert (body + Fence)[|body|..] == Fence;
  }

  /** A statement wrapped in a fenced block, with any whitespace around the fences
      and around the statement, comes back as the statement itself. */
  lemma CleanSqlUnfences(w0: string, w1: string, statement: string, w2: string, w3: string)
    requires AllSpace(w0) && AllSpace(w1) && AllSpace(w2) && AllSpace(w3)
    requires IsStripped(statement)
    ensures CleanSql(w0 + SqlOpener + w1 + statement + w2 + Fence + w3) == statement
  {
    var body := w1 + statement + w2;
    assert w0 + SqlOpener + w1 + statement + w2 + Fence + w3 == w0 + (SqlOpener + body + Fence) + w3;
    CleanSqlFencedBlock(w0, body, w3);
    StripPadded(w1, statement, w2);
  }

  /** The usual shape of a fenced reply: the statement on its own line. */
  lemma CleanSqlFencedLine(statement: string)
    requires IsStripped(statement)
    ensures CleanSql(SqlOpener + ("\n" + statement + "\n") + Fence) == statement
  {
    var newline: string := "\n";
    var none: string := [];
    assert AllSpace(newline) by {
      assert forall i :: 0 <= i < |newline| ==> newline[i] == '\n';
    }
    var body := newline + statement + newline;
    var block := SqlOpener + body + Fence;
    CleanSqlFencedBlock(none, body, none);
    assert none + block + none == block;
    StripPadded(newline, statement, newline);
  }

  /** A bare statement that neither starts nor ends with a backquote comes back
      unchanged. */
  lemma CleanSqlKeepsBareStatement(statement: string)
    requires IsStripped(statement) && statement != []
    requires statement[0] != '`' && statement[|statement| - 1] != '`'
    ensures CleanSql(statement) == statement
  {
    StripPadded([], statement, []);
    assert [] + statement + [] == statement;
    CleanSqlWithoutFences(statement);
  }

  const GenerationPrefix := "Error generating SQL: "

  /** The message a model failure is re-raised with: the prefix, then the model's
      own message, which can be read back. */
  function GenerationError(message: string): (r: string)
    ensures |r| == |GenerationPrefix| + |message|
    ensures r[..|GenerationPrefix|] == GenerationPrefix && r[|GenerationPrefix|..] == message
  {
    GenerationPrefix + message
  }

  /** `generate_sql(question)`: `schema` is what `get_schema()` gives or the message
      it raises with; `ask` is the model, answering a prompt with its reply or the
      message of the error it raised. A schema failure propagates as it is, since it
      happens before the `try`; a model failure is re-raised with a prefix. */
  function GenerateSql(question: string, schema: Result<Schema, string>,
                       ask: SqlPrompt -> Result<string, string>): (r: Result<string, string>)
    ensures schema.Failure? ==> r == Failure(schema.error)
    ensures schema.Success? && ask(SqlPrompt(schema.value, question)).Failure? ==>
      r == Failure(GenerationError(ask(SqlPrompt(schema.value, question)).error))
    ensures r.Success? <==> schema.Success? && ask(SqlPrompt(schema.value, question)).Success?
    ensures r.Success? ==> r.value == CleanSql(ask(SqlPrompt(schema.value, question)).value)
    ensures r.Success? ==> IsStripped(r.value)
  {
    match schema
    case Failure(e) => Failure(e)
    case Success(s) =>
      match ask(SqlPrompt(s, question))
      case Failure(e) => Failure(GenerationError(e))
      case Success(reply) => Success(CleanSql(reply))
  }
}
