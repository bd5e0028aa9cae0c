/** `validate_sql`: the deny-list and SELECT-only policy applied to every
    generated statement before it reaches the database. */
module SqlValidation {
  import opened Wrappers
  import opened Strings

  /** Checked in this order; the first one found is the one reported. */
  const ForbiddenKeywords: seq<string> :=
    ["DROP", "DELETE", "UPDATE", "INSERT", "ALTER", "TRUNCATE", "GRANT", "REVOKE"]

  const SelectOnlyMessage := "Only SELECT queries are allowed"

  /** The `(is_valid, error_message)` pair. */
  datatype Verdict = Verdict(isValid: bool, message: string)

  /** `f' {keyword} ' in f' {query_upper} '`. */
  predicate MentionsKeyword(queryUpper: string, keyword: string) {
    Contains(" " + queryUpper + " ", " " + keyword + " ")
  }

  predicate MentionsNoForbiddenKeyword(queryUpper: string) {
    forall k :: 0 <= k < |ForbiddenKeywords| ==> !MentionsKeyword(queryUpper, ForbiddenKeywords[k])
  }

  /** The loop over the keyword list, from position `from` on: the index of the
      first keyword the query mentions. */
  function FirstForbidden(queryUpper: string, from: nat): (r: Option<nat>)
    requires from <= |ForbiddenKeywords|
    ensures r.Some? ==> from <= r.value < |ForbiddenKeywords|
    ensures r.Some? ==> MentionsKeyword(queryUpper, ForbiddenKeywords[r.value])
    ensures r.Some? ==> forall k :: from <= k < r.value ==> !MentionsKeyword(queryUpper, ForbiddenKeywords[k])
    ensures r.None? <==> forall k :: from <= k < |ForbiddenKeywords| ==> !MentionsKeyword(queryUpper, ForbiddenKeywords[k])
    decreases |ForbiddenKeywords| - from
  {
    if from == |ForbiddenKeywords| then None
    else if MentionsKeyword(queryUpper, ForbiddenKeywords[from]) then Some(from)
    else FirstForbidden(queryUpper, from + 1)
  }

  function ForbiddenMessage(keyword: string): string {
    "Query contains forbidden keyword: " + keyword
  }

  /** `validate_sql(query)`: the first forbidden keyword the upper-cased text
      mentions rejects it; otherwise it must, left-trimmed, start with SELECT. */
  function ValidateSql(query: string): (v: Verdict)
    ensures v.isValid <==> v.message == ""
    ensures v.isValid ==> StartsWith(LStrip(Upper(query)), "SELECT")
  {
    var queryUpper := Upper(query);
    UpperOfUpperLStrip(query);
    match FirstForbidden(queryUpper, 0)
    case Some(k) =>
      Verdict(false, ForbiddenMessage(ForbiddenKeywords[k]))
    case None =>
      if !StartsWith(Upper(LStrip(queryUpper)), "SELECT") then Verdict(false, SelectOnlyMessage)
      else Verdict(true, "")
  }

  /** A statement is accepted exactly when it mentions no forbidden keyword between
      spaces and, left-trimmed, starts with SELECT in any letter case; the message
      is empty exactly when it is accepted, and names the keyword or the SELECT-only
      rule otherwise. */
  lemma ValidateSqlPolicy(query: string)
    ensures ValidateSql(query).isValid <==>
      MentionsNoForbiddenKeyword(Upper(query)) && StartsWith(LStrip(Upper(query)), "SELECT")
    ensures ValidateSql(query).isValid <==> ValidateSql(query).message == ""
    ensures !ValidateSql(query).isValid && !MentionsNoForbiddenKeyword(Upper(query)) ==>
      exists k :: 0 <= k < |ForbiddenKeywords| && ValidateSql(query).message == ForbiddenMessage(ForbiddenKeywords[k])
    ensures MentionsNoForbiddenKeyword(Upper(query)) && !ValidateSql(query).isValid ==>
      ValidateSql(query).message == SelectOnlyMessage
  {
    UpperOfUpperLStrip(query);
  }

  /** `query_upper.lstrip().upper() == query_upper.lstrip()`. */
  lemma UpperOfUpperLStrip(query: string)
    ensures Upper(LStrip(Upper(query))) == LStrip(Upper(query))
  {
    UpperLStrip(Upper(query));
    UpperIdempotent(query);
  }

  /** The keyword scan comes first: a statement that mentions a forbidden keyword is
      rejected naming the first such keyword of the list, whatever it starts with. */
  lemma ReportsFirstKeyword(query: string, k: nat)
    requires k < |ForbiddenKeywords|
    requires MentionsKeyword(Upper(query), ForbiddenKeywords[k])
    requires forall j :: 0 <= j < k ==> !MentionsKeyword(Upper(query), ForbiddenKeywords[j])
    ensures ValidateSql(query) == Verdict(false, ForbiddenMessage(ForbiddenKeywords[k]))
  {
  }

  /** Only the upper-cased text matters. */
  lemma {:induction false} CaseInsensitive(query: string)
    ensures ValidateSql(Upper(query)) == ValidateSql(query)
  {
    UpperIdempotent(query);
  }

  /** `keyword` stands in `queryUpper` at `i` with a literal space, or the end of
      the text, on each side. */
  predicate SpaceBounded(queryUpper: string, keyword: string, i: int) {
    && OccursAt(queryUpper, keyword, i)
    && (i == 0 || queryUpper[i - 1] == ' ')
    && (i + |keyword| == |queryUpper| || queryUpper[i + |keyword|] == ' ')
  }

  /** A match of the padded keyword at `i` of the padded text is the keyword at `i`
      of the text, bounded by spaces or ends. */
  lemma PaddedMatchIsBounded(queryUpper: string, keyword: string, i: int)
    requires 0 <= i
    requires OccursAt(" " + queryUpper + " ", " " + keyword + " ", i)
    ensures i <= |queryUpper| - |keyword| && SpaceBounded(queryUpper, keyword, i)
  {
    var padded := " " + queryUpper + " ";
    var pattern := " " + keyword + " ";
    assert forall t :: 0 <= t < |pattern| ==> padded[i + t] == padded[i..i + |pattern|][t] == pattern[t];
    assert forall t :: 0 <= t < |keyword| ==> queryUpper[i + t] == padded[i + 1 + t] == pattern[1 + t] == keyword[t];
    assert queryUpper[i..i + |keyword|] == keyword;
    assert i > 0 ==> queryUpper[i - 1] == padded[i] == ' ';
    assert padded[i + |keyword| + 1] == pattern[|keyword| + 1] == ' ';
  }

  lemma BoundedIsPaddedMatch(queryUpper: string, keyword: string, i: int)
    requires 0 <= i <= |queryUpper| - |keyword| && SpaceBounded(queryUpper, keyword, i)
    ensures OccursAt(" " + queryUpper + " ", " " + keyword + " ", i)
  {
    var padded := " " + queryUpper + " ";
    var pattern := " " + keyword + " ";
    assert padded[i + 1..i + 1 + |keyword|] == queryUpper[i..i + |keyword|];
    assert padded[i] == ' ' && padded[i + |keyword| + 1] == ' ';
    assert padded[i..i + |pattern|] == pattern;
  }

  /** The boundary is the space character alone: a keyword counts only where a space
      or an end of the text sits on both sides of it, so `DROPPED_AT`, `;DROP` or a
      keyword after a newline never match. */
  lemma KeywordNeedsSpaces(queryUpper: string, keyword: string)
    ensures MentionsKeyword(queryUpper, keyword) <==>
      exists i :: 0 <= i <= |queryUpper| - |keyword| && SpaceBounded(queryUpper, keyword, i)
  {
    var padded := " " + queryUpper + " ";
    var pattern := " " + keyword + " ";
    if MentionsKeyword(queryUpper, keyword) {
      var i :| 0 <= i <= |padded| - |pattern| && OccursAt(padded, pattern, i);
      PaddedMatchIsBounded(queryUpper, keyword, i);
    }
    if i :| 0 <= i <= |queryUpper| - |keyword| && SpaceBounded(queryUpper, keyword, i) {
      BoundedIsPaddedMatch(queryUpper, keyword, i);
    }
  }

  /** `keyword` can only start a match inside the first word at the very front,
      and then it is that word. */
  lemma FirstWord(w: string, tail: string, keyword: string, i: int)
    requires SpaceFree(w) && SpaceFree(keyword)
    requires tail != [] && tail[0] == ' '
    requires OccursAt(" " + w + tail, " " + keyword + " ", i)
    requires i < |w| + 1
    ensures i == 0 && keyword == w
  {
    var padded := " " + w + tail;
    var pattern := " " + keyword + " ";
    assert padded[i] == pattern[0] == ' ';
    assert forall j :: 0 < j < |w| + 1 ==> padded[j] == w[j - 1] != ' ';
    assert padded[|w| + 1] == ' ';
    assert forall j :: 0 < j < |keyword| + 1 ==> pattern[j] == keyword[j - 1] != ' ';
    assert pattern[|keyword| + 1] == ' ';
    assert forall j :: 0 <= j < |pattern| ==> padded[j] == pattern[j];
    assert |keyword| == |w|;
    assert keyword == padded[1..|w| + 1] == w;
  }

  /** With `tail` the padded rest of the words, the padded keyword occurs in
      `" " + w + tail` exactly when it is the first word or occurs in `tail`. */
  lemma WordThenTail(w: string, tail: string, keyword: string)
    requires SpaceFree(w) && SpaceFree(keyword)
    requires tail != [] && tail[0] == ' '
    ensures Contains(" " + w + tail, " " + keyword + " ") <==>
      keyword == w || Contains(tail, " " + keyword + " ")
  {
    var padded := " " + w + tail;
    var pattern := " " + keyword + " ";
    var pre := " " + w;
    assert padded == pre + tail;
    if keyword == w {
      assert padded[..|pattern|] == pattern;
      assert OccursAt(padded, pattern, 0);
    }
    if Contains(tail, pattern) {
      var j :| 0 <= j <= |tail| - |pattern| && OccursAt(tail, pattern, j);
      OccursShifted(pre, tail, pattern, j);
    }
    if Contains(padded, pattern) {
      var i :| 0 <= i <= |padded| - |pattern| && OccursAt(padded, pattern, i);
      if i < |pre| {
        FirstWord(w, tail, keyword, i);
      } else {
        OccursShifted(pre, tail, pattern, i - |pre|);
      }
    }
  }

  /** The padded substring test is membership in the space-separated words:
      `keyword in query_upper.split(' ')`. */
  lemma {:induction false} KeywordIsWord(words: seq<string>, keyword: string)
    requires forall j :: 0 <= j < |words| ==> SpaceFree(words[j])
    requires keyword != [] && SpaceFree(keyword)
    ensures MentionsKeyword(Join(" ", words), keyword) <==> keyword in words
  {
    if words == [] {
      assert forall i :: 0 <= i <= 0 ==> !OccursAt("  ", " " + keyword + " ", i);
    } else if |words| == 1 {
      WordThenTail(words[0], " ", keyword);
      assert !Contains(" ", " " + keyword + " ");
    } else {
      var rest := words[1..];
      assert " " + Join(" ", words) + " " == " " + words[0] + (" " + Join(" ", rest) + " ");
      WordThenTail(words[0], " " + Join(" ", rest) + " ", keyword);
      KeywordIsWord(rest, keyword);
      assert words == [words[0]] + rest;
    }
  }

  lemma KeywordsAreWords()
    ensures forall k :: 0 <= k < |ForbiddenKeywords| ==>
      ForbiddenKeywords[k] != [] && SpaceFree(ForbiddenKeywords[k])
  {
    forall k | 0 <= k < |ForbiddenKeywords|
      ensures ForbiddenKeywords[k] != [] && SpaceFree(ForbiddenKeywords[k])
    {
      assert k in {0, 1, 2, 3, 4, 5, 6, 7};
    }
  }

  /** Reference scan over words: the first keyword, from `from` on, that is one
      of the words. */
  function FirstForbiddenWord(words: seq<string>, from: nat): (r: Option<nat>)
    requires from <= |ForbiddenKeywords|
    ensures r.Some? ==> from <= r.value < |ForbiddenKeywords| && ForbiddenKeywords[r.value] in words
    ensures r.Some? ==> forall k :: from <= k < r.value ==> ForbiddenKeywords[k] !in words
    ensures r.None? <==> forall k :: from <= k < |ForbiddenKeywords| ==> ForbiddenKeywords[k] !in words
    decreases |ForbiddenKeywords| - from
  {
    if from == |ForbiddenKeywords| then None
    else if ForbiddenKeywords[from] in words then Some(from)
    else FirstForbiddenWord(words, from + 1)
  }

  /** Reference statement of the policy over the words of the upper-cased text:
      a keyword that is a whole word rejects, else the left-trimmed text must start
      with SELECT. */
  function WordVerdict(words: seq<string>, queryUpper: string): Verdict {
    VerdictOf(FirstForbiddenWord(words, 0), queryUpper)
  }

  /** The verdict once the scan has found keyword `found`, or none. */
  function VerdictOf(found: Option<nat>, queryUpper: string): Verdict
    requires found.Some? ==> found.value < |ForbiddenKeywords|
  {
    match found
    case Some(k) => Verdict(false, ForbiddenMessage(ForbiddenKeywords[k]))
    case None =>
      if StartsWith(LStrip(queryUpper), "SELECT") then Verdict(true, "")
      else Verdict(false, SelectOnlyMessage)
  }

  lemma ValidateSqlByScan(query: string)
    ensures ValidateSql(query) == VerdictOf(FirstForbidden(Upper(query), 0), Upper(query))
  {
    UpperOfUpperLStrip(query);
  }

  lemma {:induction false} ScanByWords(words: seq<string>, from: nat)
    requires from <= |ForbiddenKeywords|
    requires forall j :: 0 <= j < |words| ==> SpaceFree(words[j])
    ensures FirstForbidden(Join(" ", words), from) == FirstForbiddenWord(words, from)
    decreases |ForbiddenKeywords| - from
  {
    if from < |ForbiddenKeywords| {
      KeywordsAreWords();
      KeywordIsWord(words, ForbiddenKeywords[from]);
      ScanByWords(words, from + 1);
    }
  }

  /** `validate_sql` agrees with the word-level statement of the policy for any
      split of the upper-cased text into space-free words. */
  lemma ValidateSqlByWords(query: string, words: seq<string>)
    requires Upper(query) == Join(" ", words)
    requires forall j :: 0 <= j < |words| ==> SpaceFree(words[j])
    ensures ValidateSql(query) == WordVerdict(words, Upper(query))
  {
    ScanByWords(words, 0);
    ValidateSqlByScan(query);
  }

  /** A statement whose words contain a forbidden keyword is refused, naming the
      first keyword of the list that occurs. */
  lemma RefusedAtWord(query: string, words: seq<string>, k: nat)
    requires Upper(query) == Join(" ", words)
    requires forall j :: 0 <= j < |words| ==> SpaceFree(words[j])
    requires FirstForbiddenWord(words, 0) == Some(k)
    ensures k < |ForbiddenKeywords|
    ensures ValidateSql(query) == Verdict(false, ForbiddenMessage(ForbiddenKeywords[k]))
  {
    ValidateSqlByWords(query, words);
  }

  /** A statement with no forbidden word passes exactly when it opens with SELECT. */
  lemma GateDecides(query: string, words: seq<string>)
    requires Upper(query) == Join(" ", words)
    requires forall j :: 0 <= j < |words| ==> SpaceFree(words[j])
    requires FirstForbiddenWord(words, 0).None?
    ensures ValidateSql(query) ==
            if StartsWith(LStrip(Upper(query)), "SELECT") then Verdict(true, "")
            else Verdict(false, SelectOnlyMessage)
  {
    ValidateSqlByWords(query, words);
    assert WordVerdict(words, Upper(query)) == VerdictOf(None, Upper(query));
  }

  /** In particular for `query.upper().split(' ')`. */
  lemma ValidateSqlBySplit(query: string)
    ensures ValidateSql(query) == WordVerdict(SplitOnSpace(Upper(query)), Upper(query))
  {
    ValidateSqlByWords(query, SplitOnSpace(Upper(query)));
  }
}

/** Worked examples of the policy on concrete statements. Each statement's
    upper-cased text and its words are established separately, then the word-level
    statement of the policy gives the verdict. */
module SqlValidationExamples {
  import opened Wrappers
  import opened Strings
  import opened SqlValidation

  const DeleteAll := "DELETE FROM x"
  const DeleteWords := ["DELETE", "FROM", "X"]
  const StackedDrop := "SELECT * FROM t; DROP TABLE t"
  const StackedDropWords := ["SELECT", "*", "FROM", "T;", "DROP", "TABLE", "T"]
  const DroppedAtColumn := "SELECT dropped_at FROM t"
  const DroppedAtWords := ["SELECT", "DROPPED_AT", "FROM", "T"]
  const DropAfterLineBreak := "SELECT 1;\nDROP TABLE t"
  const LineBreakWords := ["SELECT", "1;\nDROP", "TABLE", "T"]
  const ShowTables := "SHOW TABLES"
  const ShowWords := ["SHOW", "TABLES"]
  const MissingTable := "SELECT * FROM nonexistent_table"
  const MissingTableWords := ["SELECT", "*", "FROM", "NONEXISTENT_TABLE"]
  const RenameCustomers := "UPDATE customers SET name='x'"
  const RenameCustomersWords := ["UPDATE", "CUSTOMERS", "SET", "NAME='X'"]
  const CountCustomers := "SELECT COUNT(*) FROM customers"
  const CountCustomersWords := ["SELECT", "COUNT(*)", "FROM", "CUSTOMERS"]

  lemma DeleteUpper(q: string)
    requires q == DeleteAll
    ensures Upper(q) == "DELETE FROM X"
  {
  }

  lemma DeleteJoin(words: seq<string>)
    requires words == DeleteWords
    ensures Join(" ", words) == "DELETE FROM X"
  {
  }

  lemma DeleteSpaceFree(words: seq<string>)
    requires words == DeleteWords
    ensures forall j :: 0 <= j < |words| ==> SpaceFree(words[j])
  {
  }

  lemma DeleteScan(words: seq<string>)
    requires words == DeleteWords
    ensures FirstForbiddenWord(words, 0) == Some(1)
  {
    assert words[0] == ForbiddenKeywords[1];
  }

  lemma StackedDropUpper(q: string)
    requires q == StackedDrop
    ensures Upper(q) == "SELECT * FROM T; DROP TABLE T"
  {
  }

  lemma StackedDropJoin(words: seq<string>)
    requires words == StackedDropWords
    ensures Join(" ", words) == "SELECT * FROM T; DROP TABLE T"
  {
  }

  lemma StackedDropSpaceFree(words: seq<string>)
    requires words == StackedDropWords
    ensures forall j :: 0 <= j < |words| ==> SpaceFree(words[j])
  {
  }

  lemma StackedDropScan(words: seq<string>)
    requires words == StackedDropWords
    ensures FirstForbiddenWord(words, 0) == Some(0)
  {
    assert words[4] == ForbiddenKeywords[0];
  }

  lemma DroppedAtUpper(q: string)
    requires q == DroppedAtColumn
    ensures Upper(q) == "SELECT DROPPED_AT FROM T"
  {
  }

  lemma DroppedAtJoin(words: seq<string>)
    requires words == DroppedAtWords
    ensures Join(" ", words) == "SELECT DROPPED_AT FROM T"
  {
  }

  lemma DroppedAtSpaceFree(words: seq<string>)
    requires words == DroppedAtWords
    ensures forall j :: 0 <= j < |words| ==> SpaceFree(words[j])
  {
  }

  lemma DroppedAtScan(words: seq<string>)
    requires words == DroppedAtWords
    ensures FirstForbiddenWord(words, 0).None?
  {
  }

  lemma DroppedAtGate(u: string)
    requires u == "SELECT DROPPED_AT FROM T"
    ensures u != [] && !IsSpace(u[0])
    ensures StartsWith(u, "SELECT")
  {
    assert u[..6] == "SELECT";
  }

  lemma LineBreakUpper(q: string)
    requires q == DropAfterLineBreak
    ensures Upper(q) == "SELECT 1;\nDROP TABLE T"
  {
  }

  lemma LineBreakJoin(words: seq<string>)
    requires words == LineBreakWords
    ensures Join(" ", words) == "SELECT 1;\nDROP TABLE T"
  {
  }

  lemma LineBreakSpaceFree(words: seq<string>)
    requires words == LineBreakWords
    ensures forall j :: 0 <= j < |words| ==> SpaceFree(words[j])
  {
  }

  lemma LineBreakScan(words: seq<string>)
    requires words == LineBreakWords
    ensures FirstForbiddenWord(words, 0).None?
  {
  }

  lemma LineBreakGate(u: string)
    requires u == "SELECT 1;\nDROP TABLE T"
    ensures u != [] && !IsSpace(u[0])
    ensures StartsWith(u, "SELECT")
  {
    assert u[..6] == "SELECT";
  }

  lemma ShowUpper(q: string)
    requires q == ShowTables
    ensures Upper(q) == "SHOW TABLES"
  {
  }

  lemma ShowJoin(words: seq<string>)
    requires words == ShowWords
    ensures Join(" ", words) == "SHOW TABLES"
  {
  }

  lemma ShowSpaceFree(words: seq<string>)
    requires words == ShowWords
    ensures forall j :: 0 <= j < |words| ==> SpaceFree(words[j])
  {
  }

  lemma ShowScan(words: seq<string>)
    requires words == ShowWords
    ensures FirstForbiddenWord(words, 0).None?
  {
  }

  lemma ShowGate(u: string)
    requires u == "SHOW TABLES"
    ensures u != [] && !IsSpace(u[0])
    ensures !StartsWith(u, "SELECT")
  {
    assert u[1] != "SELECT"[1];
  }

  lemma MissingTableUpper(q: string)
    requires q == MissingTable
    ensures Upper(q) == "SELECT * FROM NONEXISTENT_TABLE"
  {
  }

  lemma MissingTableJoin(words: seq<string>)
    requires words == MissingTableWords
    ensures Join(" ", words) == "SELECT * FROM NONEXISTENT_TABLE"
  {
  }

  lemma MissingTableSpaceFree(words: seq<string>)
    requires words == MissingTableWords
    ensures forall j :: 0 <= j < |words| ==> SpaceFree(words[j])
  {
  }

  lemma MissingTableScan(words: seq<string>)
    requires words == MissingTableWords
    ensures FirstForbiddenWord(words, 0).None?
  {
  }

  lemma MissingTableGate(u: string)
    requires u == "SELECT * FROM NONEXISTENT_TABLE"
    ensures u != [] && !IsSpace(u[0])
    ensures StartsWith(u, "SELECT")
  {
    assert u[..6] == "SELECT";
  }

  lemma RenameCustomersUpper(q: string)
    requires q == RenameCustomers
    ensures Upper(q) == "UPDATE CUSTOMERS SET NAME='X'"
  {
  }

  lemma RenameCustomersJoin(words: seq<string>)
    requires words == RenameCustomersWords
    ensures Join(" ", words) == "UPDATE CUSTOMERS SET NAME='X'"
  {
  }

  lemma RenameCustomersSpaceFree(words: seq<string>)
    requires words == RenameCustomersWords
    ensures forall j :: 0 <= j < |words| ==> SpaceFree(words[j])
  {
  }

  lemma RenameCustomersScan(words: seq<string>)
    requires words == RenameCustomersWords
    ensures FirstForbiddenWord(words, 0) == Some(2)
  {
    assert words[0] == ForbiddenKeywords[2];
  }

  lemma CountCustomersUpper(q: string)
    requires q == CountCustomers
    ensures Upper(q) == "SELECT COUNT(*) FROM CUSTOMERS"
  {
  }

  lemma CountCustomersJoin(words: seq<string>)
    requires words == CountCustomersWords
    ensures Join(" ", words) == "SELECT COUNT(*) FROM CUSTOMERS"
  {
  }

  lemma CountCustomersSpaceFree(words: seq<string>)
    requires words == CountCustomersWords
    ensures forall j :: 0 <= j < |words| ==> SpaceFree(words[j])
  {
  }

  lemma CountCustomersScan(words: seq<string>)
    requires words == CountCustomersWords
    ensures FirstForbiddenWord(words, 0).None?
  {
  }

  lemma CountCustomersGate(u: string)
    requires u == "SELECT COUNT(*) FROM CUSTOMERS"
    ensures u != [] && !IsSpace(u[0])
    ensures StartsWith(u, "SELECT")
  {
    assert u[..6] == "SELECT";
  }

  /** A DELETE is refused for its keyword, before the SELECT gate is reached. */
  lemma DeleteRefusedForKeyword()
    ensures ValidateSql(DeleteAll) == Verdict(false, ForbiddenMessage("DELETE"))
  {
    DeleteUpper(DeleteAll);
    DeleteJoin(DeleteWords);
    DeleteSpaceFree(DeleteWords);
    DeleteScan(DeleteWords);
    RefusedAtWord(DeleteAll, DeleteWords, FirstForbiddenWord(DeleteWords, 0).value);
  }

  /** A second statement after `; ` is caught by its keyword. */
  lemma StackedDropRefused()
    ensures ValidateSql(StackedDrop) == Verdict(false, ForbiddenMessage("DROP"))
  {
    StackedDropUpper(StackedDrop);
    StackedDropJoin(StackedDropWords);
    StackedDropSpaceFree(StackedDropWords);
    StackedDropScan(StackedDropWords);
    RefusedAtWord(StackedDrop, StackedDropWords, FirstForbiddenWord(StackedDropWords, 0).value);
  }

  /** A column whose name merely starts with a keyword is no match. */
  lemma KeywordInsideIdentifierAccepted()
    ensures ValidateSql(DroppedAtColumn) == Verdict(true, "")
  {
    DroppedAtUpper(DroppedAtColumn);
    DroppedAtJoin(DroppedAtWords);
    DroppedAtSpaceFree(DroppedAtWords);
    DroppedAtScan(DroppedAtWords);
    DroppedAtGate(Upper(DroppedAtColumn));
    LStripNoLeadingSpace(Upper(DroppedAtColumn));
    GateDecides(DroppedAtColumn, DroppedAtWords);
  }

  /** Only a literal space bounds a keyword: after a line break it is not seen. */
  lemma KeywordAfterLineBreakAccepted()
    ensures ValidateSql(DropAfterLineBreak) == Verdict(true, "")
  {
    LineBreakUpper(DropAfterLineBreak);
    LineBreakJoin(LineBreakWords);
    LineBreakSpaceFree(LineBreakWords);
    LineBreakScan(LineBreakWords);
    LineBreakGate(Upper(DropAfterLineBreak));
    LStripNoLeadingSpace(Upper(DropAfterLineBreak));
    GateDecides(DropAfterLineBreak, LineBreakWords);
  }

  /** A read statement other than SELECT is refused by the SELECT gate. */
  lemma ShowRefusedByGate()
    ensures ValidateSql(ShowTables) == Verdict(false, SelectOnlyMessage)
  {
    ShowUpper(ShowTables);
    ShowJoin(ShowWords);
    ShowSpaceFree(ShowWords);
    ShowScan(ShowWords);
    ShowGate(Upper(ShowTables));
    LStripNoLeadingSpace(Upper(ShowTables));
    GateDecides(ShowTables, ShowWords);
  }

  /** With no table check, a read of a table that does not exist passes. */
  lemma MissingTableAccepted()
    ensures ValidateSql(MissingTable) == Verdict(true, "")
  {
    MissingTableUpper(MissingTable);
    MissingTableJoin(MissingTableWords);
    MissingTableSpaceFree(MissingTableWords);
    MissingTableScan(MissingTableWords);
    MissingTableGate(Upper(MissingTable));
    LStripNoLeadingSpace(Upper(MissingTable));
    GateDecides(MissingTable, MissingTableWords);
  }

  /** An UPDATE is refused, naming the keyword. */
  lemma RenameCustomersRefused()
    ensures ValidateSql(RenameCustomers) == Verdict(false, ForbiddenMessage("UPDATE"))
  {
    RenameCustomersUpper(RenameCustomers);
    RenameCustomersJoin(RenameCustomersWords);
    RenameCustomersSpaceFree(RenameCustomersWords);
    RenameCustomersScan(RenameCustomersWords);
    RefusedAtWord(RenameCustomers, RenameCustomersWords, FirstForbiddenWord(RenameCustomersWords, 0).value);
  }

  /** A counting read passes. */
  lemma CountCustomersAccepted()
    ensures ValidateSql(CountCustomers) == Verdict(true, "")
  {
    CountCustomersUpper(CountCustomers);
    CountCustomersJoin(CountCustomersWords);
    CountCustomersSpaceFree(CountCustomersWords);
    CountCustomersScan(CountCustomersWords);
    CountCustomersGate(Upper(CountCustomers));
    LStripNoLeadingSpace(Upper(CountCustomers));
    GateDecides(CountCustomers, CountCustomersWords);
  }
}
