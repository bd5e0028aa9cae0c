/** `generate_natural_language_summary`: a short account of a result set, written
    by the model when it answers and built from local data when it does not. */
module Summary {
  import opened Wrappers
  import opened Strings
  import opened Dicts
  import opened Values

  const NoResultsMessage := "No results found for your query."
  const ComplexData := "[complex data]"

  /** At most this many rows go into the prompt. */
  const SampleLimit := 5

  /** What the model is shown: the question, the sample rows, and the counts of the
      "showing N of M rows" header (the prompt's wording and the JSON layout of the
      sample are not modelled). */
  datatype SummaryPrompt =
    SummaryPrompt(question: string, sample: seq<Dict<string>>, shown: nat, total: nat)

  /** The summary text, and the prompt the model was asked with, if it was asked. */
  datatype SummaryOutcome = SummaryOutcome(summary: string, asked: Option<SummaryPrompt>)

  /** A column left out of the sample: its lower-cased name contains "vector" or
      "embedding". */
  predicate IsBulkyColumn(key: string) {
    Contains(Lower(key), "vector") || Contains(Lower(key), "embedding")
  }

  /** The test ignores letter case. */
  lemma BulkyIgnoresCase(key: string)
    ensures IsBulkyColumn(Upper(key)) <==> IsBulkyColumn(key)
  {
    LowerOfUpper(key);
  }

  /** `safe_serialize(v)`: `str(v)`, or a placeholder when that raises. */
  function SafeSerialize(v: Value): (r: string)
    ensures Display(v).Some? ==> r == Display(v).value
    ensures HasHex(v) ==> r == Display(v).value
    ensures Display(v).None? ==> r == ComplexData
  {
    Display(v).GetOr(ComplexData)
  }

  /** The keys that stay in a sample row, in their order. */
  function KeptKeys(keys: seq<string>): (kept: seq<string>)
    ensures forall k :: k in kept <==> k in keys && !IsBulkyColumn(k)
  {
    if keys == [] then []
    else
      var front := keys[..|keys| - 1];
      assert keys == front + [keys[|keys| - 1]];
      if IsBulkyColumn(keys[|keys| - 1]) then KeptKeys(front)
      else KeptKeys(front) + [keys[|keys| - 1]]
  }

  /** The sample form of one row: exactly the columns that are not bulky, in the
      row's order (their values are given by `SafeRowGet`). */
  function SafeRow(row: Dict<Value>): (r: Dict<string>)
    ensures Keys(r) == KeptKeys(Keys(row))
  {
    if row == [] then []
    else
      var front: Dict<Value> := row[..|row| - 1];
      var (key, value) := row[|row| - 1];
      var kept := SafeRow(front);
      KeysFront(row);
      if IsBulkyColumn(key) then kept else Put(kept, key, SafeSerialize(value))
  }

  /** Each kept column carries its value's safe string; the others are absent. */
  lemma {:induction false} SafeRowGet(row: Dict<Value>, k: string)
    ensures Get(SafeRow(row), k) ==
            if k in Keys(row) && !IsBulkyColumn(k) then Some(SafeSerialize(Get(row, k).value))
            else None
  {
    if row != [] {
      var front: Dict<Value> := row[..|row| - 1];
      var (key, value) := row[|row| - 1];
      assert Keys(row) == Keys(front) + [key];
      GetLast(row, k);
      SafeRowGet(front, k);
    }
  }

  /** `results[:5]`, each row in its sample form. */
  function Sample(results: seq<Dict<Value>>): (sample: seq<Dict<string>>)
    ensures |sample| == if |results| < SampleLimit then |results| else SampleLimit
    ensures forall i :: 0 <= i < |sample| ==> sample[i] == SafeRow(results[i])
  {
    var n := if |results| < SampleLimit then |results| else SampleLimit;
    seq(n, i requires 0 <= i < n => SafeRow(results[i]))
  }

  function PromptFor(question: string, results: seq<Dict<Value>>): (p: SummaryPrompt)
    ensures p.question == question && p.sample == Sample(results)
    ensures p.shown == |p.sample| <= p.total == |results|
  {
    var sample := Sample(results);
    SummaryPrompt(question, sample, |sample|, |results|)
  }

  /** The summary used when the model call fails, built from local data only. */
  function FallbackSummary(total: nat, columns: seq<string>): string {
    "Found " + NatToString(total) + " results with columns: " + Join(", ", columns) + "."
  }

  /** The fallback reads back as its parts: "Found ", the row count in decimal,
      " results with columns: ", the columns joined by ", ", and a closing ".". */
  lemma FallbackReadsBack(total: nat, columns: seq<string>)
    ensures var r := FallbackSummary(total, columns);
            var k := |NatToString(total)|;
      && |r| == 6 + k + 23 + |Join(", ", columns)| + 1
      && r[..6] == "Found "
      && r[6..6 + k] == NatToString(total) && ParseDecimal(r[6..6 + k]) == total
      && r[6 + k..6 + k + 23] == " results with columns: "
      && r[6 + k + 23..|r| - 1] == Join(", ", columns)
      && r[|r| - 1] == '.'
  {
    var found, middle, stop := "Found ", " results with columns: ", ".";
    assert |found| == 6 && |middle| == 23 && |stop| == 1;
    FiveParts(found, NatToString(total), middle, Join(", ", columns), stop);
    assert stop[0] == '.';
    NatToStringRoundTrip(total);
  }

  lemma FiveParts(a: string, b: string, c: string, d: string, e: string)
    requires |e| == 1
    ensures var r := a + b + c + d + e;
      && |r| == |a| + |b| + |c| + |d| + 1
      && r[..|a|] == a
      && r[|a|..|a| + |b|] == b
      && r[|a| + |b|..|a| + |b| + |c|] == c
      && r[|a| + |b| + |c|..|r| - 1] == d
      && r[|r| - 1] == e[0]
  {
    var r := a + b + c + d + e;
    assert r[..|a|] == a;
    assert r[|a|..|a| + |b|] == b;
    assert r[|a| + |b|..|a| + |b| + |c|] == c;
    assert r[|a| + |b| + |c|..|r| - 1] == d;
  }

  /** `generate_natural_language_summary(question, results)`, where `ask` is the
      model: the text it answers a prompt with, or `None` when the call raises. No
      result gives a fixed message without asking; otherwise the model sees the
      first rows in order, at most five, and a failed call gives the fallback with
      the row count and the first row's columns in order. */
  function Summarize(question: string, results: seq<Dict<Value>>,
                     ask: SummaryPrompt -> Option<string>): (o: SummaryOutcome)
    ensures o.asked.None? <==> results == []
    ensures results == [] ==> o.summary == NoResultsMessage
    ensures o.asked.Some? ==>
      var p := o.asked.value;
      && p.question == question && p.total == |results|
      && p.shown == |p.sample| <= SampleLimit && p.shown <= p.total
      && (p.shown == SampleLimit || p.shown == p.total)
      && forall i :: 0 <= i < p.shown ==> p.sample[i] == SafeRow(results[i])
    ensures o.asked.Some? && ask(o.asked.value).Some? ==> o.summary == Strip(ask(o.asked.value).value)
    ensures o.asked.Some? && ask(o.asked.value).None? ==>
      o.summary == FallbackSummary(|results|, Keys(results[0]))
  {
    if results == [] then SummaryOutcome(NoResultsMessage, None)
    else
      var prompt := PromptFor(question, results);
      match ask(prompt)
      case Some(content) => SummaryOutcome(Strip(content), Some(prompt))
      case None => SummaryOutcome(FallbackSummary(|results|, Keys(results[0])), Some(prompt))
  }

  /** Rows past the fifth never reach the model: two result sets of the same size
      that agree on their first five rows, and on the first row's columns, are
      summarized alike. */
  lemma {:induction false} OnlySampleMatters(question: string, a: seq<Dict<Value>>, b: seq<Dict<Value>>,
                                             ask: SummaryPrompt -> Option<string>)
    requires |a| == |b|
    requires forall i :: 0 <= i < |a| && i < SampleLimit ==> a[i] == b[i]
    ensures Summarize(question, a, ask) == Summarize(question, b, ask)
  {
    if a != [] {
      assert a[0] == b[0];
      assert Sample(a) == Sample(b);
    }
  }

  /** A sample row leaves out exactly the bulky columns and keeps every other
      column with its value's safe string. */
  lemma SampleRowColumns(question: string, results: seq<Dict<Value>>, i: nat, key: string)
    requires 0 <= i < |results| && i < SampleLimit
    ensures var p := PromptFor(question, results);
      && i < |p.sample|
      && (key in Keys(p.sample[i]) <==> key in Keys(results[i]) && !IsBulkyColumn(key))
      && (key in Keys(p.sample[i]) ==> Get(p.sample[i], key) == Some(SafeSerialize(Get(results[i], key).value)))
  {
    var p := PromptFor(question, results);
    assert p.sample[i] == SafeRow(results[i]);
    SafeRowGet(results[i], key);
  }

  /** One more entry of a row: `SafeRow` of a longer prefix. */
  lemma SafeRowStep(row: Dict<Value>, j: nat)
    requires j < |row|
    ensures SafeRow(row[..j + 1]) ==
            if IsBulkyColumn(row[j].0) then SafeRow(row[..j])
            else Put(SafeRow(row[..j]), row[j].0, SafeSerialize(row[j].1))
  {
    var seen: Dict<Value> := row[..j + 1];
    assert seen[..|seen| - 1] == row[..j];
  }

  /** The inner loop of `generate_natural_language_summary`: one row's sample form,
      built entry by entry, skipping bulky columns. */
  method BuildSafeRow(row: Dict<Value>) returns (safeRow: Dict<string>)
    ensures safeRow == SafeRow(row)
  {
    safeRow := [];
    var j := 0;
    while j < |row|
      invariant 0 <= j <= |row|
      invariant safeRow == SafeRow(row[..j])
    {
      var (key, value) := row[j];
      SafeRowStep(row, j);
      if !IsBulkyColumn(key) {
        safeRow := Put(safeRow, key, SafeSerialize(value));
      }
      j := j + 1;
    }
    assert row[..j] == row;
  }

  /** The loop form of `generate_natural_language_summary`. */
  method GenerateSummary(question: string, results: seq<Dict<Value>>,
                         ask: SummaryPrompt -> Option<string>)
    returns (summary: string, asked: Option<SummaryPrompt>)
    ensures SummaryOutcome(summary, asked) == Summarize(question, results, ask)
  {
    if results == [] {
      return NoResultsMessage, None;
    }
    var n := if |results| < SampleLimit then |results| else SampleLimit;
    var firstRows := results[..n];
    var safeResults: seq<Dict<string>> := [];
    var i := 0;
    while i < |firstRows|
      invariant 0 <= i <= |firstRows|
      invariant |safeResults| == i
      invariant forall m :: 0 <= m < i ==> safeResults[m] == SafeRow(firstRows[m])
    {
      var safeRow := BuildSafeRow(firstRows[i]);
      safeResults := safeResults + [safeRow];
      i := i + 1;
    }
    var sample := Sample(results);
    assert |sample| == n;
    assert forall m :: 0 <= m < n ==> sample[m] == SafeRow(results[m]) == safeResults[m];
    assert safeResults == sample;
    var columns := Keys(results[0]);
    var resultCount := |results|;
    var prompt := SummaryPrompt(question, safeResults, |safeResults|, resultCount);
    assert prompt == PromptFor(question, results);
    match ask(prompt) {
      case Some(content) =>
        summary := Strip(content);
      case None =>
        summary := FallbackSummary(resultCount, columns);
    }
    asked := Some(prompt);
  }
}
