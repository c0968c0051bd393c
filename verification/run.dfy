/**
 * The bookkeeping of run.py around the three agent calls: cleaning an agent's
 * reply down to the JSON object in it, choosing the receipts that still need a
 * category, merging the categorisations, the fallback records used when a reply
 * cannot be read, and the outcome of one run. The agents' replies are arbitrary
 * strings and the JSON parser is a parameter.
 */
module Run {
  import opened Wrappers
  import opened Records
  import opened Text
  import opened Sequences
  import opened Agents

  // ---------------------------------------------------------------------------
  // clean_json_response

  /** Python's `\s` in a str pattern (str.isspace). */
  predicate IsSpace(c: char) {
    c == ' ' || '\t' <= c <= '\r' || '\U{1C}' <= c <= '\U{1F}' || c == '\U{85}' || c == '\U{A0}' ||
    c == '\U{1680}' || '\U{2000}' <= c <= '\U{200A}' || c == '\U{2028}' || c == '\U{2029}' ||
    c == '\U{202F}' || c == '\U{205F}' || c == '\U{3000}'
  }

  /** The characters fence stripping may delete: backticks, the letters of `json`, whitespace. */
  predicate Deletable(c: char) {
    c == '`' || c == 'j' || c == 's' || c == 'o' || c == 'n' || IsSpace(c)
  }

  /** `\s*` matched greedily at the front: the rest after the leading whitespace. */
  function DropSpaces(s: string): (r: string)
    ensures |r| <= |s| && r == s[|s| - |r|..]
    ensures forall i :: 0 <= i < |s| - |r| ==> IsSpace(s[i])
    ensures r == [] || !IsSpace(r[0])
  {
    if s != [] && IsSpace(s[0]) then DropSpaces(s[1..]) else s
  }

  /** marker appears in s starting at index i. */
  predicate MatchAt(marker: string, s: string, i: nat) {
    i + |marker| <= |s| && s[i..i + |marker|] == marker
  }

  /** marker appears somewhere in s. */
  ghost predicate Occurs(marker: string, s: string) {
    exists i: nat :: MatchAt(marker, s, i)
  }

  /** `re.sub(marker + r'\s*', '', s)`: left to right, non-overlapping, replaced text not rescanned. */
  function DeleteMatches(s: string, marker: string): (r: string)
    requires marker != []
    ensures |r| <= |s|
    ensures forall c :: c in r ==> c in s
    ensures !Occurs(marker, s) ==> r == s
    decreases |s|
  {
    if |s| < |marker| then s
    else if s[..|marker|] == marker then
      assert MatchAt(marker, s, 0); DeleteMatches(DropSpaces(s[|marker|..]), marker)
    else
      assert Occurs(marker, s[1..]) ==> Occurs(marker, s) by {
        if Occurs(marker, s[1..]) {
          var i: nat :| MatchAt(marker, s[1..], i);
          assert s[i + 1..i + 1 + |marker|] == s[1..][i..i + |marker|];
          assert MatchAt(marker, s, i + 1);
        }
      }
      [s[0]] + DeleteMatches(s[1..], marker)
  }

  /** run.py's two substitutions, in order. */
  function StripFences(text: string): (r: string)
    ensures |r| <= |text|
    ensures forall c :: c in r ==> c in text
    ensures !Occurs("```", text) ==> r == text
  {
    assert Occurs("```json", text) ==> Occurs("```", text) by {
      if Occurs("```json", text) {
        var i: nat :| MatchAt("```json", text, i);
        assert text[i..i + 3] == text[i..i + 7][..3];
        assert MatchAt("```", text, i);
      }
    }
    DeleteMatches(DeleteMatches(text, "```json"), "```")
  }

  /** The characters of s that satisfy p, in order. */
  function Filter(s: string, p: char -> bool): string {
    if s == [] then [] else (if p(s[0]) then [s[0]] else []) + Filter(s[1..], p)
  }

  lemma {:induction false} FilterConcat(a: string, b: string, p: char -> bool)
    ensures Filter(a + b, p) == Filter(a, p) + Filter(b, p)
  {
    if a != [] {
      assert (a + b)[1..] == a[1..] + b;
      FilterConcat(a[1..], b, p);
    } else {
      assert a + b == b;
    }
  }

  lemma {:induction false} FilterNone(a: string, p: char -> bool)
    requires forall i :: 0 <= i < |a| ==> !p(a[i])
    ensures Filter(a, p) == []
  {
    if a != [] {
      FilterNone(a[1..], p);
    }
  }

  lemma {:induction false} FilterMember(s: string, p: char -> bool, c: char)
    requires p(c)
    ensures c in Filter(s, p) <==> c in s
  {
    if s != [] {
      FilterMember(s[1..], p, c);
      assert s == [s[0]] + s[1..];
    }
  }

  /** Only deletable characters: nothing p keeps. */
  lemma FilterDeletable(a: string, p: char -> bool)
    requires forall i :: 0 <= i < |a| ==> Deletable(a[i])
    requires forall c :: p(c) ==> !Deletable(c)
    ensures Filter(a, p) == []
  {
    FilterNone(a, p);
  }

  /** The whitespace `\s*` consumes holds nothing p keeps. */
  lemma DropSpacesKeeps(s: string, p: char -> bool)
    requires forall c :: p(c) ==> !Deletable(c)
    ensures Filter(DropSpaces(s), p) == Filter(s, p)
  {
    var kept := DropSpaces(s);
    var dropped := s[..|s| - |kept|];
    assert s == dropped + kept;
    assert forall i :: 0 <= i < |dropped| ==> dropped[i] == s[i] && Deletable(s[i]);
    FilterConcat(dropped, kept, p);
    FilterDeletable(dropped, p);
  }

  /** One match removed: the marker and the whitespace after it hold nothing p keeps. */
  lemma MatchKeeps(s: string, marker: string, p: char -> bool)
    requires marker != [] && |marker| <= |s| && s[..|marker|] == marker
    requires forall i :: 0 <= i < |marker| ==> Deletable(marker[i])
    requires forall c :: p(c) ==> !Deletable(c)
    ensures Filter(DropSpaces(s[|marker|..]), p) == Filter(s, p)
  {
    var rest := s[|marker|..];
    assert s == marker + rest;
    FilterConcat(marker, rest, p);
    FilterDeletable(marker, p);
    DropSpacesKeeps(rest, p);
  }

  /** `\s*` at a non-space character, or at the end, matches nothing. */
  lemma DropSpacesStops(s: string)
    requires s == [] || !IsSpace(s[0])
    ensures DropSpaces(s) == s
  {
  }

  /** A text without backticks, followed by a bare fence, holds no "```json". */
  lemma NoJsonFence(t: string)
    requires '`' !in t
    ensures DeleteMatches(t + "```", "```json") == t + "```"
  {
    var s := t + "```";
    forall i: nat | i + 7 <= |s| ensures !MatchAt("```json", s, i) {
      assert s[i] == t[i];
      assert s[i..i + 7][0] == s[i];
    }
  }

  /** A backtick-free text followed by a marker opening with a backtick loses exactly the marker. */
  lemma {:induction false} TrailingMarkerGoes(t: string, marker: string)
    requires '`' !in t
    requires marker != [] && marker[0] == '`'
    ensures DeleteMatches(t + marker, marker) == t
  {
    var s := t + marker;
    if t == [] {
      assert s == marker && s[..|marker|] == marker;
      assert s[|marker|..] == [];
    } else {
      assert s[..|marker|][0] == t[0];
      assert s[1..] == t[1..] + marker;
      TrailingMarkerGoes(t[1..], marker);
    }
  }

  /**
   * A reply fenced as "```json", a line break, the JSON text and "```" comes out
   * as the JSON text alone, whenever that text holds no backtick and does not
   * start with whitespace.
   */
  lemma FencedReply(t: string)
    requires '`' !in t
    requires t == [] || !IsSpace(t[0])
    ensures StripFences("```json\n" + t + "```") == t
  {
    var body := t + "```";
    assert "```json\n" + t + "```" == "```json" + (['\n'] + body);
    assert body[0] == if t == [] then '`' else t[0];
    OpeningFenceGoes(body);
    NoJsonFence(t);
    TrailingMarkerGoes(t, "```");
  }

  /** The opening "```json" and the line break after it are deleted together. */
  lemma OpeningFenceGoes(body: string)
    requires body != [] && !IsSpace(body[0])
    ensures DeleteMatches("```json" + (['\n'] + body), "```json") == DeleteMatches(body, "```json")
  {
    var text := "```json" + (['\n'] + body);
    assert text[..7] == "```json" && text[7..] == ['\n'] + body;
    assert (['\n'] + body)[1..] == body;
    DropSpacesStops(body);
  }

  /** Deleting one marker and its trailing whitespace keeps every character no deletion can touch. */
  lemma {:induction false} DeleteMatchesKeeps(s: string, marker: string, p: char -> bool)
    requires marker != []
    requires forall i :: 0 <= i < |marker| ==> Deletable(marker[i])
    requires forall c :: p(c) ==> !Deletable(c)
    ensures Filter(DeleteMatches(s, marker), p) == Filter(s, p)
    decreases |s|
  {
    if |s| < |marker| {
    } else if s[..|marker|] == marker {
      DeleteMatchesKeeps(DropSpaces(s[|marker|..]), marker, p);
      MatchKeeps(s, marker, p);
    } else {
      DeleteMatchesKeeps(s[1..], marker, p);
      FilterConcat([s[0]], DeleteMatches(s[1..], marker), p);
    }
  }

  /**
   * Fence stripping deletes only backticks, the letters of `json` and whitespace:
   * every other character survives, in order.
   */
  lemma StripFencesKeeps(text: string, p: char -> bool)
    requires forall c :: p(c) ==> !Deletable(c)
    ensures Filter(StripFences(text), p) == Filter(text, p)
  {
    DeleteMatchesKeeps(text, "```json", p);
    DeleteMatchesKeeps(DeleteMatches(text, "```json"), "```", p);
  }

  predicate IsBrace(c: char) { c == '{' || c == '}' }

  /** In particular the sequence of `{` and `}` is unchanged. */
  lemma StripFencesKeepsBraces(text: string)
    ensures Filter(StripFences(text), IsBrace) == Filter(text, IsBrace)
    ensures '{' in StripFences(text) <==> '{' in text
    ensures '}' in StripFences(text) <==> '}' in text
  {
    StripFencesKeeps(text, IsBrace);
    FilterMember(text, IsBrace, '{');
    FilterMember(StripFences(text), IsBrace, '{');
    FilterMember(text, IsBrace, '}');
    FilterMember(StripFences(text), IsBrace, '}');
  }

  /** A `{` with a `}` somewhere after it. */
  ghost predicate OpensThenCloses(t: string) {
    exists i, j :: 0 <= i < j < |t| && t[i] == '{' && t[j] == '}'
  }

  /**
   * `t[t.find('{'):t.rfind('}') + 1]` when that span is not empty, None
   * otherwise: a span from the first `{` to the last `}`.
   */
  function BraceSpan(t: string): (r: Option<string>)
    ensures r.Some? ==>
      var start, end := Find(t, '{'), RFind(t, '}') + 1;
      && 0 <= start < end <= |t|
      && r.value == t[start..end]
      && '{' !in t[..start] && '}' !in t[end..]
      && r.value[0] == '{' && r.value[|r.value| - 1] == '}'
  {
    var start := Find(t, '{');
    var end := RFind(t, '}') + 1;
    if start != -1 && end > start then Some(t[start..end]) else None
  }

  /** The candidate JSON text of a reply: the brace span of the reply with its code fences removed. */
  function JsonCandidate(text: string): Option<string> {
    BraceSpan(StripFences(text))
  }

  /** There is a span exactly when t has a `{` followed, somewhere later, by a `}`. */
  lemma BraceSpanExists(t: string)
    ensures BraceSpan(t).Some? <==> OpensThenCloses(t)
  {
    var start, last := Find(t, '{'), RFind(t, '}');
    if OpensThenCloses(t) {
      var i, j :| 0 <= i < j < |t| && t[i] == '{' && t[j] == '}';
      assert start <= i;
      assert last >= j;
    }
  }

  /** clean_json_response: the parser's verdict on the candidate, or None; it never fails otherwise. */
  function CleanJsonResponse<T>(text: string, parse: string -> Option<T>): Option<T> {
    match JsonCandidate(text)
    case None => None
    case Some(candidate) => parse(candidate)
  }

  /**
   * A reply without `{`, or without `}`, never yields a value; otherwise the
   * parser sees exactly the candidate span and a parser failure is None.
   */
  lemma CleanJsonResponseSpec<T>(text: string, parse: string -> Option<T>)
    ensures '{' !in text || '}' !in text ==> CleanJsonResponse(text, parse) == None
    ensures JsonCandidate(text).Some? ==> CleanJsonResponse(text, parse) == parse(JsonCandidate(text).value)
    ensures JsonCandidate(text).None? ==> CleanJsonResponse(text, parse) == None
  {
    StripFencesKeepsBraces(text);
  }

  // ---------------------------------------------------------------------------
  // run_expense_crew

  /** What run.py writes to outputs/crew_analysis.json. */
  datatype CrewOutput = CrewOutput(categorization: Categorization, analysis: JsonObject, advice: JsonObject)

  /** The Python errors run_expense_crew can raise on the values this model represents. */
  datatype Failure =
    | OldDataUnbound            // `return old_data` with no stored output (run.py:40)
    | MerchantKeyMissing        // `e['merchant']` while building the categorising prompt (agents.py:64, run.py:56)
    | CategorizationNotMapping  // `{**old, **None}` when the categorising reply cannot be read (run.py:68)
    | InsightsWithoutLength     // `len(...)` of a null, boolean or numeric "insights" (run.py:89)
    | ByCategoryNotMapping      // `.items()` of a "by_category" that is not an object (run.py:124)
    | TipsNotSliceable          // `[:3]` of "tips" that is neither a string nor an array (run.py:128)

  datatype Outcome =
    | Skipped(stored: Option<CrewOutput>)
    | Completed(output: CrewOutput)
    | Failed(failure: Failure)                            // raised before the output file is written
    | FailedAfterWrite(output: CrewOutput, failure: Failure)  // the file is written, then the summary raises

  /** The crew output the run leaves in outputs/crew_analysis.json, if it writes one. */
  function Written(o: Outcome): Option<CrewOutput> {
    if o.Completed? || o.FailedAfterWrite? then Some(o.output) else None
  }

  /** The three agents' replies, as text. */
  datatype Replies = Replies(categorize: string, analyze: string, advise: string)

  function StoredCategorization(stored: Option<CrewOutput>): Categorization {
    if stored.Some? then stored.value.categorization else map[]
  }

  /** `[e for e in expenses if e['image_file'] not in old_categorization]` */
  function NewExpenses(expenses: seq<Expense>, earlier: Categorization): (r: seq<Expense>)
    ensures Subsequence(r, expenses)
    ensures forall e :: e in r <==> e in expenses && e.imageFile !in earlier
  {
    if expenses == [] then []
    else
      var init, e := expenses[..|expenses| - 1], expenses[|expenses| - 1];
      var r := NewExpenses(init, earlier);
      assert expenses == init + [e];
      if e.imageFile !in earlier then
        SubsequenceAppend(r, init, e);
        r + [e]
      else
        SubsequenceExtend(r, init, e);
        r
  }

  /** Every occurrence of a new receipt is kept, repeats included, and no other receipt occurs. */
  lemma {:induction false} NewExpensesCounts(expenses: seq<Expense>, earlier: Categorization)
    ensures forall x :: multiset(NewExpenses(expenses, earlier))[x]
                     == if x.imageFile !in earlier then multiset(expenses)[x] else 0
  {
    if expenses != [] {
      var init, e := expenses[..|expenses| - 1], expenses[|expenses| - 1];
      NewExpensesCounts(init, earlier);
      assert expenses == init + [e];
      assert multiset(expenses) == multiset(init) + multiset{e};
    }
  }

  /** Some expense's image has no stored categorisation. */
  ghost predicate SomethingNew(expenses: seq<Expense>, earlier: Categorization) {
    exists i :: 0 <= i < |expenses| && expenses[i].imageFile !in earlier
  }

  /** Nothing is new exactly when every image already has a categorisation. */
  lemma {:induction false} NothingNew(expenses: seq<Expense>, earlier: Categorization)
    ensures NewExpenses(expenses, earlier) == [] <==> !SomethingNew(expenses, earlier)
  {
    if expenses != [] {
      var init := expenses[..|expenses| - 1];
      NothingNew(init, earlier);
      assert forall i :: 0 <= i < |init| ==> init[i] == expenses[i];
    }
  }

  /** `{**old, **new}` */
  function Merge(earlier: Categorization, latest: Categorization): (r: Categorization)
    ensures r.Keys == earlier.Keys + latest.Keys
    ensures forall k :: k in latest ==> r[k] == latest[k]
    ensures forall k :: k in earlier && k !in latest ==> r[k] == earlier[k]
  {
    earlier + latest
  }

  /** The analysis written when the analysing reply yields nothing. */
  function FallbackAnalysis(expenses: seq<Expense>): JsonObject {
    [("total_spent", JNum(TotalSpent(expenses))), ("insights", JArr([])), ("anomalies", JArr([]))]
  }

  const QuickWin: string := "Track your spending daily"

  /** The advice written when the advising reply yields nothing. */
  const FallbackAdvice: JsonObject := [("tips", JArr([])), ("quick_win", JStr(QuickWin))]

  /** `if not parsed: parsed = fallback`: None and the empty object are falsy. */
  function OrFallback(parsed: Option<JsonObject>, fallback: JsonObject): (r: JsonObject)
    ensures r == fallback || (parsed == Some(r) && r != [])
    ensures parsed.Some? && parsed.value != [] ==> r == parsed.value
    ensures parsed.None? || parsed.value == [] ==> r == fallback
    ensures fallback != [] ==> r != []
  {
    if parsed.Some? && parsed.value != [] then parsed.value else fallback
  }

  /** The value under key in a parsed object (the last occurrence wins, as in json.loads). */
  function Field(obj: JsonObject, key: string): Option<Json> {
    if obj == [] then None
    else if obj[|obj| - 1].0 == key then Some(obj[|obj| - 1].1)
    else Field(obj[..|obj| - 1], key)
  }

  /** `len(obj.get(key, []))` succeeds: the value is missing, a string, an array or an object. */
  predicate HasLen(v: Option<Json>) {
    v.None? || v.value.JStr? || v.value.JArr? || v.value.JObj?
  }

  /** `obj.get(key, {}).items()` succeeds: the value is missing or an object. */
  predicate HasItems(v: Option<Json>) {
    v.None? || v.value.JObj?
  }

  /** `obj.get(key, [])[:3]` succeeds: the value is missing, a string or an array. */
  predicate Sliceable(v: Option<Json>) {
    v.None? || v.value.JStr? || v.value.JArr?
  }

  /** The analysis the run keeps: the analysing reply's object, or the fallback. */
  function AnalysisOf(expenses: seq<Expense>, reply: string, parseObject: string -> Option<JsonObject>): JsonObject {
    OrFallback(CleanJsonResponse(reply, parseObject), FallbackAnalysis(expenses))
  }

  /** The advice the run keeps: the advising reply's object, or the fallback. */
  function AdviceOf(reply: string, parseObject: string -> Option<JsonObject>): JsonObject {
    OrFallback(CleanJsonResponse(reply, parseObject), FallbackAdvice)
  }

  /** Steps 1-3, the write and the summary, once there is something new to categorise. */
  function Pipeline(
    expenses: seq<Expense>, earlier: Categorization, replies: Replies,
    parseCategorization: string -> Option<Categorization>, parseObject: string -> Option<JsonObject>): (r: Outcome)
    ensures !r.Skipped? && r != Failed(OldDataUnbound)
    ensures Written(r).Some? ==>
      !MissingMerchant(NewExpenses(expenses, earlier)) && CleanJsonResponse(replies.categorize, parseCategorization).Some?
  {
    if MissingMerchant(NewExpenses(expenses, earlier)) then Failed(MerchantKeyMissing)
    else match CleanJsonResponse(replies.categorize, parseCategorization)
    case None => Failed(CategorizationNotMapping)
    case Some(categorizationNew) =>
      var analysis := AnalysisOf(expenses, replies.analyze, parseObject);
      if !HasLen(Field(analysis, "insights")) then Failed(InsightsWithoutLength)
      else
        var advice := AdviceOf(replies.advise, parseObject);
        var output := CrewOutput(Merge(earlier, categorizationNew), analysis, advice);
        if !HasItems(Field(analysis, "by_category")) then FailedAfterWrite(output, ByCategoryNotMapping)
        else if !Sliceable(Field(advice, "tips")) then FailedAfterWrite(output, TipsNotSliceable)
        else Completed(output)
  }

  /** run_expense_crew as written: `return old_data` is unbound when nothing was stored. */
  function RunExpenseCrewAsWritten(
    expenses: seq<Expense>, stored: Option<CrewOutput>, replies: Replies,
    parseCategorization: string -> Option<Categorization>, parseObject: string -> Option<JsonObject>): Outcome
  {
    var earlier := StoredCategorization(stored);
    if NewExpenses(expenses, earlier) == [] then
      (if stored.Some? then Skipped(stored) else Failed(OldDataUnbound))
    else Pipeline(expenses, earlier, replies, parseCategorization, parseObject)
  }

  /** run_expense_crew with the skip path returning whatever was stored, possibly nothing. */
  function RunExpenseCrew(
    expenses: seq<Expense>, stored: Option<CrewOutput>, replies: Replies,
    parseCategorization: string -> Option<Categorization>, parseObject: string -> Option<JsonObject>): (r: Outcome)
    ensures r.Skipped? <==> NewExpenses(expenses, StoredCategorization(stored)) == []
    ensures r.Skipped? ==> r.stored == stored
    ensures r != Failed(OldDataUnbound)
  {
    var earlier := StoredCategorization(stored);
    if NewExpenses(expenses, earlier) == [] then Skipped(stored)
    else Pipeline(expenses, earlier, replies, parseCategorization, parseObject)
  }

  /**
   * With nothing new, the stored output comes back unchanged and no agent reply
   * is consulted: any two sets of replies give the same outcome.
   */
  lemma SkipWhenNothingNew(
    expenses: seq<Expense>, stored: Option<CrewOutput>, replies1: Replies, replies2: Replies,
    parseCategorization: string -> Option<Categorization>, parseObject: string -> Option<JsonObject>)
    requires NewExpenses(expenses, StoredCategorization(stored)) == []
    ensures RunExpenseCrew(expenses, stored, replies1, parseCategorization, parseObject) == Skipped(stored)
    ensures RunExpenseCrew(expenses, stored, replies1, parseCategorization, parseObject)
         == RunExpenseCrew(expenses, stored, replies2, parseCategorization, parseObject)
  {
  }

  /**
   * The run raises before writing anything exactly when something is new and, in
   * the source's order, a new receipt lacks its merchant key, or the categorising
   * reply yields no object, or the kept analysis has an "insights" without a length.
   */
  lemma RunFailsBeforeWriting(
    expenses: seq<Expense>, stored: Option<CrewOutput>, replies: Replies,
    parseCategorization: string -> Option<Categorization>, parseObject: string -> Option<JsonObject>)
    ensures var run := RunExpenseCrew(expenses, stored, replies, parseCategorization, parseObject);
      var earlier := StoredCategorization(stored);
      var missing := MissingMerchant(NewExpenses(expenses, earlier));
      var latest := CleanJsonResponse(replies.categorize, parseCategorization);
      var insights := Field(AnalysisOf(expenses, replies.analyze, parseObject), "insights");
      && (run == Failed(MerchantKeyMissing) <==> SomethingNew(expenses, earlier) && missing)
      && (run == Failed(CategorizationNotMapping) <==> SomethingNew(expenses, earlier) && !missing && latest.None?)
      && (run == Failed(InsightsWithoutLength) <==>
            SomethingNew(expenses, earlier) && !missing && latest.Some? && !HasLen(insights))
      && (run.Failed? <==> SomethingNew(expenses, earlier) && (missing || latest.None? || !HasLen(insights)))
  {
    NothingNew(expenses, StoredCategorization(stored));
  }

  /**
   * The run writes its output exactly when something is new, every new receipt has
   * a merchant, the categorising reply yields an object and the kept analysis has an
   * "insights" with a length. It writes the merged categorisation with the analysis
   * and advice, each its fallback when its reply yields nothing or {}; it then
   * completes exactly when the summary can list by_category and slice the tips.
   */
  lemma WrittenOutput(
    expenses: seq<Expense>, stored: Option<CrewOutput>, replies: Replies,
    parseCategorization: string -> Option<Categorization>, parseObject: string -> Option<JsonObject>)
    ensures var run := RunExpenseCrew(expenses, stored, replies, parseCategorization, parseObject);
      var earlier := StoredCategorization(stored);
      var latest := CleanJsonResponse(replies.categorize, parseCategorization);
      var analysis := AnalysisOf(expenses, replies.analyze, parseObject);
      var advice := AdviceOf(replies.advise, parseObject);
      && (Written(run).Some? <==>
            SomethingNew(expenses, earlier) && !MissingMerchant(NewExpenses(expenses, earlier))
            && latest.Some? && HasLen(Field(analysis, "insights")))
      && (Written(run).Some? ==> latest.Some? && Written(run).value == CrewOutput(Merge(earlier, latest.value), analysis, advice))
      && (run.Completed? <==>
            Written(run).Some? && HasItems(Field(analysis, "by_category")) && Sliceable(Field(advice, "tips")))
  {
    var earlier := StoredCategorization(stored);
    NothingNew(expenses, earlier);
    if NewExpenses(expenses, earlier) != [] {
      PipelineWrites(expenses, earlier, replies, parseCategorization, parseObject);
    }
  }

  lemma PipelineWrites(
    expenses: seq<Expense>, earlier: Categorization, replies: Replies,
    parseCategorization: string -> Option<Categorization>, parseObject: string -> Option<JsonObject>)
    ensures var run := Pipeline(expenses, earlier, replies, parseCategorization, parseObject);
      var latest := CleanJsonResponse(replies.categorize, parseCategorization);
      var analysis := AnalysisOf(expenses, replies.analyze, parseObject);
      var advice := AdviceOf(replies.advise, parseObject);
      && (Written(run).Some? <==>
            !MissingMerchant(NewExpenses(expenses, earlier)) && latest.Some? && HasLen(Field(analysis, "insights")))
      && (Written(run).Some? ==> latest.Some? && Written(run).value == CrewOutput(Merge(earlier, latest.value), analysis, advice))
      && (run.Completed? <==>
            Written(run).Some? && HasItems(Field(analysis, "by_category")) && Sliceable(Field(advice, "tips")))
  {
    var run := Pipeline(expenses, earlier, replies, parseCategorization, parseObject);
    if MissingMerchant(NewExpenses(expenses, earlier)) {
      assert run == Failed(MerchantKeyMissing);
    } else if CleanJsonResponse(replies.categorize, parseCategorization).None? {
      assert run == Failed(CategorizationNotMapping);
    }
  }

  /**
   * A written output keeps every stored categorisation the new reply does not
   * replace and takes the new reply's entry on a conflict.
   */
  lemma WrittenMerges(
    expenses: seq<Expense>, stored: Option<CrewOutput>, replies: Replies,
    parseCategorization: string -> Option<Categorization>, parseObject: string -> Option<JsonObject>)
    ensures var run := RunExpenseCrew(expenses, stored, replies, parseCategorization, parseObject);
      var earlier := StoredCategorization(stored);
      var latest := CleanJsonResponse(replies.categorize, parseCategorization);
      Written(run).Some? ==>
        && latest.Some?
        && Written(run).value.categorization.Keys == earlier.Keys + latest.value.Keys
        && (forall img :: img in latest.value ==> Written(run).value.categorization[img] == latest.value[img])
        && (forall img :: img in earlier && img !in latest.value ==> Written(run).value.categorization[img] == earlier[img])
  {
    WrittenOutput(expenses, stored, replies, parseCategorization, parseObject);
  }

  /**
   * When the analysing reply yields nothing (or an empty object), neither the
   * insights count nor the by_category listing can raise, and a written output
   * records the summed total with no insights, no anomalies and no by_category.
   */
  lemma WrittenFallbackAnalysis(
    expenses: seq<Expense>, stored: Option<CrewOutput>, replies: Replies,
    parseCategorization: string -> Option<Categorization>, parseObject: string -> Option<JsonObject>)
    ensures var run := RunExpenseCrew(expenses, stored, replies, parseCategorization, parseObject);
      var earlier := StoredCategorization(stored);
      var parsed := CleanJsonResponse(replies.analyze, parseObject);
      parsed.None? || parsed.value == [] ==>
        && (Written(run).Some? <==>
              SomethingNew(expenses, earlier) && !MissingMerchant(NewExpenses(expenses, earlier))
              && CleanJsonResponse(replies.categorize, parseCategorization).Some?)
        && (Written(run).Some? ==>
              && Field(Written(run).value.analysis, "total_spent") == Some(JNum(TotalSpent(expenses)))
              && Field(Written(run).value.analysis, "insights") == Some(JArr([]))
              && Field(Written(run).value.analysis, "anomalies") == Some(JArr([]))
              && Field(Written(run).value.analysis, "by_category") == None)
        && (run.FailedAfterWrite? ==> run.failure == TipsNotSliceable)
  {
    WrittenOutput(expenses, stored, replies, parseCategorization, parseObject);
    FallbackAnalysisFields(expenses);
  }

  lemma FallbackAnalysisFields(expenses: seq<Expense>)
    ensures Field(FallbackAnalysis(expenses), "total_spent") == Some(JNum(TotalSpent(expenses)))
    ensures Field(FallbackAnalysis(expenses), "insights") == Some(JArr([]))
    ensures Field(FallbackAnalysis(expenses), "anomalies") == Some(JArr([]))
    ensures Field(FallbackAnalysis(expenses), "by_category") == None
  {
    var total := TotalSpent(expenses);
    var a0 := [("total_spent", JNum(total))];
    var a1 := a0 + [("insights", JArr([]))];
    var a := FallbackAnalysis(expenses);
    assert a == a1 + [("anomalies", JArr([]))];
    assert a[..2] == a1 && a1[..1] == a0 && a0[..0] == [];
    var k := "by_category";
    assert "anomalies" != k && "insights" != k && "total_spent" != k by {
      assert k[0] == 'b';
    }
    assert Field(a, "insights") == Field(a1, "insights");
    assert Field(a, "total_spent") == Field(a1, "total_spent") == Field(a0, "total_spent");
    assert Field(a, k) == Field(a1, k) == Field(a0, k) == Field([], k);
  }

  /**
   * When the advising reply yields nothing (or an empty object), the tips cannot
   * make the summary raise, and a written output records no tips and the fixed
   * quick win.
   */
  lemma WrittenFallbackAdvice(
    expenses: seq<Expense>, stored: Option<CrewOutput>, replies: Replies,
    parseCategorization: string -> Option<Categorization>, parseObject: string -> Option<JsonObject>)
    ensures var run := RunExpenseCrew(expenses, stored, replies, parseCategorization, parseObject);
      var parsed := CleanJsonResponse(replies.advise, parseObject);
      parsed.None? || parsed.value == [] ==>
        && (Written(run).Some? ==>
              && Field(Written(run).value.advice, "tips") == Some(JArr([]))
              && Field(Written(run).value.advice, "quick_win") == Some(JStr(QuickWin)))
        && (run.FailedAfterWrite? ==> run.failure == ByCategoryNotMapping)
  {
    WrittenOutput(expenses, stored, replies, parseCategorization, parseObject);
    FallbackAdviceFields();
  }

  lemma FallbackAdviceFields()
    ensures Field(FallbackAdvice, "tips") == Some(JArr([]))
    ensures Field(FallbackAdvice, "quick_win") == Some(JStr(QuickWin))
  {
    assert FallbackAdvice[..1] == [("tips", JArr([]))];
    assert Field(FallbackAdvice, "tips") == Field(FallbackAdvice[..1], "tips");
  }

  /** The as-written run crashes on a first run over an empty expense list... */
  lemma AsWrittenFailsOnEmptyFirstRun(
    replies: Replies,
    parseCategorization: string -> Option<Categorization>, parseObject: string -> Option<JsonObject>)
    ensures RunExpenseCrewAsWritten([], None, replies, parseCategorization, parseObject) == Failed(OldDataUnbound)
    ensures RunExpenseCrew([], None, replies, parseCategorization, parseObject) == Skipped(None)
  {
  }

  /** ...and that is the only input on which it differs from the corrected run. */
  lemma AsWrittenDiffersOnlyThere(
    expenses: seq<Expense>, stored: Option<CrewOutput>, replies: Replies,
    parseCategorization: string -> Option<Categorization>, parseObject: string -> Option<JsonObject>)
    ensures RunExpenseCrewAsWritten(expenses, stored, replies, parseCategorization, parseObject)
         != RunExpenseCrew(expenses, stored, replies, parseCategorization, parseObject)
        <==> stored.None? && expenses == []
  {
    if stored.None? && expenses != [] {
      assert expenses[0] in NewExpenses(expenses, map[]);
    }
  }
}
