/** The decision logic of the command line: the case-insensitive model
    filter, the rows of the result table (which features get a row, the
    tick or cross, and which details line each row shows), and the
    membership check before probing one model by id. */
module Cli {
  import opened Outcomes
  import opened Strings
  import opened Transport
  import opened Verdicts
  import opened Probe

  // ---------------------------------------------------------------------
  // `filter_models`

  /** `xs` occurs in `ys` in order, possibly with gaps. */
  ghost predicate IsSubsequence<T>(xs: seq<T>, ys: seq<T>)
    decreases |ys|
  {
    |xs| == 0 || (|ys| > 0 && (if xs[0] == ys[0] then IsSubsequence(xs[1..], ys[1..]) else IsSubsequence(xs, ys[1..])))
  }

  /** Whether a model id matches an already lower-cased pattern. */
  predicate Matches(model: string, loweredPattern: string) {
    Contains(Lower(model), loweredPattern)
  }

  /** The comprehension `[m for m in models if pattern in m.lower()]`: the
      matching ids, each as often as it is listed, in listed order. */
  function KeepMatching(models: seq<string>, loweredPattern: string): (kept: seq<string>)
    ensures IsSubsequence(kept, models)
    ensures forall i :: 0 <= i < |kept| ==> Matches(kept[i], loweredPattern)
    ensures forall m :: Matches(m, loweredPattern) ==> multiset(kept)[m] == multiset(models)[m]
    decreases |models|
  {
    if models == [] then []
    else
      var rest := KeepMatching(models[1..], loweredPattern);
      assert models == [models[0]] + models[1..];
      if Matches(models[0], loweredPattern) then [models[0]] + rest else rest
  }

  /** `filter_models`: the pattern is lower-cased once, each id for every
      comparison. */
  function FilterModels(models: seq<string>, pattern: string): (kept: seq<string>)
    ensures IsSubsequence(kept, models)
    ensures forall i :: 0 <= i < |kept| ==> Contains(Lower(kept[i]), Lower(pattern))
  {
    KeepMatching(models, Lower(pattern))
  }

  /** Filtering keeps exactly the ids whose lower-case form contains the
      lower-case pattern. */
  lemma FilterKeepsExactlyMatches(models: seq<string>, pattern: string, m: string)
    ensures m in FilterModels(models, pattern) <==> m in models && Contains(Lower(m), Lower(pattern))
  {
    var kept := FilterModels(models, pattern);
    if m in kept {
      var i :| 0 <= i < |kept| && kept[i] == m;
      assert multiset(kept)[m] > 0;
    }
    if m in models && Matches(m, Lower(pattern)) {
      assert multiset(models)[m] > 0;
    }
  }

  /** Filtering an already filtered list with the same pattern changes
      nothing. */
  lemma {:induction false} KeepMatchingIdempotent(models: seq<string>, loweredPattern: string)
    ensures KeepMatching(KeepMatching(models, loweredPattern), loweredPattern) == KeepMatching(models, loweredPattern)
    decreases |models|
  {
    if models != [] {
      KeepMatchingIdempotent(models[1..], loweredPattern);
      var rest := KeepMatching(models[1..], loweredPattern);
      if Matches(models[0], loweredPattern) {
        assert ([models[0]] + rest)[1..] == rest;
      }
    }
  }

  lemma FilterIdempotent(models: seq<string>, pattern: string)
    ensures FilterModels(FilterModels(models, pattern), pattern) == FilterModels(models, pattern)
  {
    KeepMatchingIdempotent(models, Lower(pattern));
  }

  /** Every string contains the empty string. */
  lemma ContainsEmpty(s: string)
    ensures Contains(s, "")
  {
    assert StartsWith(s, "");
  }

  /** An empty pattern keeps the list as it is. */
  lemma {:induction false} FilterEmptyPatternKeepsAll(models: seq<string>)
    ensures FilterModels(models, "") == models
    decreases |models|
  {
    if models != [] {
      FilterEmptyPatternKeepsAll(models[1..]);
      ContainsEmpty(Lower(models[0]));
      assert Lower("") == "";
      assert [models[0]] + models[1..] == models;
    }
  }

  /** Two patterns that differ only in letter case select the same ids;
      in particular the upper-cased pattern selects what the pattern does. */
  lemma FilterIgnoresPatternCase(models: seq<string>, pattern: string, other: string)
    requires EqualIgnoringCase(pattern, other)
    ensures FilterModels(models, pattern) == FilterModels(models, other)
    ensures FilterModels(models, Upper(pattern)) == FilterModels(models, pattern)
  {
    LowerIgnoresCase(pattern, other);
    UpperKeepsLetters(pattern);
    LowerIgnoresCase(Upper(pattern), pattern);
  }

  // ---------------------------------------------------------------------
  // `format_result_table`

  /** One row of the report: feature name, mark, details line. */
  datatype Row = Row(feature: string, mark: string, detail: string)

  const Tick := "\U{2713}"
  const Cross := "\U{2717}"

  /** The mark a flag shows. */
  function Mark(flag: bool): (mark: string)
    ensures mark == Tick <==> flag
    ensures mark == Cross <==> !flag
  {
    if flag then Tick else Cross
  }

  /** The chat row's details: the first line of the details text, or ""
      when there are no details. */
  function FirstLine(details: string): (line: string)
    ensures SingleLine(line)
    ensures line == Split(details)[0]
  {
    if details != "" then Split(details)[0] else ""
  }

  /** Where `next(d for d in lines if needle in d)` stops: the first line
      that contains `needle`, or `|lines|` when none does. */
  function FirstIndexContaining(lines: seq<string>, needle: string): (i: nat)
    ensures i <= |lines|
    ensures i < |lines| ==> Contains(lines[i], needle)
    ensures forall j :: 0 <= j < i ==> !Contains(lines[j], needle)
    decreases |lines|
  {
    if lines == [] then 0
    else if Contains(lines[0], needle) then 0
    else 1 + FirstIndexContaining(lines[1..], needle)
  }

  /** `next((d for d in lines if needle in d), "")` */
  function FirstContaining(lines: seq<string>, needle: string): (line: string)
    ensures line == "" || (line in lines && Contains(line, needle))
  {
    var i := FirstIndexContaining(lines, needle);
    if i < |lines| then lines[i] else ""
  }

  /** The rows `format_result_table` adds for a capabilities record: the
      chat row always; then, only when chat is supported, the
      function-calling, JSON-mode and vision rows. */
  function ResultRows(caps: ModelCapabilities): (rows: seq<Row>)
    ensures |rows| == (if caps.supportsChat then 4 else 1)
    ensures rows[0] == Row("Chat", Mark(caps.supportsChat), FirstLine(caps.details))
  {
    var chat := Row("Chat", Mark(caps.supportsChat), FirstLine(caps.details));
    if !caps.supportsChat then [chat]
    else
      var lines := Split(caps.details);
      [chat,
       Row("Functions", Mark(caps.supportsFunctionCalling), FirstContaining(lines, "Functions:")),
       Row("JSON Mode", Mark(caps.supportsJsonMode), FirstContaining(lines, "JSON Mode:")),
       Row("Vision", Mark(caps.supportsVision), FirstContaining(lines, "Vision:"))]
  }

  /** The table being filled; only its rows are modelled. */
  class Table {
    var rows: seq<Row>

    constructor ()
      ensures rows == []
    {
      rows := [];
    }

    /** `table.add_row(feature, mark, detail)` */
    method AddRow(feature: string, mark: string, detail: string)
      modifies this
      ensures rows == old(rows) + [Row(feature, mark, detail)]
    {
      rows := rows + [Row(feature, mark, detail)];
    }
  }

  /** `format_result_table`, row by row. */
  method FormatResultTable(caps: ModelCapabilities) returns (table: Table)
    ensures fresh(table)
    ensures table.rows == ResultRows(caps)
  {
    table := new Table();
    table.AddRow("Chat", Mark(caps.supportsChat), if caps.details != "" then Split(caps.details)[0] else "");
    if caps.supportsChat {
      table.AddRow("Functions", Mark(caps.supportsFunctionCalling),
        FirstContaining(Split(caps.details), "Functions:"));
      table.AddRow("JSON Mode", Mark(caps.supportsJsonMode),
        FirstContaining(Split(caps.details), "JSON Mode:"));
      table.AddRow("Vision", Mark(caps.supportsVision),
        FirstContaining(Split(caps.details), "Vision:"));
    }
  }

  /** Without chat the table has the chat row alone; with chat it has four
      rows, in the order chat, functions, JSON mode, vision. */
  lemma RowsGatedByChat(caps: ModelCapabilities)
    ensures |ResultRows(caps)| == (if caps.supportsChat then 4 else 1)
    ensures ResultRows(caps)[0].feature == "Chat"
    ensures caps.supportsChat ==>
      && ResultRows(caps)[1].feature == "Functions"
      && ResultRows(caps)[2].feature == "JSON Mode"
      && ResultRows(caps)[3].feature == "Vision"
  {
  }

  /** Each row shows a tick exactly when its feature's flag is set. */
  lemma MarksFollowFlags(caps: ModelCapabilities)
    ensures ResultRows(caps)[0].mark == Tick <==> caps.supportsChat
    ensures caps.supportsChat ==>
      && (ResultRows(caps)[1].mark == Tick <==> caps.supportsFunctionCalling)
      && (ResultRows(caps)[2].mark == Tick <==> caps.supportsJsonMode)
      && (ResultRows(caps)[3].mark == Tick <==> caps.supportsVision)
  {
  }

  /** `next((d for d in lines if needle in d), "")` for a non-empty needle:
      "" exactly when no line holds the needle, and otherwise the first line
      that does. */
  lemma FirstContainingIsFirstMatch(lines: seq<string>, needle: string)
    requires needle != ""
    ensures FirstContaining(lines, needle) == "" <==> forall j :: 0 <= j < |lines| ==> !Contains(lines[j], needle)
    ensures FirstContaining(lines, needle) != "" ==>
      exists j :: 0 <= j < |lines| && lines[j] == FirstContaining(lines, needle) && Contains(lines[j], needle)
        && forall i :: 0 <= i < j ==> !Contains(lines[i], needle)
  {
    var i := FirstIndexContaining(lines, needle);
    if i < |lines| {
      assert lines[i] != "";
    }
  }

  // ---------------------------------------------------------------------
  // The table of a probe result

  /** A line that starts with `head` starts with every prefix of `head`. */
  lemma LabelledLineStarts(head: string, needle: string, rest: string)
    requires StartsWith(head, needle)
    ensures StartsWith(head + rest, needle)
  {
    assert (head + rest)[..|needle|] == head[..|needle|];
  }

  /** For a probed model whose replies hold no line break, the chat row shows
      the chat line "Chat: ..." of the details. */
  lemma ChatRowShowsChatLine(e: Endpoint, model: string)
    requires SingleLineResponses(e, model)
    ensures ResultRows(Probed(e, model))[0].detail == Entry(e, Chat, model)
  {
    var caps := Probed(e, model);
    DetailsSplitIntoEntries(e, model);
    ChatComesFirst(e, model);
    assert |Entry(e, Chat, model)| >= |Label(Chat)|;
  }

  /** The search stops at line `k` when it is the first to hold `needle`. */
  lemma FirstContainingAt(lines: seq<string>, needle: string, k: nat)
    requires k < |lines| && Contains(lines[k], needle)
    requires forall j :: 0 <= j < k ==> !Contains(lines[j], needle)
    ensures FirstContaining(lines, needle) == lines[k]
  {
    var i := FirstIndexContaining(lines, needle);
    assert i <= k;
    assert i >= k;
  }

  /** With chat supported, the three dependent rows show the first line that
      holds their label, given where those labels first occur. */
  lemma DependentRowsShowLines(caps: ModelCapabilities, lines: seq<string>)
    requires caps.supportsChat && Split(caps.details) == lines && |lines| >= 4
    requires StartsWith(lines[1], "Functions:") && StartsWith(lines[2], "JSON Mode:") && StartsWith(lines[3], "Vision:")
    ensures !Contains(lines[0], "Functions:") ==> ResultRows(caps)[1].detail == lines[1]
    ensures !Contains(lines[0], "JSON Mode:") && !Contains(lines[1], "JSON Mode:") ==>
      ResultRows(caps)[2].detail == lines[2]
    ensures !Contains(lines[0], "Vision:") && !Contains(lines[1], "Vision:") && !Contains(lines[2], "Vision:") ==>
      ResultRows(caps)[3].detail == lines[3]
  {
    if !Contains(lines[0], "Functions:") {
      FirstContainingAt(lines, "Functions:", 1);
    }
    if !Contains(lines[0], "JSON Mode:") && !Contains(lines[1], "JSON Mode:") {
      forall j | 0 <= j < 2 ensures !Contains(lines[j], "JSON Mode:") {
        assert j == 0 || j == 1;
      }
      FirstContainingAt(lines, "JSON Mode:", 2);
    }
    if !Contains(lines[0], "Vision:") && !Contains(lines[1], "Vision:") && !Contains(lines[2], "Vision:") {
      forall j | 0 <= j < 3 ensures !Contains(lines[j], "Vision:") {
        assert j == 0 || j == 1 || j == 2;
      }
      FirstContainingAt(lines, "Vision:", 3);
    }
  }

  /** For a probed model whose chat works and whose replies hold no line
      break, the second, third and fourth of the five probe lines start with
      their row's label. */
  lemma ProbedLinesLabelled(e: Endpoint, model: string)
    requires ChatSucceeds(e, model)
    ensures |DetailEntries(e, model)| == 5
    ensures StartsWith(DetailEntries(e, model)[1], "Functions:")
    ensures StartsWith(DetailEntries(e, model)[2], "JSON Mode:")
    ensures StartsWith(DetailEntries(e, model)[3], "Vision:")
  {
    DetailLineLabelled(e, model, 1, "Functions:");
    DetailLineLabelled(e, model, 2, "JSON Mode:");
    DetailLineLabelled(e, model, 3, "Vision:");
  }

  /** Details line `k` of a run where chat works starts with every prefix
      of its probe's label. */
  lemma DetailLineLabelled(e: Endpoint, model: string, k: nat, needle: string)
    requires ChatSucceeds(e, model) && k < 5
    requires StartsWith(Label(Attempted(true)[k]), needle)
    ensures StartsWith(DetailEntries(e, model)[k], needle)
  {
    var f := Attempted(true)[k];
    EntriesForIndex(e, Attempted(true), model, k);
    LabelledLineStarts(Label(f), needle, VerdictOf(e, f, model).message);
  }

  /** For a probed model whose chat works and whose replies hold no line
      break, the function-calling, JSON-mode and vision rows each show that
      probe's own line, unless an earlier line happens to mention the row's
      label too. */
  lemma DependentRowsShowTheirLines(e: Endpoint, model: string)
    requires SingleLineResponses(e, model) && ChatSucceeds(e, model)
    ensures !Contains(Entry(e, Chat, model), "Functions:") ==>
      ResultRows(Probed(e, model))[1].detail == Entry(e, Functions, model)
    ensures !Contains(Entry(e, Chat, model), "JSON Mode:") && !Contains(Entry(e, Functions, model), "JSON Mode:") ==>
      ResultRows(Probed(e, model))[2].detail == Entry(e, JsonMode, model)
    ensures (!Contains(Entry(e, Chat, model), "Vision:") && !Contains(Entry(e, Functions, model), "Vision:")
      && !Contains(Entry(e, JsonMode, model), "Vision:")) ==>
      ResultRows(Probed(e, model))[3].detail == Entry(e, Vision, model)
  {
    ProbedLinesLabelled(e, model);
    DetailsSplitIntoEntries(e, model);
    ChatSuccessDetailsInOrder(e, model);
    DependentRowsShowLines(Probed(e, model), DetailEntries(e, model));
  }

  // ---------------------------------------------------------------------
  // `handle_model_probe`

  /** What the menu does next: probe some ids, or print a message. */
  datatype Action = ProbeModels(ids: seq<string>) | Report(message: string)

  /** `handle_model_probe`: probe the id alone when it is listed exactly as
      typed; otherwise report it as not found. */
  function HandleModelProbe(models: seq<string>, modelId: string): (a: Action)
    ensures a.ProbeModels? <==> modelId in models
    ensures a.ProbeModels? ==> a.ids == [modelId]
    ensures a.Report? ==> a.message == "Model " + modelId + " not found"
  {
    if modelId in models then ProbeModels([modelId])
    else Report("Model " + modelId + " not found")
  }

  /** The message `handle_pattern_probe` prints when nothing matches. */
  const NoMatchMessage := "No models found matching that pattern"

  /** `handle_pattern_probe`, with the user's answer to the confirmation
      prompt as a parameter: the matching ids are probed when there are
      some and the user agrees; `None` when the user declines. */
  function HandlePatternProbe(models: seq<string>, pattern: string, confirmed: bool): (a: Option<Action>)
    ensures a == Some(Report(NoMatchMessage)) <==> FilterModels(models, pattern) == []
    ensures a.Some? && a.value.ProbeModels? ==>
      confirmed && a.value.ids == FilterModels(models, pattern) && a.value.ids != []
    ensures a.None? <==> FilterModels(models, pattern) != [] && !confirmed
    ensures FilterModels(models, pattern) != [] && confirmed ==>
      a == Some(ProbeModels(FilterModels(models, pattern)))
  {
    var matching := FilterModels(models, pattern);
    if matching != [] then
      if confirmed then Some(ProbeModels(matching)) else None
    else Some(Report(NoMatchMessage))
  }
}
