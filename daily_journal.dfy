/**
 * The daily journal (`DailyJournalManager` in `backend/core/daily_journal.py`): per-user,
 * per-day interaction logs, the evening prompt for a sparse day, and the statistics the
 * journal entry is written from. Each log file is an entry of the map `files`, keyed by its
 * path; the clock is the parameters `today` (a `YYYY-MM-DD` string), `hour` and `now`.
 */
module DailyJournal {
  import opened Wrappers
  import opened Text
  import opened Json

  // ---------------------------------------------------------------------------------------
  // Log files
  // ---------------------------------------------------------------------------------------

  const LogsDir: string := "./daily_logs"

  /** The characters `_get_log_file` keeps of a user id. */
  predicate IdChar(c: char) {
    IsAlnum(c) || c == ' ' || c == '_' || c == '-'
  }

  predicate AllIdChars(s: string) {
    forall i | 0 <= i < |s| :: IdChar(s[i])
  }

  /** The user id with every other character dropped, in order. */
  function KeepIdChars(s: string): (r: string)
    ensures |r| <= |s|
  {
    if s == [] then []
    else if IdChar(s[0]) then [s[0]] + KeepIdChars(s[1..])
    else KeepIdChars(s[1..])
  }

  /** Only id characters are kept, and a string of them is kept whole. */
  lemma {:induction false} KeepIdCharsShape(s: string)
    ensures AllIdChars(KeepIdChars(s))
    ensures AllIdChars(s) ==> KeepIdChars(s) == s
  {
    if s != [] {
      KeepIdCharsShape(s[1..]);
      var rest := KeepIdChars(s[1..]);
      if IdChar(s[0]) {
        assert forall i | 1 <= i < |rest| + 1 :: ([s[0]] + rest)[i] == rest[i - 1];
      }
      if AllIdChars(s) {
        assert AllIdChars(s[1..]) by {
          forall i | 0 <= i < |s| - 1 ensures IdChar(s[1..][i]) {
            assert s[1..][i] == s[i + 1];
          }
        }
        assert s == [s[0]] + s[1..];
      }
    }
  }

  /** The file-name-safe id: the kept characters, trimmed. */
  function SafeId(userId: string): string {
    Trim(KeepIdChars(userId))
  }

  /**
   * The safe id holds only letters, digits, spaces, '_' and '-', with no whitespace at either
   * end: no path separator and no dot, so a log file never leaves the logs directory.
   */
  lemma SafeIdShape(userId: string)
    ensures var r := SafeId(userId);
      AllIdChars(r) && (r == [] || (!IsSpace(r[0]) && !IsSpace(r[|r| - 1])))
  {
    KeepIdCharsShape(userId);
    TrimIdChars(KeepIdChars(userId));
  }

  /** Trimming keeps a run of the characters in between, so it keeps only id characters. */
  lemma {:induction false} TrimIdChars(s: string)
    requires AllIdChars(s)
    ensures AllIdChars(Trim(s))
    decreases |s|
  {
    if s != [] && IsSpace(s[0]) {
      assert forall i | 0 <= i < |s| - 1 :: s[1..][i] == s[i + 1];
      TrimIdChars(s[1..]);
    } else {
      var r := TrimEnd(s);
      assert forall i | 0 <= i < |r| :: r[i] == s[i];
    }
  }

  /** Sanitising twice is sanitising once. */
  lemma SafeIdIdempotent(userId: string)
    ensures SafeId(SafeId(userId)) == SafeId(userId)
  {
    var s := SafeId(userId);
    SafeIdShape(userId);
    KeepIdCharsShape(s);
    assert KeepIdChars(s) == s;
    assert s == [] || (!IsSpace(s[0]) && !IsSpace(s[|s| - 1]));
  }

  /** The path of a user's log for a date. */
  function LogPath(userId: string, date: string): string {
    LogsDir + "/" + SafeId(userId) + "_" + date + ".json"
  }

  /** Two users whose ids differ only in dropped characters share a log file. */
  lemma SharedLogFile(date: string)
    ensures LogPath("a.b", date) == LogPath("ab", date)
  {
    assert KeepIdChars("a.b") == "ab" by {
      assert "a.b"[1..] == ".b" && ".b"[1..] == "b";
      assert KeepIdChars("b") == "b";
    }
    assert KeepIdChars("ab") == "ab";
  }

  /** What a log entry carries: text, or the tools and results of one reply. */
  datatype Content = Text(text: string) | ToolUse(tools: seq<string>, results: seq<Json>)

  datatype Entry = Entry(timestamp: string, kind: string, content: Content)

  /** A log file on disk: a list of entries, or text that is not JSON. */
  datatype Stored = Entries(entries: seq<Entry>) | Unreadable

  const Corrupt: string := "log file is not valid JSON"

  /** The entries `log_interaction` starts from: a missing or unreadable log counts as empty. */
  function Existing(files: map<string, Stored>, path: string): (r: seq<Entry>)
    ensures path in files && files[path].Entries? ==> r == files[path].entries
    ensures path !in files || files[path].Unreadable? ==> r == []
  {
    if path in files && files[path].Entries? then files[path].entries else []
  }

  // ---------------------------------------------------------------------------------------
  // The evening prompt
  // ---------------------------------------------------------------------------------------

  const EveningHour: int := 19
  const SparseLimit: nat := 5

  function PromptKey(userId: string, date: string): string {
    userId + "_" + date
  }

  /** Whether a day's log is sparse: missing, or fewer than five entries. */
  predicate Sparse(files: map<string, Stored>, path: string) {
    path !in files || (files[path].Entries? && |files[path].entries| < SparseLimit)
  }

  /**
   * `check_prompt_needed`: its answer and the new set of prompted keys. From 7 PM on, a user
   * not yet prompted today is prompted when the log is sparse, and the key is then recorded;
   * a log that is not valid JSON raises.
   */
  function PromptCheck(prompted: set<string>, files: map<string, Stored>, userId: string, hour: int, today: string)
    : (r: (Result<bool, string>, set<string>))
    ensures r.0 == Ok(true) <==>
      hour >= EveningHour && PromptKey(userId, today) !in prompted && Sparse(files, LogPath(userId, today))
    ensures r.0.Err? <==>
      hour >= EveningHour && PromptKey(userId, today) !in prompted &&
      LogPath(userId, today) in files && files[LogPath(userId, today)].Unreadable?
    ensures r.1 == if r.0 == Ok(true) then prompted + {PromptKey(userId, today)} else prompted
  {
    var key := PromptKey(userId, today);
    var path := LogPath(userId, today);
    if hour < EveningHour || key in prompted then (Ok(false), prompted)
    else if path !in files then (Ok(true), prompted + {key})
    else match files[path]
      case Unreadable => (Err(Corrupt), prompted)
      case Entries(es) => if |es| < SparseLimit then (Ok(true), prompted + {key}) else (Ok(false), prompted)
  }

  /**
   * Once a user is prompted on a date, by the check itself or by `mark_prompted`, every later
   * check that day answers no and records nothing, whatever the hour and the log.
   */
  lemma PromptedOncePerDay(prompted: set<string>, files: map<string, Stored>, userId: string, hour: int, today: string,
                           later: set<string>, files': map<string, Stored>, hour': int)
    requires PromptCheck(prompted, files, userId, hour, today).0 == Ok(true) || PromptKey(userId, today) in prompted
    requires PromptCheck(prompted, files, userId, hour, today).1 <= later
    ensures PromptCheck(later, files', userId, hour', today) == (Ok(false), later)
  {
    assert PromptKey(userId, today) in PromptCheck(prompted, files, userId, hour, today).1;
  }

  /** One user's prompt leaves every other key's answer as it was. */
  lemma PromptKeysIndependent(prompted: set<string>, files: map<string, Stored>, userId: string, other: string,
                              hour: int, today: string)
    requires PromptKey(other, today) != PromptKey(userId, today)
    ensures var p := PromptCheck(prompted, files, userId, hour, today).1;
      (PromptKey(other, today) in p <==> PromptKey(other, today) in prompted)
  {
  }

  /**
   * The chat endpoint calls `mark_prompted` right after a check that prompted: the key it adds
   * is the one the check already recorded, so the set stays as the check left it.
   */
  lemma MarkAfterPromptKeepsSet(prompted: set<string>, files: map<string, Stored>, userId: string, hour: int, today: string)
    requires PromptCheck(prompted, files, userId, hour, today).0 == Ok(true)
    ensures var p := PromptCheck(prompted, files, userId, hour, today).1;
      p + {PromptKey(userId, today)} == p
  {
  }

  /** The journal manager: the keys prompted so far, and the log files it reads and writes. */
  class DailyJournalManager {
    var prompted: set<string>
    var files: map<string, Stored>

    constructor(files: map<string, Stored>)
      ensures prompted == {} && this.files == files
    {
      prompted := {};
      this.files := files;
    }

    /** `log_interaction`: exactly one entry is appended to today's log, which is then saved. */
    method LogInteraction(userId: string, kind: string, content: Content, now: string, today: string)
      modifies this
      ensures var path := LogPath(userId, today);
        files == old(files)[path := Entries(Existing(old(files), path) + [Entry(now, kind, content)])]
      ensures prompted == old(prompted)
    {
      var path := LogPath(userId, today);
      var logs := [];
      if path in files {
        match files[path]
        case Entries(es) => logs := es;
        case Unreadable =>
      }
      logs := logs + [Entry(now, kind, content)];
      files := files[path := Entries(logs)];
    }

    /** `check_prompt_needed` */
    method CheckPromptNeeded(userId: string, hour: int, today: string) returns (r: Result<bool, string>)
      modifies this
      ensures (r, prompted) == PromptCheck(old(prompted), files, userId, hour, today)
      ensures files == old(files)
    {
      ghost var expected := PromptCheck(prompted, files, userId, hour, today);
      if hour < EveningHour {
        return Ok(false);
      }
      var key := PromptKey(userId, today);
      if key in prompted {
        return Ok(false);
      }
      var path := LogPath(userId, today);
      if path !in files {
        prompted := prompted + {key};
        return Ok(true);
      }
      match files[path]
      case Unreadable =>
        return Err(Corrupt);
      case Entries(logs) =>
        if |logs| < SparseLimit {
          prompted := prompted + {key};
          return Ok(true);
        }
        return Ok(false);
    }

    /** `mark_prompted` */
    method MarkPrompted(userId: string, today: string)
      modifies this
      ensures prompted == old(prompted) + {PromptKey(userId, today)}
      ensures files == old(files)
    {
      prompted := prompted + {PromptKey(userId, today)};
    }
  }

  // ---------------------------------------------------------------------------------------
  // Journal statistics
  // ---------------------------------------------------------------------------------------

  /** A `chat` entry whose text starts with "User:". */
  predicate FromUser(e: Entry) {
    e.kind == "chat" && e.content.Text? && StartsWith(e.content.text, "User:")
  }

  predicate IsToolUse(e: Entry) {
    e.kind == "tool_use"
  }

  /** Every `tool_use` entry carries tools and results, as the chat endpoint writes them. */
  predicate Shaped(logs: seq<Entry>) {
    forall i | 0 <= i < |logs| :: IsToolUse(logs[i]) ==> logs[i].content.ToolUse?
  }

  function UserMessages(logs: seq<Entry>): nat {
    if logs == [] then 0
    else UserMessages(logs[..|logs| - 1]) + (if FromUser(logs[|logs| - 1]) then 1 else 0)
  }

  function ToolCalls(logs: seq<Entry>): nat {
    if logs == [] then 0
    else ToolCalls(logs[..|logs| - 1]) + (if IsToolUse(logs[|logs| - 1]) then 1 else 0)
  }

  function Occurrences(tools: seq<string>, t: string): nat {
    if tools == [] then 0
    else Occurrences(tools[..|tools| - 1], t) + (if tools[|tools| - 1] == t then 1 else 0)
  }

  /** How often a tool appears across the tool lists of the `tool_use` entries. */
  function ToolCount(logs: seq<Entry>, t: string): nat
    requires Shaped(logs)
  {
    if logs == [] then 0
    else
      var e := logs[|logs| - 1];
      ToolCount(logs[..|logs| - 1], t) + (if IsToolUse(e) then Occurrences(e.content.tools, t) else 0)
  }

  /** A result dict reporting an error: status "error", or an "error" key. */
  predicate IsError(res: Json) {
    res.JObj? && (Get(res, "status") == Some(JStr("error")) || "error" in res.fields)
  }

  function ErrorsIn(results: seq<Json>): nat {
    if results == [] then 0
    else ErrorsIn(results[..|results| - 1]) + (if IsError(results[|results| - 1]) then 1 else 0)
  }

  function ToolErrors(logs: seq<Entry>): nat
    requires Shaped(logs)
  {
    if logs == [] then 0
    else
      var e := logs[|logs| - 1];
      ToolErrors(logs[..|logs| - 1]) + (if IsToolUse(e) then ErrorsIn(e.content.results) else 0)
  }

  /** A result nested under "result" is looked at in place of its wrapper. */
  function Unwrap(res: Json): Json {
    if res.JObj? && "result" in res.fields then res.fields["result"] else res
  }

  predicate Started(res: Json) {
    res.JObj? && Get(res, "status") == Some(JStr("started")) && "recipe" in res.fields
  }

  /** The recipe of the last started result, if any. */
  function StartedRecipe(results: seq<Json>): (r: Option<Json>)
    ensures r.Some? <==> exists k | 0 <= k < |results| :: Started(Unwrap(results[k]))
  {
    if results == [] then None
    else
      var res := Unwrap(results[|results| - 1]);
      if Started(res) then Some(res.fields["recipe"]) else StartedRecipe(results[..|results| - 1])
  }

  predicate CookedIn(e: Entry) {
    IsToolUse(e) && e.content.ToolUse? && "start_cooking" in e.content.tools &&
    StartedRecipe(e.content.results).Some?
  }

  /** The recipe of the last `tool_use` entry that started cooking; JSON null when none did. */
  function Recipe(logs: seq<Entry>): Json {
    if logs == [] then JNull
    else
      var e := logs[|logs| - 1];
      if CookedIn(e) then StartedRecipe(e.content.results).value else Recipe(logs[..|logs| - 1])
  }

  datatype Stats = Stats(userMessages: nat, totalToolCalls: nat, toolCounts: map<string, nat>, toolErrors: nat)

  function Lookup(counts: map<string, nat>, t: string): nat {
    if t in counts then counts[t] else 0
  }

  /**
   * The statistics loop of `generate_journal_entry`: user messages, tool calls, how often each
   * tool was used (a tool is a key exactly when it was used), error results, and the recipe
   * cooked last.
   */
  method JournalStats(logs: seq<Entry>) returns (stats: Stats, recipe: Json)
    requires Shaped(logs)
    ensures stats.userMessages == UserMessages(logs) && stats.totalToolCalls == ToolCalls(logs)
    ensures stats.toolErrors == ToolErrors(logs)
    ensures forall t :: Lookup(stats.toolCounts, t) == ToolCount(logs, t)
    ensures forall t :: t in stats.toolCounts <==> ToolCount(logs, t) > 0
    ensures recipe == Recipe(logs)
  {
    var userMessages, totalToolCalls, toolErrors := 0, 0, 0;
    var counts: map<string, nat> := map[];
    recipe := JNull;
    for i := 0 to |logs|
      invariant userMessages == UserMessages(logs[..i]) && totalToolCalls == ToolCalls(logs[..i])
      invariant toolErrors == ToolErrors(logs[..i])
      invariant forall t :: Lookup(counts, t) == ToolCount(logs[..i], t)
      invariant forall t | t in counts :: counts[t] > 0
      invariant recipe == Recipe(logs[..i])
    {
      assert logs[..i + 1][..i] == logs[..i];
      var log := logs[i];
      if log.kind == "chat" && log.content.Text? && StartsWith(log.content.text, "User:") {
        userMessages := userMessages + 1;
      } else if log.kind == "tool_use" {
        totalToolCalls := totalToolCalls + 1;
        var tools := log.content.tools;
        var results := log.content.results;
        counts, recipe := CountTools(logs[..i], counts, recipe, tools, results);
        var errors := CountErrors(results);
        toolErrors := toolErrors + errors;
      }
    }
    assert logs[..|logs|] == logs;
    stats := Stats(userMessages, totalToolCalls, counts, toolErrors);
  }

  /** The loop over one entry's tools: counts each, and looks for a recipe under start_cooking. */
  method CountTools(before: seq<Entry>, counts0: map<string, nat>, recipe0: Json, tools: seq<string>, results: seq<Json>)
    returns (counts: map<string, nat>, recipe: Json)
    requires Shaped(before)
    requires forall t :: Lookup(counts0, t) == ToolCount(before, t)
    requires forall t | t in counts0 :: counts0[t] > 0
    ensures forall t :: Lookup(counts, t) == ToolCount(before, t) + Occurrences(tools, t)
    ensures forall t | t in counts :: counts[t] > 0
    ensures recipe == if "start_cooking" in tools && StartedRecipe(results).Some? then StartedRecipe(results).value else recipe0
  {
    counts, recipe := counts0, recipe0;
    for j := 0 to |tools|
      invariant forall t :: Lookup(counts, t) == ToolCount(before, t) + Occurrences(tools[..j], t)
      invariant forall t | t in counts :: counts[t] > 0
      invariant recipe == if "start_cooking" in tools[..j] && StartedRecipe(results).Some? then StartedRecipe(results).value else recipe0
    {
      assert tools[..j + 1][..j] == tools[..j];
      assert tools[..j + 1] == tools[..j] + [tools[j]];
      var tool := tools[j];
      ghost var before := counts;
      counts := counts[tool := Lookup(counts, tool) + 1];
      assert forall t :: Lookup(counts, t) == Lookup(before, t) + (if t == tool then 1 else 0);
      if tool == "start_cooking" {
        recipe := FindRecipe(recipe, results);
      }
    }
    assert tools[..|tools|] == tools;
  }

  /** The inner scan of the results for a started recipe. */
  method FindRecipe(recipe0: Json, results: seq<Json>) returns (recipe: Json)
    ensures recipe == if StartedRecipe(results).Some? then StartedRecipe(results).value else recipe0
  {
    recipe := recipe0;
    for k := 0 to |results|
      invariant recipe == if StartedRecipe(results[..k]).Some? then StartedRecipe(results[..k]).value else recipe0
    {
      assert results[..k + 1][..k] == results[..k];
      var res := results[k];
      if res.JObj? && "result" in res.fields {
        res := res.fields["result"];
      }
      if res.JObj? && Get(res, "status") == Some(JStr("started")) && "recipe" in res.fields {
        recipe := res.fields["recipe"];
      }
    }
    assert results[..|results|] == results;
  }

  /** The loop counting one entry's error results. */
  method CountErrors(results: seq<Json>) returns (errors: nat)
    ensures errors == ErrorsIn(results)
  {
    errors := 0;
    for k := 0 to |results|
      invariant errors == ErrorsIn(results[..k])
    {
      assert results[..k + 1][..k] == results[..k];
      var res := results[k];
      if res.JObj? && (Get(res, "status") == Some(JStr("error")) || "error" in res.fields) {
        errors := errors + 1;
      }
    }
    assert results[..|results|] == results;
  }

  // ---------------------------------------------------------------------------------------
  // What the statistics mean
  // ---------------------------------------------------------------------------------------

  /** An entry is counted as a user message or as a tool call, never both. */
  lemma {:induction false} CountsBounded(logs: seq<Entry>)
    ensures UserMessages(logs) + ToolCalls(logs) <= |logs|
  {
    if logs != [] {
      CountsBounded(logs[..|logs| - 1]);
    }
  }

  /** A tool has a count exactly when some `tool_use` entry lists it. */
  lemma {:induction false} ToolCountPositive(logs: seq<Entry>, t: string)
    requires Shaped(logs)
    ensures ToolCount(logs, t) > 0 <==>
      exists i | 0 <= i < |logs| :: IsToolUse(logs[i]) && t in logs[i].content.tools
  {
    if logs != [] {
      var init := logs[..|logs| - 1];
      assert Shaped(init);
      ToolCountPositive(init, t);
      var e := logs[|logs| - 1];
      if IsToolUse(e) {
        OccurrencesPositive(e.content.tools, t);
      }
      if exists i | 0 <= i < |init| :: IsToolUse(init[i]) && t in init[i].content.tools {
        var i :| 0 <= i < |init| && IsToolUse(init[i]) && t in init[i].content.tools;
        assert logs[i] == init[i];
      }
      if exists i | 0 <= i < |logs| :: IsToolUse(logs[i]) && t in logs[i].content.tools {
        var i :| 0 <= i < |logs| && IsToolUse(logs[i]) && t in logs[i].content.tools;
        if i < |init| {
          assert init[i] == logs[i];
        }
      }
    }
  }

  lemma {:induction false} OccurrencesPositive(tools: seq<string>, t: string)
    ensures Occurrences(tools, t) > 0 <==> t in tools
  {
    if tools != [] {
      var init := tools[..|tools| - 1];
      OccurrencesPositive(init, t);
      assert tools == init + [tools[|tools| - 1]];
    }
  }

  /**
   * The results the chat endpoint logs are `{"tool": name, "result": value}` wrappers, and the
   * error count looks only at the wrapper, so it counts none of them.
   */
  lemma {:induction false} WrappedResultsNotErrors(results: seq<Json>)
    requires forall k | 0 <= k < |results| :: results[k].JObj? && results[k].fields.Keys == {"tool", "result"}
    ensures ErrorsIn(results) == 0
  {
    if results != [] {
      var last := results[|results| - 1];
      assert "error" !in last.fields.Keys && "status" !in last.fields.Keys;
      var init := results[..|results| - 1];
      assert forall k | 0 <= k < |init| :: init[k] == results[k];
      WrappedResultsNotErrors(init);
    }
  }

  /** The recipe is null unless some `tool_use` entry listed start_cooking with a started result. */
  lemma {:induction false} RecipeNeedsCooking(logs: seq<Entry>)
    ensures Recipe(logs) != JNull ==> exists i | 0 <= i < |logs| :: CookedIn(logs[i])
  {
    if logs != [] {
      var init := logs[..|logs| - 1];
      RecipeNeedsCooking(init);
      if !CookedIn(logs[|logs| - 1]) && Recipe(init) != JNull {
        var i :| 0 <= i < |init| && CookedIn(init[i]);
        assert logs[i] == init[i];
      }
    }
  }
}
