/**
 * The chat page of the client (`frontend/src/app/page.tsx`): sending a message, reading the
 * newline-delimited JSON reply stream line by line, folding its events into the transcript,
 * and the single-flight audio playback queue.
 *
 * The pure part is the message updaters and the transition of the page state per stream
 * line (`LineStep`, `Send`); the class `ChatPage` holds the same state in fields and its
 * methods update them step by step, each proved to follow the pure transition.
 * `JSON.parse` is the parameter `parse`; the reply's body arrives as the decoded text chunks
 * returned by successive reads.
 */
module ChatPage {
  import opened Wrappers
  import opened Text
  import opened Json

  // ---------------------------------------------------------------------------------------
  // Transcript
  // ---------------------------------------------------------------------------------------

  datatype Role = User | Assistant

  datatype Message = Message(role: Role, content: string, timestamp: int)

  /** The transcript a page starts with whenever the signed-in user changes. */
  const Greeting: seq<Message> := [Message(Assistant, "I am MIMIR. The well of wisdom is open. Speak.", 0)]

  const FallbackReply: string := "The threads of fate are tangled. I cannot respond."

  const ThinkingStatus: string := "Thinking..."

  predicate LastIsAssistant(msgs: seq<Message>) {
    |msgs| > 0 && msgs[|msgs| - 1].role == Assistant
  }

  /** The `response_chunk` updater: extend the assistant's last message, or start one. */
  function AppendChunk(msgs: seq<Message>, text: string, now: int): (r: seq<Message>)
    ensures LastIsAssistant(r)
    ensures LastIsAssistant(msgs) ==>
      |r| == |msgs| && r[..|msgs| - 1] == msgs[..|msgs| - 1] &&
      r[|r| - 1].content == msgs[|msgs| - 1].content + text &&
      r[|r| - 1].timestamp == msgs[|msgs| - 1].timestamp
    ensures !LastIsAssistant(msgs) ==> r == msgs + [Message(Assistant, text, now)]
  {
    if LastIsAssistant(msgs) then
      var last := msgs[|msgs| - 1];
      msgs[..|msgs| - 1] + [last.(content := last.content + text)]
    else msgs + [Message(Assistant, text, now)]
  }

  /** The `response` updater: overwrite the assistant's last message, or add one. */
  function ApplyFinal(msgs: seq<Message>, text: string, now: int): (r: seq<Message>)
    ensures LastIsAssistant(r) && r[|r| - 1].content == text
    ensures LastIsAssistant(msgs) ==>
      |r| == |msgs| && r[..|msgs| - 1] == msgs[..|msgs| - 1] &&
      r[|r| - 1].timestamp == msgs[|msgs| - 1].timestamp
    ensures !LastIsAssistant(msgs) ==> r == msgs + [Message(Assistant, text, now)]
  {
    if LastIsAssistant(msgs) then
      var last := msgs[|msgs| - 1];
      msgs[..|msgs| - 1] + [last.(content := text)]
    else msgs + [Message(Assistant, text, now)]
  }

  /** A run of `response_chunk` updates, in arrival order. */
  function AppendChunks(msgs: seq<Message>, chunks: seq<string>, now: int): seq<Message> {
    if chunks == [] then msgs
    else AppendChunk(AppendChunks(msgs, chunks[..|chunks| - 1], now), chunks[|chunks| - 1], now)
  }

  /** Chunks arriving while the assistant's message is last are concatenated onto it. */
  lemma {:induction false} ChunksConcatenate(msgs: seq<Message>, chunks: seq<string>, now: int)
    requires LastIsAssistant(msgs)
    ensures var r := AppendChunks(msgs, chunks, now);
      |r| == |msgs| && r[..|msgs| - 1] == msgs[..|msgs| - 1] &&
      r[|r| - 1] == msgs[|msgs| - 1].(content := msgs[|msgs| - 1].content + Concat(chunks))
  {
    if chunks != [] {
      ChunksConcatenate(msgs, chunks[..|chunks| - 1], now);
    }
  }

  /** After the user's message, the first chunk starts the reply and the rest extend it. */
  lemma {:induction false} ChunksStartReply(msgs: seq<Message>, chunks: seq<string>, now: int)
    requires !LastIsAssistant(msgs) && chunks != []
    ensures AppendChunks(msgs, chunks, now) == msgs + [Message(Assistant, Concat(chunks), now)]
  {
    if |chunks| == 1 {
      assert chunks[..0] == [];
      assert Concat(chunks) == chunks[0];
    } else {
      ChunksStartReply(msgs, chunks[..|chunks| - 1], now);
    }
  }

  /** The final text replaces whatever the chunks streamed before it. */
  lemma {:induction false} FinalOverridesChunks(msgs: seq<Message>, chunks: seq<string>, text: string, now: int)
    ensures ApplyFinal(AppendChunks(msgs, chunks, now), text, now) == ApplyFinal(msgs, text, now)
  {
    if chunks != [] {
      if LastIsAssistant(msgs) {
        ChunksConcatenate(msgs, chunks, now);
      } else {
        ChunksStartReply(msgs, chunks, now);
        var streamed := msgs + [Message(Assistant, Concat(chunks), now)];
        assert streamed[..|streamed| - 1] == msgs;
      }
    }
  }

  /** Chunks "Hel" and "lo" followed by the final "Hello there" leave exactly "Hello there". */
  lemma HelloThere(now: int)
    ensures var msgs := Greeting + [Message(User, "Hi", now)];
      ApplyFinal(AppendChunks(msgs, ["Hel", "lo"], now), "Hello there", now) ==
      msgs + [Message(Assistant, "Hello there", now)]
  {
    var msgs := Greeting + [Message(User, "Hi", now)];
    FinalOverridesChunks(msgs, ["Hel", "lo"], "Hello there", now);
  }

  // ---------------------------------------------------------------------------------------
  // Audio playback queue
  // ---------------------------------------------------------------------------------------

  /**
   * The playback state: the queue of base64 clips, whether a clip is playing, the
   * speaking flag shown to the user, and the clip most recently started.
   */
  datatype Player = Player(queue: seq<string>, playing: bool, speaking: bool, current: Option<string>)

  const Silent: Player := Player([], false, false, None)

  /** `playNextAudio`: start the head clip unless one is playing or none is waiting. */
  function PlayNext(p: Player): (r: Player)
    ensures p.playing || p.queue == [] ==> r == p
    ensures !p.playing && p.queue != [] ==> r.queue == p.queue[1..]
    ensures !p.playing && p.queue != [] && p.queue[0] != "" ==>
      r.playing && r.speaking && r.current == Some(p.queue[0])
  {
    if p.playing || p.queue == [] then p
    else if p.queue[0] == "" then p.(queue := p.queue[1..])
    else Player(p.queue[1..], true, true, Some(p.queue[0]))
  }

  /** What can happen to the player: a clip arrives, the clip ends, the pause after it ends, or playback fails. */
  datatype PlayerEvent = Push(clip: string) | Ended | PauseElapsed | Failed

  function PlayerStep(p: Player, e: PlayerEvent): Player {
    match e
    case Push(clip) =>
      if clip == "" then p
      else
        var q := p.(queue := p.queue + [clip]);
        if !q.playing then PlayNext(q) else q
    case Ended => p.(playing := false)
    case PauseElapsed => PlayNext(if p.queue == [] then p.(speaking := false) else p)
    case Failed => PlayNext(p.(playing := false))
  }

  function RunPlayer(p: Player, evs: seq<PlayerEvent>): Player {
    if evs == [] then p else PlayerStep(RunPlayer(p, evs[..|evs| - 1]), evs[|evs| - 1])
  }

  /** The clips handed to the player, in push order (falsy clips are never queued). */
  function Pushed(evs: seq<PlayerEvent>): seq<string> {
    if evs == [] then []
    else
      var e := evs[|evs| - 1];
      Pushed(evs[..|evs| - 1]) + (if e.Push? && e.clip != "" then [e.clip] else [])
  }

  /**
   * The waiting clips are the most recently pushed ones, in push order, none of them falsy,
   * and the clip started last is the one pushed just before them.
   */
  predicate Fifo(p: Player, pushed: seq<string>) {
    |p.queue| <= |pushed| && p.queue == pushed[|pushed| - |p.queue|..] &&
    (forall i | 0 <= i < |p.queue| :: p.queue[i] != "") &&
    (p.current.Some? ==> |p.queue| < |pushed| && p.current.value == pushed[|pushed| - |p.queue| - 1])
  }

  lemma PlayNextKeepsFifo(p: Player, pushed: seq<string>)
    requires Fifo(p, pushed)
    ensures Fifo(PlayNext(p), pushed)
  {
    if !p.playing && p.queue != [] {
      assert p.queue[0] == pushed[|pushed| - |p.queue|];
      assert p.queue[1..] == pushed[|pushed| - |p.queue| + 1..];
    }
  }

  lemma PushKeepsFifo(p: Player, pushed: seq<string>, clip: string)
    requires Fifo(p, pushed) && clip != ""
    ensures Fifo(PlayerStep(p, Push(clip)), pushed + [clip])
  {
    var q := p.(queue := p.queue + [clip]);
    var pushed' := pushed + [clip];
    assert pushed'[|pushed'| - |q.queue|..] == pushed[|pushed| - |p.queue|..] + [clip];
    assert Fifo(q, pushed');
    PlayNextKeepsFifo(q, pushed');
  }

  lemma StepKeepsFifo(p: Player, pushed: seq<string>, e: PlayerEvent)
    requires Fifo(p, pushed)
    ensures Fifo(PlayerStep(p, e), pushed + (if e.Push? && e.clip != "" then [e.clip] else []))
  {
    match e
    case Push(clip) =>
      if clip != "" {
        PushKeepsFifo(p, pushed, clip);
      } else {
        assert pushed + [] == pushed;
      }
    case Ended =>
      assert pushed + [] == pushed;
    case PauseElapsed =>
      assert pushed + [] == pushed;
      PlayNextKeepsFifo(if p.queue == [] then p.(speaking := false) else p, pushed);
    case Failed =>
      assert pushed + [] == pushed;
      PlayNextKeepsFifo(p.(playing := false), pushed);
  }

  /**
   * First in, first out: whatever happens, the waiting clips are the most recently pushed
   * ones in push order, and the clip started last was pushed just before them. So clips
   * start in push order, one at a time.
   */
  lemma {:induction false} PlaysInPushOrder(evs: seq<PlayerEvent>)
    ensures Fifo(RunPlayer(Silent, evs), Pushed(evs))
  {
    if evs != [] {
      PlaysInPushOrder(evs[..|evs| - 1]);
      StepKeepsFifo(RunPlayer(Silent, evs[..|evs| - 1]), Pushed(evs[..|evs| - 1]), evs[|evs| - 1]);
    }
  }

  /**
   * As written, the speaking flag can be cleared while a clip plays: a clip pushed during the
   * 100 ms pause starts at once, so the queue is empty when the pause elapses.
   */
  lemma SpeakingClearedWhilePlaying()
    ensures var p := RunPlayer(Silent, [Push("a"), Ended, Push("b"), PauseElapsed]);
      p.playing && !p.speaking && p.current == Some("b")
  {
    var evs := [Push("a"), Ended, Push("b"), PauseElapsed];
    assert evs[..1][..0] == [] && evs[..2][..1] == evs[..1] && evs[..3][..2] == evs[..2] && evs[..4][..3] == evs[..3];
    assert RunPlayer(Silent, evs[..1]) == Player([], true, true, Some("a"));
    assert RunPlayer(Silent, evs[..2]) == Player([], false, true, Some("a"));
    assert RunPlayer(Silent, evs[..3]) == Player([], true, true, Some("b"));
    assert evs[..4] == evs;
  }

  /** A failure never clears the speaking flag, and moves straight on to the next clip. */
  lemma FailureAdvances(p: Player)
    requires p.playing
    ensures var r := PlayerStep(p, Failed);
      (p.speaking ==> r.speaking) &&
      (p.queue != [] ==> r.queue == p.queue[1..]) &&
      (p.queue != [] && p.queue[0] != "" ==> r.playing && r.current == Some(p.queue[0]))
  {
  }

  // ---------------------------------------------------------------------------------------
  // Stream events
  // ---------------------------------------------------------------------------------------

  /** `tools_used` and `tool_results` of a final response, when both are arrays. */
  datatype ToolReport = ToolReport(toolsUsed: seq<Json>, results: seq<Json>)

  /** A parsed stream line, as the client's branches on `data.type` read it. */
  datatype StreamEvent =
    | StatusUpdate(content: Option<string>)
    | ResponseChunk(text: string)
    | AudioChunk(audio: Option<string>)
    | FinalResponse(text: string, tools: Option<ToolReport>)
    | Unhandled

  function ReportOf(j: Json): Option<ToolReport> {
    match (Get(j, "tools_used"), Get(j, "tool_results"))
    case (Some(JArr(used)), Some(JArr(results))) => Some(ToolReport(used, results))
    case _ => None
  }

  function Decode(j: Json): StreamEvent {
    var t := GetStr(j, "type");
    if t == Some("status") then StatusUpdate(GetStr(j, "content"))
    else if t == Some("response_chunk") then
      (match GetStr(j, "text") case Some(s) => ResponseChunk(s) case None => Unhandled)
    else if t == Some("audio_chunk") then AudioChunk(GetStr(j, "audio_base64"))
    else if t == Some("response") then
      (match GetStr(j, "text") case Some(s) => FinalResponse(s, ReportOf(j)) case None => Unhandled)
    else Unhandled
  }

  /** The first tool result whose `tool` is `name` (`tool_results.find`). */
  function FindTool(results: seq<Json>, name: string): (r: Option<Json>)
    ensures r.Some? <==> exists k | 0 <= k < |results| :: Get(results[k], "tool") == Some(JStr(name))
    ensures r.Some? ==> r.value in results && Get(r.value, "tool") == Some(JStr(name))
  {
    if results == [] then None
    else if Get(results[0], "tool") == Some(JStr(name)) then Some(results[0])
    else
      var r := FindTool(results[1..], name);
      assert forall k | 1 <= k < |results| :: results[k] == results[1..][k - 1];
      r
  }

  /** The field `key` of the tool result's `result` (`r?.result?.key`). */
  function ResultField(found: Option<Json>, key: string): Option<Json> {
    match found
    case Some(r) => (match Get(r, "result") case Some(res) => Get(res, key) case None => None)
    case None => None
  }

  /**
   * The value held by `currentStep`. The page sets it to numbers, but `goto` stores whatever
   * `step_index` the tool result carries, so it may also hold null, a string or any other JSON
   * value; `NaN` is what `Math.min` and `Math.max` give for a value with no numeric reading.
   */
  datatype StepValue = Num(n: int) | NaN | Given(value: Json)

  /** The step `goto` stores for a present `step_index`: a number as a number, any other value as it is. */
  function StepOf(j: Json): (r: StepValue)
    ensures j.JInt? ==> r == Num(j.i)
    ensures !j.JInt? ==> r == Given(j)
  {
    if j.JInt? then Num(j.i) else Given(j)
  }

  /**
   * `Number(s)` on the strings the page can meet: surrounding whitespace is ignored, a blank
   * string is 0, and an optional sign followed by decimal digits is that integer.
   */
  function JsNumber(s: string): (r: Option<int>)
    ensures IsBlank(s) ==> r == Some(0)
    ensures r.Some? && !IsBlank(s) ==> AllDigits(Trim(s)) || (Trim(s)[0] in "+-" && AllDigits(Trim(s)[1..]))
  {
    var t := Trim(s);
    if t == [] then Some(0)
    else if t[0] == '-' || t[0] == '+' then
      if |t| > 1 && AllDigits(t[1..]) then
        Some(if t[0] == '-' then -(DigitsValue(t[1..]) as int) else DigitsValue(t[1..]) as int)
      else None
    else if AllDigits(t) then Some(DigitsValue(t))
    else None
  }

  /** Every integer written in decimal reads back as itself. */
  lemma JsNumberOfDecimal(i: int)
    ensures JsNumber(IntToString(i)) == Some(i)
  {
    var s := IntToString(i);
    assert s != [] && !IsSpace(s[0]) && !IsSpace(s[|s| - 1]) by {
      if i < 0 {
        assert s[1..] == NatToString(-i);
        assert IsDigit(s[|s| - 1]) by {
          assert s[|s| - 1] == s[1..][|s| - 2];
        }
      } else {
        assert IsDigit(s[0]) && IsDigit(s[|s| - 1]);
      }
    }
    if i < 0 {
      assert s[1..] == NatToString(-i);
    } else {
      assert s[0] != '-' && s[0] != '+' by {
        assert IsDigit(s[0]);
      }
    }
  }

  /** `ToNumber(prev)`: `None` is NaN. Arrays and objects are read as NaN. */
  function StepNumber(v: StepValue): (r: Option<int>)
    ensures v.Num? ==> r == Some(v.n)
    ensures v.NaN? ==> r.None?
    ensures v == Given(JNull) ==> r == Some(0)
  {
    match v
    case Num(n) => Some(n)
    case NaN => None
    case Given(j) =>
      match j
      case JNull => Some(0)
      case JBool(b) => Some(if b then 1 else 0)
      case JInt(i) => Some(i)
      case JStr(t) => JsNumber(t)
      case _ => None
  }

  /** `Math.min(navLimit, prev + 1)`: `+` on a string step concatenates before the number is read. */
  function NextStep(v: StepValue, navLimit: int): (r: StepValue)
    ensures r.Num? || r.NaN?
    ensures r.Num? ==> r.n <= navLimit
    ensures v.Num? ==> r == Num(if v.n < navLimit then v.n + 1 else navLimit)
    ensures v.NaN? ==> r.NaN?
  {
    var sum := match v
      case Given(JStr(t)) => JsNumber(t + "1")
      case _ => (match StepNumber(v) case Some(n) => Some(n + 1) case None => None);
    match sum
    case Some(n) => Num(if n < navLimit then n else navLimit)
    case None => NaN
  }

  /** `Math.max(0, prev - 1)`: `-` always reads the step as a number. */
  function PrevStep(v: StepValue): (r: StepValue)
    ensures r.Num? || r.NaN?
    ensures r.Num? ==> r.n >= 0
    ensures v.Num? ==> r == Num(if v.n > 1 then v.n - 1 else 0)
    ensures r.NaN? <==> StepNumber(v).None?
  {
    match StepNumber(v)
    case Some(n) => Num(if n - 1 > 0 then n - 1 else 0)
    case None => NaN
  }

  /** The page state that a send and its reply stream change. */
  datatype Page = Page(
    messages: seq<Message>,
    status: Option<string>,
    loading: bool,
    player: Player,
    recipe: Option<Json>,
    cookingMode: bool,
    step: StepValue,
    eventFetches: nat)

  /** The last step index `next` may reach: `(recipe?.steps.length || 1) - 1`. */
  function NavLimit(recipe: Option<Json>): (r: int)
    ensures r >= 0
  {
    match recipe
    case Some(rec) =>
      (match Get(rec, "steps") case Some(JArr(steps)) => (if |steps| == 0 then 0 else |steps| - 1) case _ => 0)
    case None => 0
  }

  const CalendarTools: seq<Json> := [JStr("calendar_create"), JStr("calendar_update"), JStr("calendar_delete")]

  predicate UsesCalendar(used: seq<Json>) {
    exists k | 0 <= k < |used| :: used[k] in CalendarTools
  }

  /** `start_cooking`: a truthy recipe in its result opens cooking mode at step 0. */
  function StartCooking(pg: Page, report: ToolReport): (r: Page)
    ensures r.messages == pg.messages && r.status == pg.status && r.loading == pg.loading && r.player == pg.player
    ensures r.eventFetches == pg.eventFetches
    ensures JStr("start_cooking") !in report.toolsUsed ==> r == pg
    ensures var recipe := ResultField(FindTool(report.results, "start_cooking"), "recipe");
      JStr("start_cooking") in report.toolsUsed && recipe.Some? && JsTruthy(recipe.value) ==>
        r == pg.(recipe := recipe, cookingMode := true, step := Num(0))
    ensures r == pg || (r.cookingMode && r.step == Num(0) && r.recipe.Some? && JsTruthy(r.recipe.value) &&
      r.recipe == ResultField(FindTool(report.results, "start_cooking"), "recipe"))
  {
    if JStr("start_cooking") in report.toolsUsed then
      match ResultField(FindTool(report.results, "start_cooking"), "recipe")
      case Some(recipe) =>
        if JsTruthy(recipe) then pg.(recipe := Some(recipe), cookingMode := true, step := Num(0)) else pg
      case None => pg
    else pg
  }

  /** `navResult?.result`: the result of the first `cooking_navigation` entry, when the tool was used and it is truthy. */
  function NavResult(report: ToolReport): (r: Option<Json>)
    ensures r.Some? ==> JStr("cooking_navigation") in report.toolsUsed && JsTruthy(r.value)
    ensures r.Some? ==> exists k | 0 <= k < |report.results| ::
      Get(report.results[k], "tool") == Some(JStr("cooking_navigation")) && Get(report.results[k], "result") == r
  {
    if JStr("cooking_navigation") in report.toolsUsed then
      var found := FindTool(report.results, "cooking_navigation");
      var result := if found.Some? then Get(found.value, "result") else None;
      if result.Some? && JsTruthy(result.value) then
        var k :| 0 <= k < |report.results| && report.results[k] == found.value;
        result
      else None
    else None
  }

  /**
   * `cooking_navigation`: next moves one step on, up to `navLimit`; prev one step back, down
   * to 0; goto stores any `step_index` the result carries, even null or a string.
   */
  function Navigate(pg: Page, report: ToolReport, navLimit: int): (r: Page)
    ensures r == pg.(step := r.step)
    ensures NavResult(report).None? ==> r == pg
    ensures NavResult(report).Some? && GetStr(NavResult(report).value, "action") == Some("next") ==>
      r.step == NextStep(pg.step, navLimit)
    ensures NavResult(report).Some? && GetStr(NavResult(report).value, "action") == Some("prev") ==>
      r.step == PrevStep(pg.step)
    ensures NavResult(report).Some? && GetStr(NavResult(report).value, "action") == Some("goto") ==>
      r.step == (match Get(NavResult(report).value, "step_index") case Some(j) => StepOf(j) case None => pg.step)
    ensures NavResult(report).Some? && GetStr(NavResult(report).value, "action") !in {Some("next"), Some("prev"), Some("goto")} ==>
      r == pg
  {
    match NavResult(report)
    case None => pg
    case Some(result) =>
      var action := GetStr(result, "action");
      var index := Get(result, "step_index");
      if action == Some("next") then pg.(step := NextStep(pg.step, navLimit))
      else if action == Some("prev") then pg.(step := PrevStep(pg.step))
      else if action == Some("goto") && index.Some? then pg.(step := StepOf(index.value))
      else pg
  }

  /** From a step in `[0, navLimit]`, next and prev keep the step a number in that range. */
  lemma NavigationKeepsRange(pg: Page, report: ToolReport, navLimit: int)
    requires pg.step.Num? && 0 <= pg.step.n <= navLimit
    requires NavResult(report).Some? && GetStr(NavResult(report).value, "action") in {Some("next"), Some("prev")}
    ensures var r := Navigate(pg, report, navLimit);
      r.step.Num? && 0 <= r.step.n <= navLimit
  {
  }

  /**
   * A goto whose result carries a null `step_index` (the backend echoes null when the marker
   * had none) leaves null in the step; a later next reads it as 0 and a later prev gives 0.
   */
  lemma GotoNullStep(pg: Page, report: ToolReport, navLimit: int)
    requires NavResult(report).Some? && GetStr(NavResult(report).value, "action") == Some("goto")
    requires Get(NavResult(report).value, "step_index") == Some(JNull)
    ensures Navigate(pg, report, navLimit).step == Given(JNull)
    ensures NextStep(Given(JNull), navLimit) == Num(if 1 < navLimit then 1 else navLimit)
    ensures PrevStep(Given(JNull)) == Num(0)
  {
  }

  /** An empty `step_index` string behaves the same: `"" + 1` is `"1"`, and `"" - 1` is -1. */
  lemma GotoEmptyStep(pg: Page, report: ToolReport, navLimit: int)
    requires NavResult(report).Some? && GetStr(NavResult(report).value, "action") == Some("goto")
    requires Get(NavResult(report).value, "step_index") == Some(JStr(""))
    ensures Navigate(pg, report, navLimit).step == Given(JStr(""))
    ensures NextStep(Given(JStr("")), navLimit) == Num(if 1 < navLimit then 1 else navLimit)
    ensures PrevStep(Given(JStr(""))) == Num(0)
  {
    assert "" + "1" == "1";
    JsNumberOne();
  }

  /** `Number("1")` is 1. */
  lemma JsNumberOne()
    ensures JsNumber("1") == Some(1)
  {
    assert !IsSpace('1');
    assert Trim("1") == "1";
    assert AllDigits("1");
    assert DigitsValue("1") == 10 * DigitsValue([]) + DigitValue('1');
  }

  /** The tool handling of a final response: cooking, navigation, calendar refresh. */
  function ApplyTools(pg: Page, report: ToolReport, navLimit: int): (r: Page)
    ensures r.messages == pg.messages && r.status == pg.status && r.loading == pg.loading && r.player == pg.player
    ensures r.eventFetches == pg.eventFetches + (if UsesCalendar(report.toolsUsed) then 1 else 0)
    ensures JStr("start_cooking") !in report.toolsUsed && JStr("cooking_navigation") !in report.toolsUsed ==>
      r.recipe == pg.recipe && r.cookingMode == pg.cookingMode && r.step == pg.step
  {
    var navigated := Navigate(StartCooking(pg, report), report, navLimit);
    if UsesCalendar(report.toolsUsed) then navigated.(eventFetches := navigated.eventFetches + 1) else navigated
  }

  /** How one decoded event changes the page; only a final response runs the tool handling. */
  function EventStep(pg: Page, ev: StreamEvent, now: int, navLimit: int): (r: Page)
    ensures r.loading == pg.loading
    ensures !ev.FinalResponse? ==> r.recipe == pg.recipe && r.cookingMode == pg.cookingMode && r.step == pg.step && r.eventFetches == pg.eventFetches
    ensures MessagesStep(pg.messages, r.messages)
  {
    match ev
    case StatusUpdate(content) => pg.(status := content)
    case ResponseChunk(text) => pg.(status := None, messages := AppendChunk(pg.messages, text, now))
    case AudioChunk(audio) =>
      if audio.Some? && audio.value != "" then pg.(player := PlayerStep(pg.player, Push(audio.value))) else pg
    case FinalResponse(text, tools) =>
      var answered := pg.(status := None, messages := ApplyFinal(pg.messages, text, now));
      if tools.Some? then ApplyTools(answered, tools.value, navLimit) else answered
    case Unhandled => pg
  }

  /**
   * The ways a stream event may change the transcript: not at all, by rewriting the
   * assistant's last message, or by appending one message.
   */
  predicate MessagesStep(before: seq<Message>, after: seq<Message>) {
    after == before ||
    (LastIsAssistant(before) && |after| == |before| && after[..|before| - 1] == before[..|before| - 1]) ||
    (|after| == |before| + 1 && after[..|before|] == before)
  }

  /** One line of the reply: blank lines and lines `parse` rejects are skipped. */
  function LineStep(pg: Page, line: string, parse: string -> Option<Json>, now: int, navLimit: int): (r: Page)
    ensures MessagesStep(pg.messages, r.messages)
  {
    if IsBlank(line) then pg
    else
      match parse(line)
      case None => pg
      case Some(j) => EventStep(pg, Decode(j), now, navLimit)
  }

  function RunLines(pg: Page, lines: seq<string>, parse: string -> Option<Json>, now: int, navLimit: int): Page {
    if lines == [] then pg
    else LineStep(RunLines(pg, lines[..|lines| - 1], parse, now, navLimit), lines[|lines| - 1], parse, now, navLimit)
  }

  lemma {:induction false} RunLinesAppend(pg: Page, a: seq<string>, b: seq<string>, parse: string -> Option<Json>, now: int, navLimit: int)
    ensures RunLines(pg, a + b, parse, now, navLimit) == RunLines(RunLines(pg, a, parse, now, navLimit), b, parse, now, navLimit)
    decreases |b|
  {
    if b == [] {
      assert a + b == a;
    } else {
      assert (a + b)[..|a + b| - 1] == a + b[..|b| - 1];
      RunLinesAppend(pg, a, b[..|b| - 1], parse, now, navLimit);
    }
  }

  /** A malformed or blank line is skipped, and the lines after it are still processed. */
  lemma SkippedLine(pg: Page, before: seq<string>, bad: string, after: seq<string>, parse: string -> Option<Json>, now: int, navLimit: int)
    requires IsBlank(bad) || parse(bad).None?
    ensures RunLines(pg, before + [bad] + after, parse, now, navLimit) == RunLines(pg, before + after, parse, now, navLimit)
  {
    RunLinesAppend(pg, before + [bad], after, parse, now, navLimit);
    RunLinesAppend(pg, before, after, parse, now, navLimit);
    assert (before + [bad])[..|before|] == before;
  }

  // ---------------------------------------------------------------------------------------
  // Line buffer
  // ---------------------------------------------------------------------------------------

  /** The lines of `s` that a newline has completed. */
  function CompleteLines(s: string): seq<string> {
    var p := Split(s, "\n");
    p[..|p| - 1]
  }

  /** The text after the last newline of `s`: what the buffer keeps. */
  function Pending(s: string): (r: string)
    ensures !Contains(r, "\n")
  {
    var p := Split(s, "\n");
    p[|p| - 1]
  }

  /** The text read so far is the completed lines, each ended by a newline, then the buffer. */
  lemma BufferSplit(s: string)
    ensures s == (if CompleteLines(s) == [] then Pending(s) else Join(CompleteLines(s), "\n") + "\n" + Pending(s))
  {
    JoinLast(Split(s, "\n"), "\n");
  }

  lemma JoinLast(p: seq<string>, sep: string)
    requires |p| >= 1
    ensures |p| > 1 ==> Join(p, sep) == Join(p[..|p| - 1], sep) + sep + p[|p| - 1]
  {
    if |p| > 1 {
      assert p == p[..|p| - 1] + [p[|p| - 1]];
      JoinAppend(p[..|p| - 1], [p[|p| - 1]], sep);
    }
  }

  /** Reading `c` after `s` completes the lines of `s` and then those of the buffer plus `c`. */
  lemma CompleteLinesAppend(s: string, c: string)
    ensures CompleteLines(s + c) == CompleteLines(s) + CompleteLines(Pending(s) + c)
    ensures Pending(s + c) == Pending(Pending(s) + c)
  {
    CompletedAppend(s, c);
    PendingAppend(s, c);
  }

  lemma CompletedAppend(s: string, c: string)
    ensures CompleteLines(s + c) == CompleteLines(s) + CompleteLines(Pending(s) + c)
  {
    PiecesAppend(s, c, Split(s, "\n"), Split(Pending(s) + c, "\n"), Split(s + c, "\n"));
  }

  lemma PendingAppend(s: string, c: string)
    ensures Pending(s + c) == Pending(Pending(s) + c)
  {
    var q, r := Split(Pending(s) + c, "\n"), Split(s + c, "\n");
    assert r[|r| - 1] == q[|q| - 1] by {
      PiecesAppend(s, c, Split(s, "\n"), q, r);
    }
  }

  /** The pieces of `s + c`: the finished pieces of `s`, then those of the buffer plus `c`. */
  lemma PiecesAppend(s: string, c: string, p: seq<string>, q: seq<string>, r: seq<string>)
    requires p == Split(s, "\n") && q == Split(Pending(s) + c, "\n") && r == Split(s + c, "\n")
    ensures r[..|r| - 1] == p[..|p| - 1] + q[..|q| - 1] && r[|r| - 1] == q[|q| - 1]
  {
    SplitAppend(s, c, "\n");
    LastAfterPrefix(p, q, r);
  }

  lemma LastAfterPrefix<T>(p: seq<T>, q: seq<T>, r: seq<T>)
    requires |p| >= 1 && |q| >= 1 && r == p[..|p| - 1] + q
    ensures r[..|r| - 1] == p[..|p| - 1] + q[..|q| - 1] && r[|r| - 1] == q[|q| - 1]
  {
  }

  lemma NoNewlineConcat(a: string, b: string)
    requires !Contains(a, "\n") && !Contains(b, "\n")
    ensures !Contains(a + b, "\n")
  {
    forall i | 0 <= i <= |a + b| && OccursAt(a + b, "\n", i)
      ensures false
    {
      assert (a + b)[i] == '\n' by {
        assert (a + b)[i..i + 1] == "\n";
      }
      if i < |a| {
        SingleCharOccurrence(a, "\n", i);
      } else {
        SingleCharOccurrence(b, "\n", i - |a|);
      }
    }
  }

  /** Text without a newline completes no line: a trailing fragment is never parsed. */
  lemma UnterminatedTailIgnored(s: string, tail: string)
    requires !Contains(tail, "\n")
    ensures CompleteLines(s + tail) == CompleteLines(s)
  {
    CompleteLinesAppend(s, tail);
    NoNewlineConcat(Pending(s), tail);
    assert IndexOf(Pending(s) + tail, "\n").None?;
    assert CompleteLines(s) + [] == CompleteLines(s);
  }

  // ---------------------------------------------------------------------------------------
  // Sending a message
  // ---------------------------------------------------------------------------------------

  /** What the server did with the request: no response, or a response read chunk by chunk. */
  datatype Reply =
    | FetchFailed
    | Response(ok: bool, hasBody: bool, chunks: seq<string>, readFailed: bool)

  function WithFallback(pg: Page, now: int): Page {
    pg.(status := None, messages := pg.messages + [Message(Assistant, FallbackReply, now)])
  }

  predicate Ignored(pg: Page, content: string) {
    IsBlank(content) || pg.loading
  }

  /** The state after `handleSendMessage(content)` has handled the whole reply. */
  function Send(pg: Page, content: string, reply: Reply, parse: string -> Option<Json>, now: int): Page {
    if Ignored(pg, content) then pg
    else
      var started := pg.(messages := pg.messages + [Message(User, content, now)], loading := true, status := Some(ThinkingStatus));
      var navLimit := NavLimit(pg.recipe);
      var replied :=
        match reply
        case FetchFailed => WithFallback(started, now)
        case Response(ok, hasBody, chunks, readFailed) =>
          if !ok || !hasBody then WithFallback(started, now)
          else
            var streamed := RunLines(started, CompleteLines(Concat(chunks)), parse, now, navLimit);
            if readFailed then WithFallback(streamed, now) else streamed;
      replied.(loading := false, status := None)
  }

  predicate Succeeds(reply: Reply) {
    reply.Response? && reply.ok && reply.hasBody && !reply.readFailed
  }

  /** A blank message, or one sent while loading, changes nothing. */
  lemma IgnoredSendChangesNothing(pg: Page, content: string, reply: Reply, parse: string -> Option<Json>, now: int)
    requires Ignored(pg, content)
    ensures Send(pg, content, reply, parse, now) == pg
  {
  }

  /** Whatever the outcome, a handled send clears loading and the status line. */
  lemma SendSettles(pg: Page, content: string, reply: Reply, parse: string -> Option<Json>, now: int)
    requires !Ignored(pg, content)
    ensures var r := Send(pg, content, reply, parse, now); !r.loading && r.status.None?
  {
  }

  /** A request that fails before any line is read adds the user's message and exactly one fallback. */
  lemma FailedRequest(pg: Page, content: string, reply: Reply, parse: string -> Option<Json>, now: int)
    requires !Ignored(pg, content)
    requires reply.FetchFailed? || !reply.ok || !reply.hasBody
    ensures Send(pg, content, reply, parse, now).messages ==
      pg.messages + [Message(User, content, now), Message(Assistant, FallbackReply, now)]
  {
  }

  /** A read that fails keeps what was streamed and appends exactly one fallback; a clean stream appends none. */
  lemma StreamOutcome(pg: Page, content: string, reply: Reply, parse: string -> Option<Json>, now: int)
    requires !Ignored(pg, content) && reply.Response? && reply.ok && reply.hasBody
    ensures var started := pg.(messages := pg.messages + [Message(User, content, now)], loading := true, status := Some(ThinkingStatus));
      var streamed := RunLines(started, CompleteLines(Concat(reply.chunks)), parse, now, NavLimit(pg.recipe)).messages;
      Send(pg, content, reply, parse, now).messages ==
        if reply.readFailed then streamed + [Message(Assistant, FallbackReply, now)] else streamed
  {
  }

  /** `P` ends with the user's message and `msgs` extends it. */
  predicate ExtendsTurn(msgs: seq<Message>, turn: seq<Message>) {
    |turn| > 0 && turn[|turn| - 1].role == User && |turn| <= |msgs| && msgs[..|turn|] == turn
  }

  lemma {:induction false} RunLinesKeepsTurn(pg: Page, lines: seq<string>, parse: string -> Option<Json>, now: int, navLimit: int, turn: seq<Message>)
    requires ExtendsTurn(pg.messages, turn)
    ensures ExtendsTurn(RunLines(pg, lines, parse, now, navLimit).messages, turn)
  {
    if lines != [] {
      RunLinesKeepsTurn(pg, lines[..|lines| - 1], parse, now, navLimit, turn);
      var mid := RunLines(pg, lines[..|lines| - 1], parse, now, navLimit);
      var before := mid.messages;
      var after := LineStep(mid, lines[|lines| - 1], parse, now, navLimit).messages;
      assert MessagesStep(before, after);
      if |before| == |turn| {
        assert before == turn;
        assert !LastIsAssistant(before);
      }
      assert after[..|turn|] == before[..|turn|];
    }
  }

  /** Nothing the reply does alters the user's message or any message before it. */
  lemma TurnPreserved(pg: Page, content: string, reply: Reply, parse: string -> Option<Json>, now: int)
    requires !Ignored(pg, content)
    ensures var turn := pg.messages + [Message(User, content, now)];
      ExtendsTurn(Send(pg, content, reply, parse, now).messages, turn)
  {
    var turn := pg.messages + [Message(User, content, now)];
    var started := pg.(messages := turn, loading := true, status := Some(ThinkingStatus));
    if Succeeds(reply) || (reply.Response? && reply.ok && reply.hasBody) {
      RunLinesKeepsTurn(started, CompleteLines(Concat(reply.chunks)), parse, now, NavLimit(pg.recipe), turn);
      var streamed := RunLines(started, CompleteLines(Concat(reply.chunks)), parse, now, NavLimit(pg.recipe)).messages;
      assert (streamed + [Message(Assistant, FallbackReply, now)])[..|turn|] == streamed[..|turn|];
    } else {
      var r := turn + [Message(Assistant, FallbackReply, now)];
      assert r[..|turn|] == turn;
    }
  }

  // ---------------------------------------------------------------------------------------
  // The page component
  // ---------------------------------------------------------------------------------------

  /** The page's state variables and refs, updated in place as the source's setters and refs do. */
  class ChatPage {
    var messages: seq<Message>
    var thinkingStatus: Option<string>
    var isLoading: bool
    var audioQueue: seq<string>
    var isPlaying: bool
    var isSpeaking: bool
    var currentClip: Option<string>
    var recipe: Option<Json>
    var cookingMode: bool
    var currentStep: StepValue
    var eventFetches: nat

    function State(): Page
      reads this
    {
      Page(messages, thinkingStatus, isLoading, Player(audioQueue, isPlaying, isSpeaking, currentClip),
           recipe, cookingMode, currentStep, eventFetches)
    }

    constructor ()
      ensures State() == Page(Greeting, None, false, Silent, None, false, Num(0), 0)
    {
      messages := Greeting;
      thinkingStatus := None;
      isLoading := false;
      audioQueue := [];
      isPlaying := false;
      isSpeaking := false;
      currentClip := None;
      recipe := None;
      cookingMode := false;
      currentStep := Num(0);
      eventFetches := 0;
    }

    /** The effect run when the signed-in user changes: the transcript restarts. */
    method ResetForUser()
      modifies this
      ensures State() == old(State()).(messages := Greeting)
    {
      messages := Greeting;
    }

    method PlayNextAudio()
      modifies this
      ensures State() == old(State()).(player := PlayNext(old(State()).player))
    {
      if isPlaying || |audioQueue| == 0 {
        return;
      }
      var next := audioQueue[0];
      audioQueue := audioQueue[1..];
      if next == "" {
        return;
      }
      isPlaying := true;
      isSpeaking := true;
      currentClip := Some(next);
    }

    /** `audio.onended`: playback stops; the 100 ms pause begins. */
    method OnAudioEnded()
      modifies this
      ensures State() == old(State()).(player := PlayerStep(old(State()).player, Ended))
    {
      isPlaying := false;
    }

    /** The callback after the pause. */
    method OnPauseElapsed()
      modifies this
      ensures State() == old(State()).(player := PlayerStep(old(State()).player, PauseElapsed))
    {
      if |audioQueue| == 0 {
        isSpeaking := false;
      }
      PlayNextAudio();
    }

    /** `audio.onerror` or a rejected `play()`. */
    method OnAudioFailed()
      modifies this
      ensures State() == old(State()).(player := PlayerStep(old(State()).player, Failed))
    {
      isPlaying := false;
      PlayNextAudio();
    }

    method StartCookingTool(report: ToolReport)
      modifies this
      ensures State() == StartCooking(old(State()), report)
    {
      if JStr("start_cooking") in report.toolsUsed {
        var found := ResultField(FindTool(report.results, "start_cooking"), "recipe");
        if found.Some? && JsTruthy(found.value) {
          recipe := found;
          cookingMode := true;
          currentStep := Num(0);
        }
      }
    }

    method NavigationTool(report: ToolReport, navLimit: int)
      modifies this
      ensures State() == Navigate(old(State()), report, navLimit)
    {
      var navResult := NavResult(report);
      if navResult.Some? {
        var action := GetStr(navResult.value, "action");
        var index := Get(navResult.value, "step_index");
        if action == Some("next") {
          currentStep := NextStep(currentStep, navLimit);
        } else if action == Some("prev") {
          currentStep := PrevStep(currentStep);
        } else if action == Some("goto") && index.Some? {
          currentStep := StepOf(index.value);
        }
      }
    }

    method HandleTools(report: ToolReport, navLimit: int)
      modifies this
      ensures State() == ApplyTools(old(State()), report, navLimit)
    {
      StartCookingTool(report);
      NavigationTool(report, navLimit);
      if UsesCalendar(report.toolsUsed) {
        eventFetches := eventFetches + 1;
      }
    }

    method HandleLine(line: string, parse: string -> Option<Json>, now: int, navLimit: int)
      modifies this
      ensures State() == LineStep(old(State()), line, parse, now, navLimit)
    {
      if IsBlank(line) {
        return;
      }
      var data := parse(line);
      if data.None? {
        return;
      }
      match Decode(data.value)
      case StatusUpdate(content) =>
        thinkingStatus := content;
      case ResponseChunk(text) =>
        thinkingStatus := None;
        messages := AppendChunk(messages, text, now);
      case AudioChunk(audio) =>
        if audio.Some? && audio.value != "" {
          audioQueue := audioQueue + [audio.value];
          if !isPlaying {
            PlayNextAudio();
          }
        }
      case FinalResponse(text, tools) =>
        thinkingStatus := None;
        messages := ApplyFinal(messages, text, now);
        if tools.Some? {
          HandleTools(tools.value, navLimit);
        }
      case Unhandled =>
    }

    /** Handles the completed lines of one read, in order. */
    method HandleLines(lines: seq<string>, parse: string -> Option<Json>, now: int, navLimit: int)
      modifies this
      ensures State() == RunLines(old(State()), lines, parse, now, navLimit)
    {
      ghost var start := State();
      var j := 0;
      while j < |lines|
        invariant 0 <= j <= |lines|
        invariant State() == RunLines(start, lines[..j], parse, now, navLimit)
      {
        assert lines[..j + 1][..j] == lines[..j];
        HandleLine(lines[j], parse, now, navLimit);
        j := j + 1;
      }
      assert lines[..j] == lines;
    }

    /**
     * The read loop: after each read the buffer holds the text after the last newline, and
     * every line the read completed has been handled.
     */
    method ReadReply(chunks: seq<string>, parse: string -> Option<Json>, now: int, navLimit: int)
      modifies this
      ensures State() == RunLines(old(State()), CompleteLines(Concat(chunks)), parse, now, navLimit)
    {
      ghost var start := State();
      var buffer := "";
      var k := 0;
      while k < |chunks|
        invariant 0 <= k <= |chunks|
        invariant buffer == Pending(Concat(chunks[..k]))
        invariant State() == RunLines(start, CompleteLines(Concat(chunks[..k])), parse, now, navLimit)
      {
        ghost var read := Concat(chunks[..k]);
        ghost var done := CompleteLines(read);
        var lines := Split(buffer + chunks[k], "\n");
        var completed := lines[..|lines| - 1];
        assert completed == CompleteLines(Pending(read) + chunks[k]);
        buffer := lines[|lines| - 1];
        HandleLines(completed, parse, now, navLimit);
        RunLinesAppend(start, done, completed, parse, now, navLimit);
        assert Concat(chunks[..k + 1]) == read + chunks[k] by {
          assert chunks[..k + 1][..k] == chunks[..k];
        }
        CompleteLinesAppend(read, chunks[k]);
        k := k + 1;
      }
      assert chunks[..k] == chunks;
    }

    /** `handleSendMessage`. */
    method HandleSendMessage(content: string, reply: Reply, parse: string -> Option<Json>, now: int)
      modifies this
      ensures State() == Send(old(State()), content, reply, parse, now)
    {
      if IsBlank(content) || isLoading {
        return;
      }
      messages := messages + [Message(User, content, now)];
      isLoading := true;
      thinkingStatus := Some(ThinkingStatus);
      var navLimit := NavLimit(recipe);
      if reply.FetchFailed? || !reply.ok || !reply.hasBody {
        thinkingStatus := None;
        messages := messages + [Message(Assistant, FallbackReply, now)];
      } else {
        ReadReply(reply.chunks, parse, now, navLimit);
        if reply.readFailed {
          thinkingStatus := None;
          messages := messages + [Message(Assistant, FallbackReply, now)];
        }
      }
      isLoading := false;
      thinkingStatus := None;
    }
  }
}
