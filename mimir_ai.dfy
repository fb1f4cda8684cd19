/**
 * One chat turn of the assistant (`MimirAI` in `backend/core/ai.py`): the personality band,
 * the prompt, the dispatch of a parsed tool call, and the tool loop that streams each reply
 * with the markers hidden, runs every distinct call once, reports the results back and ends
 * with exactly one response (or error) event after at most five rounds.
 */
module MimirAi {
  import opened Wrappers
  import opened Text
  import opened Json
  import opened ToolProtocol
  import Tools

  // ---------------------------------------------------------------------------------------
  // Personality and prompt
  // ---------------------------------------------------------------------------------------

  const SubtleTone: string := "\n\nIMPORTANT: Respond in a subtle, professional tone. Minimize Norse references and macho attitude. Be helpful and direct."
  const BalancedTone: string := "\n\nIMPORTANT: Use a balanced tone with occasional Norse references. Be professional but with some personality."
  const FullTone: string := "\n\nIMPORTANT: Use your full Norse persona with metaphors and powerful tone, but keep it grounded and helpful."
  const MaximumTone: string := "\n\nIMPORTANT: MAXIMUM NORSE MODE. Full macho god attitude, heavy use of Norse metaphors, Yggdrasil, the nine realms, and powerful declarations. Be dramatic and imposing while still being helpful."

  /** The four bands of personality intensity. */
  datatype Tone = Subtle | Balanced | Full | Maximum

  /** The band of an intensity: up to 25, up to 50, up to 75, above 75. */
  function ToneOf(intensity: int): (t: Tone)
    ensures t == Subtle <==> intensity <= 25
    ensures t == Balanced <==> 25 < intensity <= 50
    ensures t == Full <==> 50 < intensity <= 75
    ensures t == Maximum <==> 75 < intensity
  {
    if intensity <= 25 then Subtle
    else if intensity <= 50 then Balanced
    else if intensity <= 75 then Full
    else Maximum
  }

  /** The instruction a band appends to the prompt and to every tool report. */
  function ToneText(t: Tone): string {
    match t
    case Subtle => SubtleTone
    case Balanced => BalancedTone
    case Full => FullTone
    case Maximum => MaximumTone
  }

  /** `personality_modifier`: every intensity gets exactly one of the four instructions. */
  function PersonalityModifier(intensity: int): (r: string)
    ensures intensity <= 25 ==> r == SubtleTone
    ensures 25 < intensity <= 50 ==> r == BalancedTone
    ensures 50 < intensity <= 75 ==> r == FullTone
    ensures 75 < intensity ==> r == MaximumTone
  {
    ToneText(ToneOf(intensity))
  }

  const ContextHeader: string := "Context information from your memory:\n"
  const QueryHeader: string := "\n\nUser Query: "

  /** The prompt the model sees for the user's message (the history keeps the bare message). */
  function FinalPrompt(input: string, context: string, modifier: string): (r: string)
    ensures |r| >= |input + modifier| && r[|r| - |input + modifier|..] == input + modifier
    ensures context == [] ==> r == input + modifier
    ensures context != [] ==>
      |r| == |ContextHeader| + |context| + |QueryHeader| + |input + modifier| &&
      r[..|ContextHeader|] == ContextHeader &&
      r[|ContextHeader|..|ContextHeader| + |context|] == context
  {
    if context != [] then ContextHeader + context + QueryHeader + input + modifier
    else input + modifier
  }

  /** The status line shown while a tool runs. */
  const Descriptions: map<string, string> := map[
    "web_search" := "Gazing into the world...",
    "get_weather" := "Consulting the skies...",
    "get_location" := "Divining your location...",
    "calendar_search" := "Reading the threads of time...",
    "calendar_create" := "Weaving a new fate...",
    "calendar_update" := "Altering the timeline...",
    "calendar_delete" := "Severing a thread of time...",
    "start_cooking" := "Preparing the cauldron...",
    "cooking_navigation" := "Guiding the culinary ritual...",
    "journal_search" := "Searching the annals...",
    "journal_read" := "Reading from the chronicles...",
    "record_preference" := "Noting your preference...",
    "set_home_city" := "Marking your home on the map..."]

  function ToolDescription(tool: string): (r: string)
    ensures tool in Descriptions ==> r == Descriptions[tool]
    ensures tool !in Descriptions ==> r == "Using tool: " + tool + "..."
  {
    if tool in Descriptions then Descriptions[tool] else "Using tool: " + tool + "..."
  }

  // ---------------------------------------------------------------------------------------
  // Dispatching a parsed call
  // ---------------------------------------------------------------------------------------

  const ItemSeparator: string := ";;"

  /** The trimmed pieces that are not blank, in order. */
  function NonBlank(pieces: seq<string>): (r: seq<string>)
    ensures |r| <= |pieces|
    ensures forall k | 0 <= k < |r| :: r[k] != [] && Trim(r[k]) == r[k]
  {
    if pieces == [] then []
    else
      var t := Trim(pieces[0]);
      (if t != [] then [t] else []) + NonBlank(pieces[1..])
  }

  /** A `;;`-separated list parameter of `start_cooking`; a missing or empty one is `[]`. */
  function CookingItems(params: map<string, string>, key: string): (r: seq<string>)
    ensures key !in params || params[key] == [] ==> r == []
    ensures forall k | 0 <= k < |r| :: r[k] != [] && Trim(r[k]) == r[k]
  {
    if key in params && params[key] != [] then NonBlank(Split(params[key], ItemSeparator)) else []
  }

  /** An item the model can write into a `;;` list and get back unchanged. */
  predicate ListItem(item: string) {
    item != [] && !IsSpace(item[0]) && !IsSpace(item[|item| - 1]) && !ContainsChar(item, ';')
  }

  lemma {:induction false} NonBlankKeeps(items: seq<string>)
    requires forall k | 0 <= k < |items| :: ListItem(items[k])
    ensures NonBlank(items) == items
  {
    if items != [] {
      NonBlankKeeps(items[1..]);
      assert items == [items[0]] + items[1..];
    }
  }

  /** Items written with `;;` between them are read back as written. */
  lemma CookingItemsRoundTrip(params: map<string, string>, key: string, items: seq<string>)
    requires forall k | 0 <= k < |items| :: ListItem(items[k])
    requires key in params && params[key] == Join(items, ItemSeparator)
    ensures CookingItems(params, key) == items
  {
    if items != [] {
      assert ListItem(items[0]);
      JoinNonEmpty(items, ItemSeparator);
      assert forall k | 0 <= k < |items| :: !ContainsChar(items[k], ItemSeparator[0]) by {
        assert ItemSeparator[0] == ';';
      }
      SplitJoin(items, ItemSeparator);
      NonBlankKeeps(items);
    }
  }

  /** Python's `int(s)` on a stripped string: an optional sign and decimal digits. */
  function ParseInt(s: string): (r: Option<int>)
    ensures r.None? ==> s == [] || (s[0] != '-' && s[0] != '+' && !AllDigits(s)) || ((s[0] == '-' || s[0] == '+') && (|s| == 1 || !AllDigits(s[1..])))
  {
    if s != [] && (s[0] == '-' || s[0] == '+') then
      if |s| > 1 && AllDigits(s[1..]) then
        Some(if s[0] == '-' then -(DigitsValue(s[1..]) as int) else DigitsValue(s[1..]) as int)
      else None
    else if s != [] && AllDigits(s) then Some(DigitsValue(s))
    else None
  }

  /** Every integer as Python prints it reads back as itself. */
  lemma ParseIntToString(i: int)
    ensures ParseInt(IntToString(i)) == Some(i)
  {
    if i < 0 {
      var s := IntToString(i);
      assert s[1..] == NatToString(-i);
    } else {
      var s := IntToString(i);
      assert s[0] != '-' && s[0] != '+' by {
        assert IsDigit(s[0]);
      }
    }
  }

  /** The `str(ValueError)` of a failed `int(s)`: the text shown as `repr` shows it. */
  function IntError(s: string): (r: string)
    ensures |r| > 40 && r[..40] == "invalid literal for int() with base 10: "
  {
    "invalid literal for int() with base 10: " + PyRepr(s)
  }

  /**
   * A step index of printable text is quoted with single quotes, unless it holds a single
   * quote and no double quote, when double quotes are used.
   */
  lemma IntErrorQuotes(s: string)
    requires PlainFor(s, '\'') || ('\'' in s && PlainFor(s, '"'))
    ensures PlainFor(s, '\'') ==> IntError(s) == "invalid literal for int() with base 10: " + ("'" + s + "'")
    ensures '\'' in s && PlainFor(s, '"') ==> IntError(s) == "invalid literal for int() with base 10: " + ("\"" + s + "\"")
  {
    ReprPlain(s);
  }

  function ErrorResult(message: string): (r: Json)
    ensures GetStr(r, "error") == Some(message)
  {
    JObj(map["error" := JStr(message)])
  }

  /** `params.get(key)`: the value as a string, or null when absent. */
  function ParamJson(params: map<string, string>, key: string): (r: Json)
    ensures key in params <==> r.JStr?
    ensures key in params ==> r == JStr(params[key])
  {
    if key in params then JStr(params[key]) else JNull
  }

  /** The tools handled outside this module (search, weather, location, calendar, journal, profile). */
  const ServiceTools: set<string> := {
    "web_search", "get_weather", "get_location", "calendar_search", "calendar_create",
    "calendar_update", "calendar_delete", "journal_search", "journal_read",
    "record_preference", "set_home_city"}

  /**
   * The `cooking_navigation` branch of `execute_tool`: a non-empty `step_index` is read with
   * `int()`, whose failure the handler turns into an error result; an absent one is null and
   * an empty one is passed on as it is.
   */
  function Navigation(p: map<string, string>): (r: Json)
    ensures "step_index" in p && p["step_index"] != [] && ParseInt(p["step_index"]).None? ==>
      r == ErrorResult(IntError(p["step_index"]))
    ensures "step_index" in p && p["step_index"] != [] && ParseInt(p["step_index"]).Some? ==>
      r == Tools.CookingNavigation(ParamJson(p, "action"), JInt(ParseInt(p["step_index"]).value))
    ensures "step_index" !in p || p["step_index"] == [] ==>
      r == Tools.CookingNavigation(ParamJson(p, "action"), ParamJson(p, "step_index"))
  {
    if "step_index" in p && p["step_index"] != [] then
      match ParseInt(p["step_index"])
      case None => ErrorResult(IntError(p["step_index"]))
      case Some(n) => Tools.CookingNavigation(ParamJson(p, "action"), JInt(n))
    else Tools.CookingNavigation(ParamJson(p, "action"), ParamJson(p, "step_index"))
  }

  /** The `start_cooking` branch of `execute_tool`. */
  function Cooking(p: map<string, string>): Json {
    Tools.StartCooking(ParamJson(p, "title"), CookingItems(p, "ingredients"), CookingItems(p, "steps"))
  }

  /**
   * `execute_tool`: the two cooking tools are answered here, the other known tools by
   * `service`, and any other name gets an "Unknown tool" error.
   */
  function ExecuteTool(call: ToolCall, service: ToolCall -> Json): Json {
    if call.tool == "start_cooking" then Cooking(call.params)
    else if call.tool == "cooking_navigation" then Navigation(call.params)
    else if call.tool in ServiceTools then service(call)
    else ErrorResult("Unknown tool: " + call.tool)
  }

  /** A name that is not a tool gets the "Unknown tool" error, whatever the services do. */
  lemma UnknownTool(call: ToolCall, service: ToolCall -> Json)
    requires call.tool !in ServiceTools && call.tool != "start_cooking" && call.tool != "cooking_navigation"
    ensures GetStr(ExecuteTool(call, service), "error") == Some("Unknown tool: " + call.tool)
  {
  }

  /** A service tool's call is handed to the services unchanged. */
  lemma ServiceTool(call: ToolCall, service: ToolCall -> Json)
    requires call.tool in ServiceTools
    ensures ExecuteTool(call, service) == service(call)
  {
    assert call.tool != "start_cooking" && call.tool != "cooking_navigation";
  }

  /** A cooking session started with `;;` lists gets exactly the listed ingredients and steps. */
  lemma StartCookingCall(p: map<string, string>, title: string, ingredients: seq<string>, steps: seq<string>,
                         service: ToolCall -> Json)
    requires forall k | 0 <= k < |ingredients| :: ListItem(ingredients[k])
    requires forall k | 0 <= k < |steps| :: ListItem(steps[k])
    requires "title" in p && p["title"] == title
    requires "ingredients" in p && p["ingredients"] == Join(ingredients, ItemSeparator)
    requires "steps" in p && p["steps"] == Join(steps, ItemSeparator)
    ensures ExecuteTool(ToolCall("start_cooking", p), service) == Tools.StartCooking(JStr(title), ingredients, steps)
  {
    CookingItemsRoundTrip(p, "ingredients", ingredients);
    CookingItemsRoundTrip(p, "steps", steps);
  }

  /** A navigation request carries the step it names, as a number. */
  lemma NavigationStep(p: map<string, string>, n: int)
    requires "step_index" in p && p["step_index"] == IntToString(n)
    ensures Get(ExecuteTool(ToolCall("cooking_navigation", p), _ => JNull), "step_index") == Some(JInt(n))
  {
    ParseIntToString(n);
  }

  // ---------------------------------------------------------------------------------------
  // The turn
  // ---------------------------------------------------------------------------------------

  /** What a call came to: the tool's result, or the refusal of a repeated call. */
  datatype Outcome = Ran(value: Json) | LoopRefused

  /** The result as the turn reports it: a refused call reads as the loop error. */
  function ResultJson(o: Outcome): (r: Json)
    ensures o.Ran? ==> r == o.value
    ensures o.LoopRefused? ==> GetStr(r, "error") == Some(LoopDetected)
  {
    match o
    case Ran(value) => value
    case LoopRefused => ErrorResult(LoopDetected)
  }

  datatype ToolResult = ToolResult(tool: string, outcome: Outcome)

  /**
   * A history entry. `Prompt` is the user's message as the model is shown it, whose text is
   * `PromptText`. `ToolReport` is the "Tool 'x' returned: ..." message listing a round's
   * results (their JSON text is not modelled) and ending with the band's instruction.
   */
  datatype Message =
    | SystemMessage(content: string)
    | HumanMessage(content: string)
    | Prompt(input: string, context: string, tone: Tone)
    | AiMessage(content: string)
    | ToolReport(results: seq<ToolResult>, tone: Tone)

  /** The text of the message the model is shown for the user's input. */
  function PromptText(m: Message): string
    requires m.Prompt?
  {
    FinalPrompt(m.input, m.context, ToneText(m.tone))
  }

  /** The status lines of a turn: its start, a tool being run, results being processed. */
  datatype Notice = Consulting | Describing(tool: string) | Processing

  function NoticeText(n: Notice): (r: string)
    ensures n.Describing? ==> r == ToolDescription(n.tool)
  {
    match n
    case Consulting => ConsultingText
    case Describing(tool) => ToolDescription(tool)
    case Processing => ProcessingText
  }

  /** The events the turn yields, one per line of the `/chat` stream; a status reads `NoticeText`. */
  datatype Event =
    | Status(notice: Notice)
    | ResponseChunk(text: string)
    | ToolCallEvent(tool: string, params: map<string, string>)
    | Response(text: string, toolsUsed: seq<string>, toolResults: seq<ToolResult>)
    | ErrorEvent(content: string)

  predicate Terminal(e: Event) {
    e.Response? || e.ErrorEvent?
  }

  const MaxIterations: nat := 5
  const ConsultingText: string := "Consulting the runes..."
  const ProcessingText: string := "Processing results..."
  const Tangled: string := "The threads of fate are tangled. I cannot speak right now."
  const LoopDetected: string := "SYSTEM: Loop detected. You have already executed this tool with these parameters. Do not do it again. Provide your final response."

  /** What the turn has accumulated: distinct calls run, tools used, results, events sent. */
  datatype Ledger = Ledger(executed: seq<ToolCall>, used: seq<string>, results: seq<ToolResult>, events: seq<Event>)

  function Emit(l: Ledger, es: seq<Event>): Ledger {
    l.(events := l.events + es)
  }

  /**
   * One parsed call. A call equal to one already run this turn (same name, same parameters:
   * what the `name:json.dumps(params, sort_keys=True)` signature identifies) is answered with
   * the loop error and not run; a new one is announced and run. `execute(n, call)` is the
   * result of the turn's n-th distinct call.
   */
  function CallStep(l: Ledger, call: ToolCall, execute: (nat, ToolCall) -> Json): Ledger {
    if call in l.executed then
      l.(results := l.results + [ToolResult(call.tool, LoopRefused)])
    else
      Ledger(l.executed + [call], l.used + [call.tool],
        l.results + [ToolResult(call.tool, Ran(execute(|l.executed|, call)))],
        l.events + [ToolCallEvent(call.tool, call.params), Status(Describing(call.tool))])
  }

  /** The calls of one round, in the order the markers appear. */
  function RunCalls(l: Ledger, calls: seq<ToolCall>, execute: (nat, ToolCall) -> Json): (r: Ledger)
    ensures |r.results| == |l.results| + |calls|
  {
    if calls == [] then l
    else CallStep(RunCalls(l, calls[..|calls| - 1], execute), calls[|calls| - 1], execute)
  }

  function ToCalls(raw: seq<RawCall>): (r: seq<ToolCall>)
    ensures |r| == |raw|
  {
    if raw == [] then [] else ToCalls(raw[..|raw| - 1]) + [ToCall(raw[|raw| - 1])]
  }

  function Chunks(texts: seq<string>): (r: seq<Event>)
    ensures |r| == |texts|
    ensures forall k | 0 <= k < |r| :: r[k] == ResponseChunk(texts[k])
  {
    seq(|texts|, k requires 0 <= k < |texts| => ResponseChunk(texts[k]))
  }

  /** The ledger, the user's stored history, and the history the model is shown. */
  datatype TurnState = TurnState(ledger: Ledger, history: seq<Message>, generation: seq<Message>)

  /**
   * Round `k` of the loop and the rounds after it. The model answers the history it is shown
   * (`None` when the call raises). The reply streams with its markers hidden. Without calls it
   * is the final response; with calls they run, the reply and the results join both
   * histories, and after the fifth such round the last reply is the final response.
   */
  function Round(st: TurnState, tone: Tone, llm: seq<Message> -> Option<string>,
                 execute: (nat, ToolCall) -> Json, k: nat): TurnState
    requires k < MaxIterations
    decreases MaxIterations - k, 1
  {
    match llm(st.generation)
    case None => st.(ledger := Emit(st.ledger, [ErrorEvent(Tangled)]))
    case Some(text) =>
      var l := Emit(st.ledger, Chunks(FilterEvents(text)));
      var calls := ToCalls(DetectToolCalls(text));
      if calls == [] then
        TurnState(Emit(l, [Response(text, l.used, l.results)]), st.history + [AiMessage(text)], st.generation)
      else
        RunRound(st, l, text, calls, tone, llm, execute, k)
  }

  /**
   * The rest of round `k` once its reply `text` (streamed into ledger `l`) made calls: they
   * run, the reply and a report of their results join both histories, and either the last
   * allowed round ends with the reply as the response or the next round starts.
   */
  function RunRound(st: TurnState, l: Ledger, text: string, calls: seq<ToolCall>, tone: Tone,
                    llm: seq<Message> -> Option<string>, execute: (nat, ToolCall) -> Json, k: nat): TurnState
    requires k < MaxIterations
    decreases MaxIterations - k, 0
  {
    var ran := RunCalls(l, calls, execute);
    var report := [AiMessage(text), ToolReport(ran.results[|l.results|..], tone)];
    var l' := Emit(ran, [Status(Processing)]);
    if k + 1 == MaxIterations then
      TurnState(Emit(l', [Response(text, l'.used, l'.results)]), st.history + report + [AiMessage(text)], st.generation + report)
    else
      Round(TurnState(l', st.history + report, st.generation + report), tone, llm, execute, k + 1)
  }

  /**
   * `generate_response_stream` for a user whose history is `prior`: the stored history gets
   * the bare message, the model is shown the prompt with context and modifier in its place.
   */
  function Turn(prior: seq<Message>, input: string, context: string, intensity: int,
                llm: seq<Message> -> Option<string>, execute: (nat, ToolCall) -> Json): TurnState
  {
    var tone := ToneOf(intensity);
    Round(Start(prior, input, context, tone), tone, llm, execute, 0)
  }

  /** The state a turn starts in: one status event, the message added to both histories. */
  function Start(prior: seq<Message>, input: string, context: string, tone: Tone): TurnState {
    TurnState(Ledger([], [], [], [Status(Consulting)]), prior + [HumanMessage(input)], prior + [Prompt(input, context, tone)])
  }

  /** The stored history of a user, created with the persona when there is none. */
  function HistoryOf(histories: map<string, seq<Message>>, userId: string, persona: string): (r: seq<Message>)
    ensures userId !in histories ==> r == [SystemMessage(persona)]
    ensures userId in histories ==> r == histories[userId]
  {
    if userId in histories then histories[userId] else [SystemMessage(persona)]
  }

  /** The loop over one round's markers, filling the ledger in place. */
  method ExecuteCalls(l: Ledger, raw: seq<RawCall>, execute: (nat, ToolCall) -> Json) returns (r: Ledger)
    ensures r == RunCalls(l, ToCalls(raw), execute)
  {
    var executed, used, results, events := l.executed, l.used, l.results, l.events;
    for j := 0 to |raw|
      invariant Ledger(executed, used, results, events) == RunCalls(l, ToCalls(raw[..j]), execute)
    {
      assert raw[..j + 1][..j] == raw[..j];
      var call := ParseToolCall(raw[j]);
      assert ToCalls(raw[..j + 1]) == ToCalls(raw[..j]) + [call];
      assert RunCalls(l, ToCalls(raw[..j + 1]), execute)
          == CallStep(RunCalls(l, ToCalls(raw[..j]), execute), call, execute);
      if call in executed {
        results := results + [ToolResult(call.tool, LoopRefused)];
      } else {
        used := used + [call.tool];
        events := events + [ToolCallEvent(call.tool, call.params), Status(Describing(call.tool))];
        results := results + [ToolResult(call.tool, Ran(execute(|executed|, call)))];
        executed := executed + [call];
      }
    }
    assert raw[..|raw|] == raw;
    r := Ledger(executed, used, results, events);
  }

  /**
   * One round: stream the reply through the filter, then finish the turn (`done`) or run the
   * calls and leave the rest of the turn to the next round.
   */
  method PlayRound(st: TurnState, tone: Tone, llm: seq<Message> -> Option<string>,
                   execute: (nat, ToolCall) -> Json, k: nat)
    returns (next: TurnState, done: bool)
    requires k < MaxIterations
    ensures done ==> next == Round(st, tone, llm, execute, k)
    ensures !done ==> k + 1 < MaxIterations && Round(next, tone, llm, execute, k + 1) == Round(st, tone, llm, execute, k)
  {
    var reply := llm(st.generation);
    if reply.None? {
      return st.(ledger := Emit(st.ledger, [ErrorEvent(Tangled)])), true;
    }
    var text := reply.value;
    var chunks := FilterRound(text);
    var events := st.ledger.events;
    for j := 0 to |chunks|
      invariant events == st.ledger.events + Chunks(chunks[..j])
    {
      assert Chunks(chunks[..j + 1]) == Chunks(chunks[..j]) + [ResponseChunk(chunks[j])];
      events := events + [ResponseChunk(chunks[j])];
    }
    assert chunks[..|chunks|] == chunks;
    var l := st.ledger.(events := events);
    var raw := DetectToolCalls(text);
    if raw == [] {
      l := l.(events := l.events + [Response(text, l.used, l.results)]);
      return TurnState(l, st.history + [AiMessage(text)], st.generation), true;
    }
    var before := |l.results|;
    var ran := ExecuteCalls(l, raw, execute);
    var report := [AiMessage(text), ToolReport(ran.results[before..], tone)];
    var history := st.history + report;
    var generation := st.generation + report;
    l := ran.(events := ran.events + [Status(Processing)]);
    if k + 1 == MaxIterations {
      // the loop ends with the last reply as the response
      history := history + [AiMessage(text)];
      l := l.(events := l.events + [Response(text, l.used, l.results)]);
      return TurnState(l, history, generation), true;
    }
    return TurnState(l, history, generation), false;
  }

  /** `while iteration < max_iterations`: plays rounds until one finishes the turn. */
  method PlayRounds(start: TurnState, tone: Tone, llm: seq<Message> -> Option<string>, execute: (nat, ToolCall) -> Json)
    returns (st: TurnState)
    ensures st == Round(start, tone, llm, execute, 0)
  {
    st := start;
    var k := 0;
    var done := false;
    while !done
      invariant k <= MaxIterations
      invariant !done ==> k < MaxIterations && Round(st, tone, llm, execute, k) == Round(start, tone, llm, execute, 0)
      invariant done ==> st == Round(start, tone, llm, execute, 0)
      decreases MaxIterations - k, if done then 0 else 1
    {
      st, done := PlayRound(st, tone, llm, execute, k);
      if !done {
        k := k + 1;
      }
    }
  }

  // ---------------------------------------------------------------------------------------
  // Loop detection
  // ---------------------------------------------------------------------------------------

  predicate Distinct(calls: seq<ToolCall>) {
    forall i, j | 0 <= i < j < |calls| :: calls[i] != calls[j]
  }

  predicate NoTerminal(events: seq<Event>) {
    forall k | 0 <= k < |events| :: !Terminal(events[k])
  }

  /** The ledger keeps each signature once and lists the tool of every call it ran. */
  predicate Tracked(l: Ledger) {
    Distinct(l.executed) && |l.used| == |l.executed| &&
    forall i | 0 <= i < |l.used| :: l.used[i] == l.executed[i].tool
  }

  /** One call adds one result, and at most one executed call, tool name and two events. */
  lemma CallStepLedger(l: Ledger, call: ToolCall, execute: (nat, ToolCall) -> Json)
    ensures var r := CallStep(l, call, execute);
      r.results == l.results + [ToolResult(call.tool, if call in l.executed then LoopRefused else Ran(execute(|l.executed|, call)))] &&
      r.executed == (if call in l.executed then l.executed else l.executed + [call]) &&
      l.events <= r.events && (NoTerminal(l.events) ==> NoTerminal(r.events)) &&
      (Tracked(l) ==> Tracked(r))
  {
    var r := CallStep(l, call, execute);
    if Tracked(l) && call !in l.executed {
      assert r.executed[..|r.executed| - 1] == l.executed;
    }
  }

  /** The events a round's calls add announce tools and never end the turn. */
  lemma {:induction false} RunCallsEvents(l: Ledger, calls: seq<ToolCall>, execute: (nat, ToolCall) -> Json)
    ensures var r := RunCalls(l, calls, execute);
      l.results <= r.results && l.events <= r.events && (NoTerminal(l.events) ==> NoTerminal(r.events)) &&
      (Tracked(l) ==> Tracked(r))
  {
    if calls != [] {
      var n := |calls| - 1;
      RunCallsEvents(l, calls[..n], execute);
      CallStepLedger(RunCalls(l, calls[..n], execute), calls[n], execute);
    }
  }

  /** The calls run in the turn so far are those run before and the new calls of the round. */
  lemma {:induction false} RunCallsExecuted(l: Ledger, calls: seq<ToolCall>, execute: (nat, ToolCall) -> Json)
    ensures forall c :: c in RunCalls(l, calls, execute).executed <==> c in l.executed || c in calls
  {
    if calls != [] {
      var n := |calls| - 1;
      RunCallsExecuted(l, calls[..n], execute);
      CallStepLedger(RunCalls(l, calls[..n], execute), calls[n], execute);
      assert calls == calls[..n] + [calls[n]];
    }
  }

  /**
   * Every call of a round gets one result under its own tool name; it is the loop error
   * exactly when the same call ran earlier in the turn or earlier in the round.
   */
  lemma {:induction false} RunCallsResults(l: Ledger, calls: seq<ToolCall>, execute: (nat, ToolCall) -> Json)
    ensures var r := RunCalls(l, calls, execute);
      forall i | 0 <= i < |calls| ::
        r.results[|l.results| + i].tool == calls[i].tool &&
        (r.results[|l.results| + i].outcome == LoopRefused <==> calls[i] in l.executed || calls[i] in calls[..i])
  {
    if calls != [] {
      var n := |calls| - 1;
      var front := calls[..n];
      var r0 := RunCalls(l, front, execute);
      RunCallsResults(l, front, execute);
      RunCallsExecuted(l, front, execute);
      CallStepLedger(r0, calls[n], execute);
      var r := RunCalls(l, calls, execute);
      forall i | 0 <= i < |calls|
        ensures r.results[|l.results| + i].tool == calls[i].tool
        ensures r.results[|l.results| + i].outcome == LoopRefused <==> calls[i] in l.executed || calls[i] in calls[..i]
      {
        if i < n {
          assert r.results[|l.results| + i] == r0.results[|l.results| + i];
          assert calls[..i] == front[..i];
        } else {
          assert calls[..i] == front;
        }
      }
    }
  }

  // ---------------------------------------------------------------------------------------
  // How a turn ends
  // ---------------------------------------------------------------------------------------

  /** The events end with a terminal one, and none comes before it. */
  predicate EndsOnce(events: seq<Event>) {
    events != [] && Terminal(events[|events| - 1]) && NoTerminal(events[..|events| - 1])
  }

  /**
   * What rounds `k` onwards make of state `st`: they only add to the events and both
   * histories, show the model at most two messages per round left, and send exactly one
   * terminal event. An error means the model failed on the history it was last shown. A
   * response carries the turn's tools and results and is the last stored message; its text
   * is either a reply without calls or the reply of the last allowed round.
   */
  predicate Concludes(st: TurnState, out: TurnState, llm: seq<Message> -> Option<string>, k: nat) {
    st.ledger.events <= out.ledger.events && st.history <= out.history && st.generation <= out.generation &&
    |out.generation| <= |st.generation| + 2 * (MaxIterations - k) &&
    EndsOnce(out.ledger.events) &&
    var last := out.ledger.events[|out.ledger.events| - 1];
    (last.ErrorEvent? ==> last.content == Tangled && llm(out.generation) == None) &&
    (last.Response? ==>
      last.toolsUsed == out.ledger.used && last.toolResults == out.ledger.results &&
      out.history != [] && out.history[|out.history| - 1] == AiMessage(last.text) &&
      ((DetectToolCalls(last.text) == [] && llm(out.generation) == Some(last.text)) ||
       (|out.generation| == |st.generation| + 2 * (MaxIterations - k) && |out.generation| >= 2 &&
        llm(out.generation[..|out.generation| - 2]) == Some(last.text))))
  }

  /** A failed model call ends the rounds with the error event. */
  lemma FailedConcludes(st: TurnState, llm: seq<Message> -> Option<string>, k: nat)
    requires k < MaxIterations && NoTerminal(st.ledger.events) && llm(st.generation) == None
    ensures Concludes(st, st.(ledger := Emit(st.ledger, [ErrorEvent(Tangled)])), llm, k)
  {
    var events := st.ledger.events + [ErrorEvent(Tangled)];
    assert events[..|events| - 1] == st.ledger.events;
  }

  /** A reply without calls ends the rounds as the response. */
  lemma ReplyConcludes(st: TurnState, l: Ledger, text: string, llm: seq<Message> -> Option<string>, k: nat)
    requires k < MaxIterations && st.ledger.events <= l.events && NoTerminal(l.events)
    requires llm(st.generation) == Some(text) && DetectToolCalls(text) == []
    ensures Concludes(st, TurnState(Emit(l, [Response(text, l.used, l.results)]), st.history + [AiMessage(text)], st.generation), llm, k)
  {
    var events := l.events + [Response(text, l.used, l.results)];
    assert events[..|events| - 1] == l.events;
  }

  /** After the last allowed round its reply is the response. */
  lemma LastRoundConcludes(st: TurnState, l: Ledger, text: string, report: seq<Message>,
                           llm: seq<Message> -> Option<string>, k: nat)
    requires k + 1 == MaxIterations && st.ledger.events <= l.events && NoTerminal(l.events)
    requires llm(st.generation) == Some(text) && |report| == 2
    ensures Concludes(st, TurnState(Emit(l, [Response(text, l.used, l.results)]),
                                    st.history + report + [AiMessage(text)], st.generation + report), llm, k)
  {
    var events := l.events + [Response(text, l.used, l.results)];
    assert events[..|events| - 1] == l.events;
    assert (st.generation + report)[..|st.generation|] == st.generation;
    assert st.history <= st.history + report + [AiMessage(text)];
  }

  /** A round that ran calls hands over to the next, two messages further on. */
  lemma NextRoundConcludes(st: TurnState, next: TurnState, out: TurnState, llm: seq<Message> -> Option<string>, k: nat)
    requires k + 1 < MaxIterations && Concludes(next, out, llm, k + 1)
    requires st.ledger.events <= next.ledger.events && st.history <= next.history
    requires st.generation <= next.generation && |next.generation| == |st.generation| + 2
    ensures Concludes(st, out, llm, k)
  {
  }

  lemma {:induction false} RoundConcludes(st: TurnState, tone: Tone, llm: seq<Message> -> Option<string>,
                                          execute: (nat, ToolCall) -> Json, k: nat)
    requires k < MaxIterations && NoTerminal(st.ledger.events)
    ensures Concludes(st, Round(st, tone, llm, execute, k), llm, k)
    decreases MaxIterations - k, 1
  {
    match llm(st.generation)
    case None =>
      FailedConcludes(st, llm, k);
    case Some(text) =>
      var l := Emit(st.ledger, Chunks(FilterEvents(text)));
      assert NoTerminal(l.events);
      var calls := ToCalls(DetectToolCalls(text));
      if calls == [] {
        ReplyConcludes(st, l, text, llm, k);
      } else {
        RunRoundConcludes(st, l, text, calls, tone, llm, execute, k);
      }
  }

  lemma {:induction false} RunRoundConcludes(st: TurnState, l: Ledger, text: string, calls: seq<ToolCall>, tone: Tone,
                                             llm: seq<Message> -> Option<string>, execute: (nat, ToolCall) -> Json, k: nat)
    requires k < MaxIterations && llm(st.generation) == Some(text)
    requires st.ledger.events <= l.events && NoTerminal(l.events)
    ensures Concludes(st, RunRound(st, l, text, calls, tone, llm, execute, k), llm, k)
    decreases MaxIterations - k, 0
  {
    var ran := RunCalls(l, calls, execute);
    RunCallsEvents(l, calls, execute);
    var report := [AiMessage(text), ToolReport(ran.results[|l.results|..], tone)];
    var l' := Emit(ran, [Status(Processing)]);
    if k + 1 == MaxIterations {
      LastRoundConcludes(st, l', text, report, llm, k);
    } else {
      var next := TurnState(l', st.history + report, st.generation + report);
      RoundConcludes(next, tone, llm, execute, k + 1);
      NextRoundConcludes(st, next, Round(next, tone, llm, execute, k + 1), llm, k);
    }
  }

  /** Rounds keep every signature run at most once and `tools_used` in step with the calls run. */
  lemma {:induction false} RoundTracked(st: TurnState, tone: Tone, llm: seq<Message> -> Option<string>,
                                        execute: (nat, ToolCall) -> Json, k: nat)
    requires k < MaxIterations && Tracked(st.ledger)
    ensures Tracked(Round(st, tone, llm, execute, k).ledger)
    decreases MaxIterations - k, 2
  {
    match llm(st.generation)
    case None =>
    case Some(text) =>
      var l := Emit(st.ledger, Chunks(FilterEvents(text)));
      var calls := ToCalls(DetectToolCalls(text));
      if calls != [] {
        RunRoundTracked(st, l, text, calls, tone, llm, execute, k);
      }
  }

  lemma {:induction false} RunRoundTracked(st: TurnState, l: Ledger, text: string, calls: seq<ToolCall>, tone: Tone,
                                           llm: seq<Message> -> Option<string>, execute: (nat, ToolCall) -> Json, k: nat)
    requires k < MaxIterations && Tracked(l)
    ensures Tracked(RunRound(st, l, text, calls, tone, llm, execute, k).ledger)
    decreases MaxIterations - k, 1
  {
    if k + 1 == MaxIterations {
      LastRoundTracked(st, l, text, calls, tone, llm, execute, k);
    } else {
      NextRoundTracked(st, l, text, calls, tone, llm, execute, k);
    }
  }

  lemma LastRoundTracked(st: TurnState, l: Ledger, text: string, calls: seq<ToolCall>, tone: Tone,
                         llm: seq<Message> -> Option<string>, execute: (nat, ToolCall) -> Json, k: nat)
    requires k + 1 == MaxIterations && Tracked(l)
    ensures Tracked(RunRound(st, l, text, calls, tone, llm, execute, k).ledger)
  {
    RunCallsEvents(l, calls, execute);
  }

  lemma {:induction false} NextRoundTracked(st: TurnState, l: Ledger, text: string, calls: seq<ToolCall>, tone: Tone,
                                            llm: seq<Message> -> Option<string>, execute: (nat, ToolCall) -> Json, k: nat)
    requires k + 1 < MaxIterations && Tracked(l)
    ensures Tracked(RunRound(st, l, text, calls, tone, llm, execute, k).ledger)
    decreases MaxIterations - k, 0
  {
    var ran := RunCalls(l, calls, execute);
    var report := [AiMessage(text), ToolReport(ran.results[|l.results|..], tone)];
    var next := TurnState(Emit(ran, [Status(Processing)]), st.history + report, st.generation + report);
    RunCallsEvents(l, calls, execute);
    RoundTracked(next, tone, llm, execute, k + 1);
  }

  /**
   * A turn starts with the "Consulting the runes" status and ends with exactly one response
   * or error after at most five tool rounds; every signature ran at most once and
   * `tools_used` lists the tools of the calls that ran.
   */
  lemma TurnConcludes(prior: seq<Message>, input: string, context: string, intensity: int,
                      llm: seq<Message> -> Option<string>, execute: (nat, ToolCall) -> Json)
    ensures var out := Turn(prior, input, context, intensity, llm, execute);
      Concludes(Start(prior, input, context, ToneOf(intensity)), out, llm, 0) &&
      out.ledger.events[0] == Status(Consulting) && Tracked(out.ledger)
  {
    var start := Start(prior, input, context, ToneOf(intensity));
    RoundConcludes(start, ToneOf(intensity), llm, execute, 0);
    RoundTracked(start, ToneOf(intensity), llm, execute, 0);
  }

  /** The assistant: a persona and one conversation history per user. */
  class MimirAI {
    const persona: string
    var histories: map<string, seq<Message>>

    constructor(persona: string)
      ensures this.persona == persona && histories == map[]
    {
      this.persona := persona;
      histories := map[];
    }

    /** `get_history`: a new user starts with only the persona's system message. */
    method GetHistory(userId: string) returns (h: seq<Message>)
      modifies this
      ensures h == HistoryOf(old(histories), userId, persona)
      ensures histories == old(histories)[userId := h]
    {
      if userId !in histories {
        histories := histories[userId := [SystemMessage(persona)]];
      }
      h := histories[userId];
    }

    /** `clear_history`: an existing user goes back to the system message; others are ignored. */
    method ClearHistory(userId: string)
      modifies this
      ensures userId in old(histories) ==> histories == old(histories)[userId := [SystemMessage(persona)]]
      ensures userId !in old(histories) ==> histories == old(histories)
    {
      if userId in histories {
        histories := histories[userId := [SystemMessage(persona)]];
      }
    }

    /**
     * `generate_response_stream`: the events of one turn, with the user's history extended
     * by the turn's messages and every other history unchanged.
     */
    method GenerateResponseStream(input: string, context: string, intensity: int, userId: string,
                                  llm: seq<Message> -> Option<string>, execute: (nat, ToolCall) -> Json)
      returns (events: seq<Event>)
      modifies this
      ensures var out := Turn(HistoryOf(old(histories), userId, persona), input, context, intensity, llm, execute);
        events == out.ledger.events && histories == old(histories)[userId := out.history]
    {
      var tone := ToneOf(intensity);
      var history := GetHistory(userId);
      var generation := history + [Prompt(input, context, tone)];
      history := history + [HumanMessage(input)];
      histories := histories[userId := history];
      var st := TurnState(Ledger([], [], [], [Status(Consulting)]), history, generation);
      assert st == Start(HistoryOf(old(histories), userId, persona), input, context, tone);
      st := PlayRounds(st, tone, llm, execute);
      histories := histories[userId := st.history];
      events := st.ledger.events;
    }
  }
}
