/**
 * The HTTP layer of the backend (`backend/main.py`): the bearer-token authentication
 * middleware, the profile endpoints, and the `/chat` endpoint's stream, which turns each event
 * of the assistant's turn into one line of newline-delimited JSON and records the exchange in
 * memory and in the daily journal.
 *
 * Google's token verification is the parameter `verify`, text-to-speech the parameter
 * `speak`, and `json.dumps` the parameter `dumps`; the configured client id is `clientId`,
 * with "" standing for an unset one.
 */
module Api {
  import opened Wrappers
  import opened Text
  import opened Json
  import UserProfiles
  import MimirAi
  import DailyJournal
  import ChatPage

  // ---------------------------------------------------------------------------------------
  // Authentication
  // ---------------------------------------------------------------------------------------

  /** What the middleware looks at: the method, the path and the `Authorization` header. */
  datatype Request = Request(verb: string, path: string, authorization: Option<string>)

  /** The claims of a token Google accepted. */
  datatype Claims = Claims(sub: string, email: Option<string>)

  /**
   * What `verify_oauth2_token` does with a token: returns its claims, raises `ValueError`
   * (which `verify_google_token` turns into None), or raises anything else, which nothing
   * catches.
   */
  datatype Verification = Verified(claims: Claims) | Refused | Raised

  /**
   * The middleware's decision: pass the request on without a user, pass it on as a user, or
   * answer it with an error status and message.
   */
  datatype Decision = Bypass | Admitted(userId: string, email: string) | Rejected(status: int, error: string)

  const DevUser: string := "dev_user_123"
  const DevEmail: string := "dev@example.com"
  const Bearer: string := "Bearer "
  const MissingToken: string := "Missing or invalid token"
  const InvalidToken: string := "Invalid token"
  /** The body of the response Starlette sends for an exception nothing handled. */
  const ServerError: string := "Internal Server Error"

  /** Requests let through unauthenticated: CORS preflights, the health check and the docs. */
  predicate Open(req: Request) {
    req.verb == "OPTIONS" || req.path in ["/", "/docs", "/openapi.json"]
  }

  lemma BearerSplits(header: string)
    requires StartsWith(header, Bearer)
    ensures var p := Split(header, " ");
      |p| >= 2 && p[0] == "Bearer" && p[1..] == Split(header[7..], " ")
  {
    assert header[..7] == Bearer;
    assert OccursAt(header, " ", 6) by {
      assert header[6..7] == header[..7][6..7];
    }
    forall k | 0 <= k < 6
      ensures !OccursAt(header, " ", k)
    {
      assert header[k] == Bearer[k];
    }
    assert IndexOf(header, " ") == Some(6);
    assert header[..6] == "Bearer" by {
      assert header[..6] == header[..7][..6];
    }
  }

  /** `auth_header.split(' ')[1]`: the second space-separated field of the header. */
  function Token(header: string): string
    requires StartsWith(header, Bearer)
  {
    BearerSplits(header);
    Split(header, " ")[1]
  }

  /**
   * The token is everything after "Bearer " up to the next space or the end: it holds no
   * space, and the header carries it right after the scheme.
   */
  lemma TokenShape(header: string)
    requires StartsWith(header, Bearer)
    ensures var t := Token(header);
      !Contains(t, " ") && StartsWith(header, Bearer + t) &&
      (|header| == |Bearer| + |t| || header[|Bearer| + |t|] == ' ')
  {
    BearerSplits(header);
    var rest := header[7..];
    FirstField(rest);
    var t := Token(header);
    assert t == Split(rest, " ")[0];
    assert header == Bearer + rest by {
      assert header[..7] == Bearer;
    }
    assert header[..|Bearer| + |t|] == Bearer + rest[..|t|];
  }

  /** The first field of a split holds no separator and is followed by one, or ends the text. */
  lemma FirstField(s: string)
    ensures var t := Split(s, " ")[0];
      !Contains(t, " ") && |t| <= |s| && s[..|t|] == t && (|s| == |t| || s[|t|] == ' ')
  {
    var p := Split(s, " ");
    if |p| > 1 {
      assert s == p[0] + " " + Join(p[1..], " ");
      assert s[..|p[0]|] == p[0];
    }
  }

  /**
   * `auth_middleware`: preflights and open paths bypass authentication; without a client id
   * every request is the development user; otherwise the request needs a "Bearer " header
   * (the form of section 2.1 of RFC 6750) whose token Google verifies, and is then the
   * token's subject, with its email or "". A verification that raises something other than
   * `ValueError` escapes the middleware and becomes a 500.
   */
  function Authenticate(req: Request, clientId: string, verify: string -> Verification): (r: Decision)
    ensures r.Bypass? <==> Open(req)
    ensures r.Rejected? ==> (r.status == 401 || r.status == 500) && clientId != ""
    ensures !Open(req) && clientId == "" ==> r == Admitted(DevUser, DevEmail)
    ensures !Open(req) && clientId != "" ==>
      ((r.Rejected? && r.status == 401) <==>
        req.authorization.None? || !StartsWith(req.authorization.value, Bearer) ||
        verify(Token(req.authorization.value)).Refused?)
    ensures !Open(req) && clientId != "" ==>
      ((r.Rejected? && r.status == 500) <==>
        req.authorization.Some? && StartsWith(req.authorization.value, Bearer) &&
        verify(Token(req.authorization.value)).Raised?)
    ensures r.Admitted? && clientId != "" ==>
      req.authorization.Some? && StartsWith(req.authorization.value, Bearer) &&
      verify(Token(req.authorization.value)).Verified? &&
      r.userId == verify(Token(req.authorization.value)).claims.sub &&
      r.email == verify(Token(req.authorization.value)).claims.email.GetOr("")
  {
    if Open(req) then Bypass
    else if clientId == "" then Admitted(DevUser, DevEmail)
    else match req.authorization
      case None => Rejected(401, MissingToken)
      case Some(header) =>
        if !StartsWith(header, Bearer) then Rejected(401, MissingToken)
        else match verify(Token(header))
          case Refused => Rejected(401, InvalidToken)
          case Raised => Rejected(500, ServerError)
          case Verified(claims) => Admitted(claims.sub, claims.email.GetOr(""))
  }

  /** A header whose token Google accepts admits its subject on every path that is not open. */
  lemma VerifiedTokenAdmits(req: Request, clientId: string, verify: string -> Verification, token: string, claims: Claims)
    requires !Open(req) && clientId != ""
    requires req.authorization == Some(Bearer + token) && !Contains(token, " ")
    requires verify(token) == Verified(claims)
    ensures Authenticate(req, clientId, verify) == Admitted(claims.sub, claims.email.GetOr(""))
  {
    var header := Bearer + token;
    assert header[..|Bearer|] == Bearer;
    TokenShape(header);
    var t := Token(header);
    assert header[|Bearer|..] == token;
    if |t| < |token| {
      assert header[|Bearer| + |t|] == ' ';
      assert token[|t|..|t| + 1] == " ";
      assert OccursAt(token, " ", |t|);
    }
    assert t == token by {
      assert header[..|Bearer| + |t|] == Bearer + t;
    }
  }

  // ---------------------------------------------------------------------------------------
  // Profile endpoints
  // ---------------------------------------------------------------------------------------

  datatype HttpError = HttpError(status: int, detail: string)

  const UserNotFound: HttpError := HttpError(404, "User not found")
  const NameRequired: HttpError := HttpError(400, "Display name is required")
  const NotOnboarded: HttpError := HttpError(403, "User not onboarded")

  /** `/user/me`: the caller's profile, or 404 when they have none. */
  function CurrentUser(profiles: map<string, UserProfiles.UserProfile>, authId: string)
    : (r: Result<UserProfiles.UserProfile, HttpError>)
    ensures r.Ok? <==> authId in profiles
    ensures r.Ok? ==> r.value == profiles[authId]
    ensures r.Err? ==> r.error.status == 404
  {
    if authId in profiles then Ok(profiles[authId]) else Err(UserNotFound)
  }

  /**
   * `/user/onboard`: a display name that is blank after stripping is refused with 400 and
   * nothing is stored; any other name, kept as given, creates the caller's profile.
   */
  method Onboard(users: UserProfiles.UserManager, authId: string, email: string, displayName: string, now: string)
    returns (r: Result<UserProfiles.UserProfile, HttpError>)
    modifies users
    ensures IsBlank(displayName) ==>
      r == Err(NameRequired) && users.profiles == old(users.profiles) && users.file == old(users.file)
    ensures !IsBlank(displayName) ==>
      r == Ok(UserProfiles.UserProfile(authId, email, displayName, now)) &&
      users.profiles == old(users.profiles)[authId := r.value] &&
      users.file == UserProfiles.Saved(UserProfiles.Encoded(users.profiles))
  {
    if Trim(displayName) == [] {
      return Err(NameRequired);
    }
    var profile := users.CreateProfile(authId, email, displayName, now);
    return Ok(profile);
  }

  /**
   * What the `/chat` endpoint's blanket handler answers for an exception it catches: 500,
   * with the exception's text, which for an HTTP error is "<status>: <detail>".
   */
  function Reraised(e: HttpError): (r: HttpError)
    ensures r.status == 500
  {
    HttpError(500, IntToString(e.status) + ": " + e.detail)
  }

  /**
   * `/chat` before streaming: the caller's display name, or, without a profile, the 403 the
   * endpoint raises, which its own handler turns into a 500.
   */
  function ChatAdmission(profiles: map<string, UserProfiles.UserProfile>, authId: string): (r: Result<string, HttpError>)
    ensures r.Ok? <==> authId in profiles
    ensures r.Ok? ==> r.value == profiles[authId].displayName
    ensures r.Err? ==> r.error == Reraised(NotOnboarded)
  {
    if authId in profiles then Ok(profiles[authId].displayName) else Err(Reraised(NotOnboarded))
  }

  /** A `/chat` caller without a profile receives 500 "403: User not onboarded", never a 403. */
  lemma NeverForbidden(profiles: map<string, UserProfiles.UserProfile>, authId: string)
    requires authId !in profiles
    ensures ChatAdmission(profiles, authId) == Err(HttpError(500, "403: User not onboarded"))
  {
    assert IntToString(403) == "403" by {
      assert DigitChar(4) == '4' && DigitChar(0) == '0' && DigitChar(3) == '3';
      assert NatToString(4) == "4";
      assert NatToString(40) == NatToString(4) + [DigitChar(0)] == "40";
      assert NatToString(403) == NatToString(40) + [DigitChar(3)] == "403";
    }
    assert Reraised(NotOnboarded).detail == "403" + ": " + "User not onboarded";
    assert "403" + ": " + "User not onboarded" == "403: User not onboarded";
  }

  // ---------------------------------------------------------------------------------------
  // The chat stream
  // ---------------------------------------------------------------------------------------

  /** One tool result as the turn reports it: `{"tool": ..., "result": ...}`. */
  function ToolResultJson(t: MimirAi.ToolResult): (r: Json)
    ensures r.JObj? && r.fields.Keys == {"tool", "result"}
  {
    JObj(map["tool" := JStr(t.tool), "result" := MimirAi.ResultJson(t.outcome)])
  }

  function ToolResultsJson(ts: seq<MimirAi.ToolResult>): (r: seq<Json>)
    ensures |r| == |ts|
    ensures forall k | 0 <= k < |r| :: r[k] == ToolResultJson(ts[k])
  {
    if ts == [] then [] else [ToolResultJson(ts[0])] + ToolResultsJson(ts[1..])
  }

  /** The dict the assistant's turn yields for an event. */
  function EventJson(e: MimirAi.Event): Json {
    match e
    case Status(notice) => JObj(map["type" := JStr("status"), "content" := JStr(MimirAi.NoticeText(notice))])
    case ResponseChunk(text) => JObj(map["type" := JStr("response_chunk"), "text" := JStr(text)])
    case ToolCallEvent(tool, params) =>
      JObj(map["type" := JStr("tool_call"), "tool" := JStr(tool), "params" := JObj(map k | k in params :: JStr(params[k]))])
    case Response(text, used, results) =>
      JObj(map["type" := JStr("response"), "text" := JStr(text), "tools_used" := JArr(Strs(used)),
               "tool_results" := JArr(ToolResultsJson(results))])
    case ErrorEvent(content) => JObj(map["type" := JStr("error"), "content" := JStr(content)])
  }

  function AudioJson(audio: Option<string>): Json {
    match audio
    case Some(b64) => JStr(b64)
    case None => JNull
  }

  /**
   * The object sent for an event: a final response is rebuilt with the base64 audio of its
   * text (null without audio); every other event goes out as the turn yielded it.
   */
  function Relayed(e: MimirAi.Event, audio: Option<string>): (r: Json)
    ensures !e.Response? ==> r == EventJson(e)
  {
    match e
    case Response(text, used, results) =>
      JObj(map["type" := JStr("response"), "text" := JStr(text), "audio_base64" := AudioJson(audio),
               "tools_used" := JArr(Strs(used)), "tool_results" := JArr(ToolResultsJson(results))])
    case _ => EventJson(e)
  }

  /** A final response goes out as the turn yielded it with "audio_base64" added. */
  lemma RelayedAddsAudio(e: MimirAi.Event, audio: Option<string>)
    requires e.Response?
    ensures Relayed(e, audio) == JObj(EventJson(e).fields["audio_base64" := AudioJson(audio)])
  {
    var m := EventJson(e).fields;
    var keys := ["type", "text", "tools_used", "tool_results"];
    assert m.Keys == {"type", "text", "tools_used", "tool_results"};
    assert "audio_base64" !in m.Keys by {
      assert "audio_base64"[0] != "type"[0] && "audio_base64"[0] != "text"[0];
      assert "audio_base64"[0] != "tools_used"[0] && "audio_base64"[0] != "tool_results"[0];
    }
    assert Relayed(e, audio).fields == m["audio_base64" := AudioJson(audio)];
  }

  /** The line sent when the stream's own work raises; it ends the stream. */
  const Failure: Json := JObj(map["type" := JStr("error"), "text" := JStr("The threads of fate are tangled. I cannot respond.")])

  /** What the stream records besides its lines: a journal entry or a memory. */
  datatype Record = Logged(kind: string, content: DailyJournal.Content) | Remembered(text: string)

  /**
   * The records of a final response: the exchange remembered (its two halves joined by a
   * backslash and an "n", as the source's escaped f-string writes them), the reply logged,
   * and the tools logged when any were used.
   */
  function ResponseRecords(message: string, text: string, used: seq<string>, results: seq<MimirAi.ToolResult>): seq<Record> {
    [Remembered("User: " + message + "\\nMIMIR: " + text), Logged("chat", DailyJournal.Text("MIMIR: " + text))] +
    (if used != [] then [Logged("tool_use", DailyJournal.ToolUse(used, ToolResultsJson(results)))] else [])
  }

  function AudioFor(e: MimirAi.Event, speak: string -> Option<string>): Option<string> {
    if e.Response? then speak(e.text) else None
  }

  function RecordsFor(message: string, e: MimirAi.Event): seq<Record> {
    if e.Response? then ResponseRecords(message, e.text, e.toolsUsed, e.toolResults) else []
  }

  /** The lines relayed for the events, in order. */
  function Relays(events: seq<MimirAi.Event>, speak: string -> Option<string>): seq<Json> {
    if events == [] then []
    else
      var last := events[|events| - 1];
      Relays(events[..|events| - 1], speak) + [Relayed(last, AudioFor(last, speak))]
  }

  /**
   * The lines sent: the relayed events, then the failure line when `raised` says the stream's
   * own work raised after them.
   */
  function Lines(events: seq<MimirAi.Event>, raised: bool, speak: string -> Option<string>): seq<Json> {
    Relays(events, speak) + (if raised then [Failure] else [])
  }

  /** The records written for the events, in order. */
  function Records(message: string, events: seq<MimirAi.Event>): seq<Record> {
    if events == [] then []
    else Records(message, events[..|events| - 1]) + RecordsFor(message, events[|events| - 1])
  }

  /** The whole stream: the user's message is logged first, then the events are relayed. */
  function ChatStream(message: string, events: seq<MimirAi.Event>, raised: bool, speak: string -> Option<string>)
    : (seq<Json>, seq<Record>)
  {
    (Lines(events, raised, speak), [Logged("chat", DailyJournal.Text("User: " + message))] + Records(message, events))
  }

  /**
   * One event of `event_generator`: a final response is remembered, logged with its tools,
   * voiced and rebuilt with its audio; any other event is sent as it is.
   */
  method RelayEvent(message: string, event: MimirAi.Event, speak: string -> Option<string>)
    returns (line: Json, written: seq<Record>)
    ensures line == Relayed(event, AudioFor(event, speak))
    ensures written == RecordsFor(message, event)
  {
    if event.Response? {
      written := [Remembered("User: " + message + "\\nMIMIR: " + event.text),
                  Logged("chat", DailyJournal.Text("MIMIR: " + event.text))];
      if event.toolsUsed != [] {
        written := written + [Logged("tool_use", DailyJournal.ToolUse(event.toolsUsed, ToolResultsJson(event.toolResults)))];
      }
      var audio := speak(event.text);
      line := Relayed(event, audio);
    } else {
      written := [];
      line := Relayed(event, None);
    }
  }

  /**
   * `event_generator`: the user's message is logged, the turn's events are relayed one by
   * one, and the failure line is sent when the stream's own work raises.
   */
  method EventGenerator(message: string, events: seq<MimirAi.Event>, raised: bool, speak: string -> Option<string>)
    returns (lines: seq<Json>, records: seq<Record>)
    ensures (lines, records) == ChatStream(message, events, raised, speak)
  {
    records := [Logged("chat", DailyJournal.Text("User: " + message))];
    var relayed := [];
    lines := [];
    for i := 0 to |events|
      invariant lines == Relays(events[..i], speak)
      invariant relayed == Records(message, events[..i])
    {
      var line, written := RelayEvent(message, events[i], speak);
      assert events[..i + 1][..i] == events[..i];
      lines := lines + [line];
      relayed := relayed + written;
    }
    assert events[..|events|] == events;
    if raised {
      lines := lines + [Failure];
    } else {
      assert lines == lines + [];
    }
    records := records + relayed;
  }

  /**
   * One line per event, in order, each the relayed event; the failure line comes last and
   * only when the stream raised.
   */
  lemma LinesShape(events: seq<MimirAi.Event>, raised: bool, speak: string -> Option<string>)
    ensures var lines := Lines(events, raised, speak);
      |lines| == |events| + (if raised then 1 else 0) &&
      (forall i | 0 <= i < |events| :: lines[i] == Relayed(events[i], AudioFor(events[i], speak))) &&
      (raised ==> lines[|events|] == Failure)
  {
    RelaysShape(events, speak);
  }

  lemma {:induction false} RelaysShape(events: seq<MimirAi.Event>, speak: string -> Option<string>)
    ensures |Relays(events, speak)| == |events|
    ensures forall i | 0 <= i < |events| :: Relays(events, speak)[i] == Relayed(events[i], AudioFor(events[i], speak))
  {
    if events != [] {
      var init := events[..|events| - 1];
      RelaysShape(init, speak);
      assert forall i | 0 <= i < |init| :: init[i] == events[i];
    }
  }

  /** A record the journal's error count sees nothing in: any tool entry's results hold no error. */
  predicate Uncounted(r: Record) {
    r.Logged? && r.content.ToolUse? ==> DailyJournal.ErrorsIn(r.content.results) == 0
  }

  /**
   * Every tool entry the chat writes to the journal holds the turn's `{"tool", "result"}`
   * wrappers, which the journal's error count never counts as errors: tool errors reported
   * through the chat never reach the day's statistics.
   */
  lemma ChatToolErrorsUncounted(message: string, events: seq<MimirAi.Event>, raised: bool, speak: string -> Option<string>)
    ensures var records := ChatStream(message, events, raised, speak).1;
      forall i | 0 <= i < |records| :: Uncounted(records[i])
  {
    RecordsUncounted(message, events);
    var first := Logged("chat", DailyJournal.Text("User: " + message));
    var rest := Records(message, events);
    assert forall i | 0 < i < |[first] + rest| :: ([first] + rest)[i] == rest[i - 1];
  }

  lemma {:induction false} RecordsUncounted(message: string, events: seq<MimirAi.Event>)
    ensures forall i | 0 <= i < |Records(message, events)| :: Uncounted(Records(message, events)[i])
  {
    if events != [] {
      RecordsUncounted(message, events[..|events| - 1]);
      var head := Records(message, events[..|events| - 1]);
      var rest := RecordsFor(message, events[|events| - 1]);
      RecordsForUncounted(message, events[|events| - 1]);
      assert Records(message, events) == head + rest;
      forall i | 0 <= i < |head + rest|
        ensures Uncounted((head + rest)[i])
      {
        if i < |head| {
          assert (head + rest)[i] == head[i];
        } else {
          assert (head + rest)[i] == rest[i - |head|];
        }
      }
    }
  }

  lemma RecordsForUncounted(message: string, e: MimirAi.Event)
    ensures forall i | 0 <= i < |RecordsFor(message, e)| :: Uncounted(RecordsFor(message, e)[i])
  {
    if e.Response? && e.toolsUsed != [] {
      DailyJournal.WrappedResultsNotErrors(ToolResultsJson(e.toolResults));
    }
  }

  // ---------------------------------------------------------------------------------------
  // Framing, as the client reads it
  // ---------------------------------------------------------------------------------------

  /** The response body: each line's JSON text followed by a newline. */
  function Body(lines: seq<Json>, dumps: Json -> string): string {
    if lines == [] then "" else dumps(lines[0]) + "\n" + Body(lines[1..], dumps)
  }

  function Texts(lines: seq<Json>, dumps: Json -> string): (r: seq<string>)
    ensures |r| == |lines|
    ensures forall k | 0 <= k < |r| :: r[k] == dumps(lines[k])
  {
    if lines == [] then [] else [dumps(lines[0])] + Texts(lines[1..], dumps)
  }

  lemma {:induction false} BodyJoin(lines: seq<Json>, dumps: Json -> string)
    ensures Body(lines, dumps) == Join(Texts(lines, dumps) + [""], "\n")
  {
    if lines != [] {
      BodyJoin(lines[1..], dumps);
      var t := Texts(lines, dumps) + [""];
      assert t[1..] == Texts(lines[1..], dumps) + [""];
    }
  }

  /**
   * Since JSON text without indentation holds no raw newline, the client's line buffer splits
   * the body back into exactly the lines sent, in order, and is left empty at the end.
   */
  lemma ClientRecoversLines(lines: seq<Json>, dumps: Json -> string)
    requires forall j :: !ContainsChar(dumps(j), '\n')
    ensures ChatPage.CompleteLines(Body(lines, dumps)) == Texts(lines, dumps)
    ensures ChatPage.Pending(Body(lines, dumps)) == ""
  {
    BodyJoin(lines, dumps);
    var items := Texts(lines, dumps) + [""];
    forall k | 0 <= k < |items|
      ensures !ContainsChar(items[k], "\n"[0])
    {
      if k < |lines| {
        assert items[k] == dumps(lines[k]);
      }
    }
    SplitJoin(items, "\n");
  }

  /**
   * The client reads a relayed final response with the tools and results the turn reported;
   * the audio the line carries is not read, so the page plays none of it.
   */
  lemma ClientReadsResponse(e: MimirAi.Event, audio: Option<string>)
    requires e.Response?
    ensures ChatPage.Decode(Relayed(e, audio)) ==
      ChatPage.FinalResponse(e.text, Some(ChatPage.ToolReport(Strs(e.toolsUsed), ToolResultsJson(e.toolResults))))
    ensures ChatPage.Decode(Relayed(e, audio)) == ChatPage.Decode(Relayed(e, None))
  {
    ResponseLineFields(e, audio);
    ResponseLineFields(e, None);
    assert "response" != "status" && "response" != "audio_chunk" by {
      assert |"response"| != |"status"| && |"response"| != |"audio_chunk"|;
    }
    assert "response" != "response_chunk" by {
      assert |"response"| != |"response_chunk"|;
    }
  }

  lemma ResponseLineFields(e: MimirAi.Event, audio: Option<string>)
    requires e.Response?
    ensures var j := Relayed(e, audio);
      GetStr(j, "type") == Some("response") && GetStr(j, "text") == Some(e.text) &&
      Get(j, "tools_used") == Some(JArr(Strs(e.toolsUsed))) &&
      Get(j, "tool_results") == Some(JArr(ToolResultsJson(e.toolResults))) &&
      Get(j, "audio_base64") == Some(AudioJson(audio))
  {
    assert "text" != "type" by { assert "text"[1] != "type"[1]; }
  }

  /** The client reads relayed statuses and chunks as such. */
  lemma ClientReadsProgress(e: MimirAi.Event, audio: Option<string>)
    ensures e.Status? ==> ChatPage.Decode(Relayed(e, audio)) == ChatPage.StatusUpdate(Some(MimirAi.NoticeText(e.notice)))
    ensures e.ResponseChunk? ==> ChatPage.Decode(Relayed(e, audio)) == ChatPage.ResponseChunk(e.text)
  {
    var j := Relayed(e, audio);
    if e.Status? {
      assert GetStr(j, "type") == Some("status");
      assert GetStr(j, "content") == Some(MimirAi.NoticeText(e.notice));
    } else if e.ResponseChunk? {
      assert GetStr(j, "type") == Some("response_chunk");
      assert "response_chunk" != "status" && "response_chunk" != "audio_chunk" by {
        assert |"response_chunk"| != |"status"| && |"response_chunk"| != |"audio_chunk"|;
      }
      assert GetStr(j, "text") == Some(e.text) by {
        assert "text" != "type" by { assert "text"[1] != "type"[1]; }
      }
    }
  }

  /**
   * Tool-call events, the turn's error event and the stream's failure line match none of the
   * client's branches: it ignores them, so a failed turn shows no message.
   */
  lemma ClientIgnoresErrors(e: MimirAi.Event, audio: Option<string>)
    ensures e.ToolCallEvent? || e.ErrorEvent? ==> ChatPage.Decode(Relayed(e, audio)) == ChatPage.Unhandled
    ensures ChatPage.Decode(Failure) == ChatPage.Unhandled
  {
    assert "error" !in {"status", "response_chunk", "audio_chunk", "response"} by {
      assert "error"[0] != "status"[0] && "error"[0] != "audio_chunk"[0];
      assert |"error"| != |"response_chunk"| && |"error"| != |"response"|;
    }
    assert GetStr(Failure, "type") == Some("error");
    var j := Relayed(e, audio);
    if e.ToolCallEvent? {
      assert GetStr(j, "type") == Some("tool_call");
      assert "tool_call" !in {"status", "response_chunk", "audio_chunk", "response"} by {
        assert |"tool_call"| == 9;
      }
    } else if e.ErrorEvent? {
      assert GetStr(j, "type") == Some("error");
    }
  }
}
