# MIMIR core in Dafny

MIMIR is a voice and chat assistant. A FastAPI backend authenticates a bearer token and streams
each chat turn to the browser as newline-delimited JSON. In a turn, the language model's reply
may contain `[TOOL:name|key=value|...]` markers: the backend hides them from the streamed text,
runs the tools they name and feeds the results back for up to five rounds. The tools cover the
weather, the calendar (stored locally or converted to and from Google Calendar's format),
recipes for a cooking mode, news, memory recall and a daily journal. A Next.js page reads the
stream, keeps the transcript, plays the audio and drives a 3D avatar, a news ticker, a cooking
view and two calendar grids.

This project models that logic with the network, the language model, the speech service, the
vector store, the file system and the clocks turned into parameters. There is one module per
source file:

- `ChatPage`: the chat page's send handler, its line buffer, its transcript updates (chunk
  appends, final overwrite) and its single-flight audio queue.
- `ToolProtocol`: the tool-marker recogniser, the parameter parser and the character-level
  filter that hides markers from streamed text.
- `MimirAi`: the personality bands, the system prompt, the dispatch of a tool call, loop
  detection by call signature, the five-round bound, the events a turn emits, and per-user
  history.
- `Tools`: the time-stamped tool cache, the weather forecast aggregation, and the cooking tools.
- `Calendar`: the per-user event store (range query, create, update, delete) and the calendar
  search, update and delete tools.
- `GoogleCalendar`: the conversions between MIMIR's event records and Google's.
- `DailyJournal`: user-id sanitising, the interaction log, the once-a-day evening prompt and the
  journal statistics.
- `Memory`: the per-user store directory, remembering with metadata, bounded recall and the
  deletion guard.
- `News`: the fifteen-minute news cache, title clean-up and item defaults.
- `UserProfiles`: the profile map with its load, save, create and update.
- `Api`: the auth middleware's decision, onboarding validation, the `/chat` error mapping and
  the re-serialisation of turn events into stream lines.
- `Avatar`: the avatar's audio FIFO and its spoken-word buffer.
- `NewsFeed`, `CookingView`, `CalendarView`, `RightSidebar`: the news rotation window, step
  clamping, and the 42-cell and 35-cell month grids.
- Helper modules: `Wrappers` (Option and Result), `Text` (trimming, searching, splitting,
  decimal digits), `Json` (JSON values), `Dates` (calendar dates, times and day arithmetic)
  and `Sorting` (a stable sort by a total preorder, as Python's `sorted` does).

Code that keeps state in objects, dictionaries or lists it updates step by step (the managers,
the caches, the page's refs and the avatar) is a Dafny `class` whose methods are proved against
functions over its state. The pure parts (the parsers, the converters, the grid cells) are
functions with lemmas. A behaviour the source has but evidently does not intend is modelled as
written and stated by a lemma named after it, for example `Memory.LegacyGuardBypassed`,
`RightSidebar.NumberPastMonthEnd`, `Api.ChatToolErrorsUncounted` and
`ChatPage.SpeakingClearedWhilePlaying`.

Where the code departs from the design it documents, the model follows the code. In particular:

- the backend sends a turn's audio inside the final `response` line, while the page plays only
  `audio_chunk` lines, which the backend never sends (`Api.ClientReadsResponse`);
- the journal counts tool errors by looking at `{"tool", "result"}` records, but the chat
  endpoint wraps each result so none is ever counted (`Api.RecordsUncounted`);
- the news ticker's start index is not reset when the list changes;
- the sidebar's mini-grid numbers days up to 31 whatever the month's length.

## Model

| member | source | states |
|---|---|---|
| ToolProtocol.WordRun | backend/core/ai.py:149 | `(\w+)` is greedy: the run stays in the text, holds only word characters and stops at the end or at a non-word character |
| ToolProtocol.CharFrom | backend/core/ai.py:149 | `[^\]]*\]` stops at the first `]`: the position found holds the character and none before it does; nothing is found when it does not occur |
| ToolProtocol.MatchAt | backend/core/ai.py:149 | a match at a position ends after it, inside the text |
| ToolProtocol.MatchName | backend/core/ai.py:149 | a match of the name and arguments ends after its start, inside the text |
| ToolProtocol.MatchRest | backend/core/ai.py:149 | a match of `]` or of `\|args]` ends after the name, inside the text |
| ToolProtocol.MatchWellFormed | backend/core/ai.py:149 | every match has a non-empty word name and arguments without `]` |
| ToolProtocol.ScanWellFormed | backend/core/ai.py:147-150 | every match `finditer` produces from a position is well formed |
| ToolProtocol.DetectToolCalls | backend/core/ai.py:147-150 | `detect_tool_calls` returns well-formed markers only |
| ToolProtocol.MatchAtShift | backend/core/ai.py:147-150 | a match inside a suffix does not depend on the text before it |
| ToolProtocol.OpensAtShift | backend/core/ai.py:149 | whether `[TOOL:` starts at a position of a suffix does not depend on the text before it |
| ToolProtocol.ScanShift | backend/core/ai.py:147-150 | scanning a suffix gives the same matches whatever precedes it |
| ToolProtocol.ScanAfterMatch | backend/core/ai.py:147-150 | after a match that covers exactly a prefix, `finditer` goes on with the suffix alone |
| ToolProtocol.MatchMarker | backend/core/ai.py:149 | a well-formed marker at the front of the text is matched whole, with its name and arguments |
| ToolProtocol.ScanMarker | backend/core/ai.py:147-150 | a well-formed marker followed by text yields that call first, then the matches of the text |
| ToolProtocol.DetectMarkers | backend/core/ai.py:147-150 | the markers of well-formed calls written one after another are detected as exactly those calls, in order |
| ToolProtocol.NoMarkerNoCalls | backend/core/ai.py:147-150 | text where `[TOOL:` never occurs holds no calls |
| ToolProtocol.ParseToolCall | backend/core/ai.py:152-168 | the loop over the `\|`-separated pieces builds the dictionary of the parsed call: each piece with `=` sets its stripped key to its stripped value, a piece without `=` is skipped |
| ToolProtocol.AddParam | backend/core/ai.py:159-163 | one piece: split at its first `=` into a stripped key and a stripped value that set the entry, a piece without `=` leaving the dictionary as it was |
| ToolProtocol.ParamsOfStep | backend/core/ai.py:159-163 | the dictionary after one more piece is the previous one extended by that piece |
| ToolProtocol.ParamOfText | backend/core/ai.py:161-163 | a `key=value` piece with stripped key and value, the key without `=`, splits back into the same key and value |
| ToolProtocol.ParamsKeys | backend/core/ai.py:159-163 | the keys parsed from written pieces are exactly the keys written |
| ToolProtocol.ParamsLast | backend/core/ai.py:159-163 | a key holds the value of its last piece: a later duplicate key overwrites an earlier one |
| ToolProtocol.ParamsRoundTrip | backend/core/ai.py:152-168 | parameters written as `key=value` pieces joined by `\|` parse back to a dictionary with exactly those keys, each holding its last value |
| ToolProtocol.FilterChar | backend/core/ai.py:409-428 | one character: outside a group it is streamed alone or `[` opens a group; inside a group it is held back until the `]` that decides the group; what was streamed plus what the filter streams from the held group on stays the same |
| ToolProtocol.CloseAt | backend/core/ai.py:411-423 | a `]` that closes a held group drops the group when it starts with `[TOOL:` and streams it whole otherwise, and the filter restarts after it |
| ToolProtocol.OpenAtEnd | backend/core/ai.py:430-432 | a group still open when the reply ends is streamed whole |
| ToolProtocol.FilterRound | backend/core/ai.py:398-432 | the character loop of one round, with the held-back group, streams exactly the chunks of the filter's definition |
| ToolProtocol.FilterShift | backend/core/ai.py:409-428 | what the filter streams from a position depends only on the text from that position on |
| ToolProtocol.GroupOpensAt | backend/core/ai.py:414-421 | a group that does not start with `[TOOL:` is never dropped |
| ToolProtocol.PassThroughFrom | backend/core/ai.py:409-432 | without `[TOOL:` from a position on, the chunks streamed from there run together to the rest of the text |
| ToolProtocol.FilterPassThrough | backend/core/ai.py:398-432 | a reply without `[TOOL:` streams as itself |
| ToolProtocol.PlainPrefixFrom | backend/core/ai.py:409-428 | text without `[` streams one chunk per character and does not change what the text after it streams |
| ToolProtocol.FilterPlainPrefix | backend/core/ai.py:409-428 | text without `[` streams character by character, independently of what follows |
| ToolProtocol.MarkerCloses | backend/core/ai.py:149 | the marker of a well-formed call is longer than `[TOOL:` and its only `]` is its last character |
| ToolProtocol.FilterHidesMarker | backend/core/ai.py:409-423 | a well-formed marker is hidden completely and the filter starts afresh after it |
| ToolProtocol.HiddenGroup | backend/core/ai.py:411-418 | a group starting with `[TOOL:` whose only `]` is its last character streams nothing |
| ToolProtocol.FilterAroundMarker | backend/core/ai.py:398-432 | plain text, a marker and more text stream as the text around the marker |
| Tools.ToolCache.constructor | backend/core/tools.py:21 | the weather cache starts empty |
| Tools.ToolCache.Get | backend/core/tools.py:23-29 | a value comes back exactly when the key is stored and younger than the age limit (strictly), and it is the stored value |
| Tools.ToolCache.Set | backend/core/tools.py:31-33 | the entry under the key is replaced by the value stamped with the current time, no other entry changes, and it is then fresh for any positive age limit |
| Tools.DatesSeen | backend/core/tools.py:225-240 | the forecast dictionary's keys in insertion order: exactly the dates some reading has, each once |
| Tools.ReadingsOnNonEmpty | backend/core/tools.py:225-240 | every date that became a key has at least one reading |
| Tools.OnlySeenDatesHaveReadings | backend/core/tools.py:225-240 | a date with a reading is a key of the dictionary |
| Tools.LowNotAboveHigh | backend/core/tools.py:231-240 | a day's low never exceeds its high |
| Tools.TempsBound | backend/core/tools.py:231-240 | the day's low and high bound each of its readings' temperatures and are both attained |
| Tools.AggregateKeys | backend/core/tools.py:225-240 | the dictionary built reading by reading has exactly the dates seen as keys |
| Tools.SummaryAfterLast | backend/core/tools.py:225-240 | one more reading turns its date's entry into the summary of that date's readings so far, given the entries before it were |
| Tools.AggregateSummarises | backend/core/tools.py:225-240 | each entry of the dictionary is the day's summary: max and min of that date's readings and the conditions of its first reading |
| Tools.AggregateForecast | backend/core/tools.py:225-240 | the grouping loop yields the first-seen key order and the summarising dictionary |
| Tools.SortedDates | backend/core/tools.py:244 | `sorted(keys)`: ordered by string comparison and a permutation of the keys |
| Tools.SortedDatesDistinct | backend/core/tools.py:244 | the sorted keys are the dates seen, without repetition |
| Tools.LookupSortedDate | backend/core/tools.py:244-245 | every sorted key can be looked up in the dictionary and maps to its summary |
| Tools.ForecastAt | backend/core/tools.py:243-251 | the forecast has min(5, number of dates) entries and entry k summarises the k-th sorted date |
| Tools.WeatherForecast | backend/core/tools.py:225-251 | the two loops compute the forecast list |
| Tools.ForecastFromDictionary | backend/core/tools.py:243-251 | the forecast has min(5, number of dates) entries and entry k is the dictionary's entry for the k-th sorted date |
| Tools.FirstFive | backend/core/tools.py:243-251 | the loop over the sorted keys yields, in order, the dictionary entries of the first five of them |
| Tools.ForecastOrdered | backend/core/tools.py:243-251 | at most five days, strictly ascending by date, each a date of some reading |
| Tools.ForecastEarliest | backend/core/tools.py:244 | a date left out of the forecast is not earlier than any date kept |
| Tools.ForecastDaysSummarise | backend/core/tools.py:243-251 | each forecast day's low and high bound that date's readings and its conditions are its first reading's |
| Tools.WeatherJson | backend/core/tools.py:253-257 | the result object is always truthy (so a cached result is served on the next call) |
| Tools.GetWeather | backend/core/tools.py:135-266 | a truthy fresh cache hit is returned unchanged; otherwise an unknown location or a failed request yields an error object and leaves the cache alone, and a fetch is summarised, returned and cached under `weather_{location}_{lat}_{lon}` |
| Tools.StartCooking | backend/core/tools.py:322-358 | status "started" exactly when steps and ingredients are both non-empty, the missing-steps error first, then the missing-ingredients error; a started result echoes the recipe |
| Tools.CookingNavigation | backend/core/tools.py:361-377 | status "navigating", echoing the action and step index |
| Tools.StartedRecipeNavigable | backend/core/tools.py:322-358 | the recipe a started session returns lets the page navigate up to its last step |
| MimirAi.ToneOf | backend/core/ai.py:278-286 | the four intensity bands partition the integers at 25, 50 and 75, each bound inclusive below it |
| MimirAi.PersonalityModifier | backend/core/ai.py:278-286 | every intensity gets exactly its band's instruction |
| MimirAi.FinalPrompt | backend/core/ai.py:330-333 | the prompt ends with the message and the modifier; without context it is just those, with context it is prefixed by the memory context block |
| MimirAi.ToolDescription | backend/core/ai.py:362-376 | a known tool's status line is its description; any other tool reads "Using tool: name..." |
| MimirAi.NonBlank | backend/core/ai.py:227 | the list comprehension keeps at most the pieces it is given, each stripped and non-blank |
| MimirAi.CookingItems | backend/core/ai.py:224-234 | a missing or empty `;;` parameter gives no items; otherwise every item is stripped and non-blank |
| MimirAi.NonBlankKeeps | backend/core/ai.py:227 | items that are already stripped and non-blank are all kept |
| MimirAi.CookingItemsRoundTrip | backend/core/ai.py:224-234 | items written with `;;` between them read back exactly as written |
| MimirAi.ParseInt | backend/core/ai.py:244 | `int()` fails only on an empty text, or on one that is not an optional sign followed by decimal digits |
| MimirAi.ParseIntToString | backend/core/ai.py:244 | every integer written in decimal reads back as itself |
| MimirAi.ErrorResult | backend/core/ai.py:263-271 | an error result carries its message under "error" |
| MimirAi.ParamJson | backend/core/ai.py:241-242 | `params.get(key)` is the string when the key is present and null otherwise |
| MimirAi.Navigation | backend/core/ai.py:240-245 | a non-empty step index that `int()` rejects yields the error result; one it accepts is passed on as a number; an absent or empty one is passed on as it is |
| MimirAi.IntError | backend/core/ai.py:243-244 | the message of a failed `int()` starts "invalid literal for int() with base 10: " |
| MimirAi.IntErrorQuotes | backend/core/ai.py:243-244 | the rejected index is shown in single quotes, or in double quotes when it holds a single quote and no double quote |
| MimirAi.UnknownTool | backend/core/ai.py:263-264 | a name that is no tool gets the "Unknown tool: name" error |
| MimirAi.ServiceTool | backend/core/ai.py:180-261 | the other known tools are handed to their services unchanged |
| MimirAi.StartCookingCall | backend/core/ai.py:221-236 | a `start_cooking` call with `;;` lists starts a session with exactly the listed ingredients and steps |
| MimirAi.NavigationStep | backend/core/ai.py:240-245 | a navigation call carries the step it names as a number |
| MimirAi.ResultJson | backend/core/ai.py:451-456 | a call that ran reports its tool's result; a refused repeat reports the loop error |
| MimirAi.NoticeText | backend/core/ai.py:469-470 | a tool's status line is its description |
| MimirAi.RunCalls | backend/core/ai.py:444-485 | every call of a round adds exactly one result |
| MimirAi.ToCalls | backend/core/ai.py:444-445 | one parsed call per marker |
| MimirAi.Chunks | backend/core/ai.py:420-432 | each streamed text becomes one `response_chunk` event, in order |
| MimirAi.HistoryOf | backend/core/ai.py:136-140 | a user without a history starts with only the persona's system message; otherwise their history is used |
| MimirAi.ExecuteCalls | backend/core/ai.py:444-485 | the loop over one round's markers fills the ledger as the call-by-call definition does |
| MimirAi.PlayRound | backend/core/ai.py:396-516 | one round either ends the turn as the definition's round does, or leaves a state from which the next round ends it the same way |
| MimirAi.PlayRounds | backend/core/ai.py:388-526 | `while iteration < max_iterations` plays rounds until one ends the turn, with the result of the round-by-round definition |
| MimirAi.CallStepLedger | backend/core/ai.py:446-475 | one call adds one result, and at most one executed signature, one tool name and two events (the call and its status) |
| MimirAi.RunCallsEvents | backend/core/ai.py:446-475 | the events a round's calls add announce tools and never end the turn |
| MimirAi.RunCallsExecuted | backend/core/ai.py:449-460 | the signatures run so far are those run before plus the round's calls |
| MimirAi.RunCallsResults | backend/core/ai.py:446-485 | each call gets one result under its own tool name, and it is the loop error exactly when the same call ran earlier in the turn or earlier in the round |
| MimirAi.FailedConcludes | backend/core/ai.py:528-531 | a failed model call ends the turn with the single error event |
| MimirAi.ReplyConcludes | backend/core/ai.py:505-516 | a reply without calls is stored and sent as the one final response |
| MimirAi.LastRoundConcludes | backend/core/ai.py:518-526 | after the fifth round with calls, its reply is stored and sent as the response |
| MimirAi.NextRoundConcludes | backend/core/ai.py:486-504 | a round that ran calls adds its reply and the tool report to both histories and hands over to the next round |
| MimirAi.RoundConcludes | backend/core/ai.py:388-531 | from any round the turn sends exactly one terminal event, last, only adds to the events and histories, and the response carries the tools used and results and is the last stored message |
| MimirAi.RunRoundConcludes | backend/core/ai.py:440-526 | the same, from a round whose reply made calls |
| MimirAi.RoundTracked | backend/core/ai.py:440-504 | every signature runs at most once per turn and `tools_used` lists the tool of every call that ran |
| MimirAi.RunRoundTracked | backend/core/ai.py:440-504 | the same, from a round whose reply made calls |
| MimirAi.LastRoundTracked | backend/core/ai.py:440-526 | the same, when the round is the last allowed one |
| MimirAi.NextRoundTracked | backend/core/ai.py:440-504 | the same, when the round hands over to the next one |
| MimirAi.TurnConcludes | backend/core/ai.py:273-531 | a turn starts with the "Consulting the runes..." status and ends with exactly one response or error after at most five tool rounds; every signature ran at most once |
| MimirAi.MimirAI.constructor | backend/core/ai.py:124-133 | no user has a history yet |
| MimirAi.MimirAI.GetHistory | backend/core/ai.py:136-140 | returns the user's history, creating it with the system message when missing |
| MimirAi.MimirAI.ClearHistory | backend/core/ai.py:142-145 | an existing user goes back to the system message alone; an unknown user is ignored |
| MimirAi.MimirAI.GenerateResponseStream | backend/core/ai.py:273-531 | the turn's events, with the user's history extended by the turn's messages and every other history unchanged |
| Calendar.CutDetails | backend/core/calendar.py:47-49 | details longer than 75 characters are cut to their first 75; shorter ones and null are kept |
| Calendar.InRangeBounds | backend/core/calendar.py:34-40 | an event is in range exactly when its date is not below a truthy start nor above a truthy end, both bounds included |
| Calendar.Between | backend/core/calendar.py:33-40 | the filter keeps exactly the stored events in range, and no more than there are |
| Calendar.EventOrderIsTotal | backend/core/calendar.py:42 | the sort key `(date, start_time)` is a total preorder on events whose start times can be compared |
| Calendar.EventsIn | backend/core/calendar.py:28-42 | without truthy bounds the stored list itself; with one, the sort's TypeError exactly when a null and a string start time meet on one date, otherwise exactly the events in range, ordered by date and start time, with events of equal key in stored order |
| Calendar.Apply | backend/core/calendar.py:67-81 | the id is kept, each supplied key overwrites its field (details cut to 75) and every other field is kept |
| Calendar.FirstWithId | backend/core/calendar.py:67-68 | the position of the first event with the id, or none when no event has it |
| Calendar.WithoutId | backend/core/calendar.py:92 | the events whose id differs, in stored order |
| Calendar.WithoutIdShrinks | backend/core/calendar.py:91-98 | deleting shortens the list exactly when some event carries the id |
| Calendar.WithoutIdIdempotent | backend/core/calendar.py:92 | deleting twice removes nothing more |
| Calendar.CalendarManager.constructor | backend/core/calendar.py:10-21 | a manager starts with the user's stored events (none when the file is missing) |
| Calendar.CalendarManager.GetEvents | backend/core/calendar.py:28-42 | `get_events` answers as the range-and-sort definition does |
| Calendar.CalendarManager.CreateEvent | backend/core/calendar.py:44-63 | the new event (details cut) is appended at the end and saved |
| Calendar.CalendarManager.UpdateEvent | backend/core/calendar.py:65-87 | the first event with the id gets the supplied keys and is saved and returned; an unknown id is the "not found" error and nothing changes |
| Calendar.CalendarManager.DeleteEvent | backend/core/calendar.py:89-98 | every event with the id goes; the result is true, and the file saved, exactly when one did |
| Calendar.Matching | backend/core/calendar.py:121-127 | keeps exactly the events whose subject or details contain the query, ignoring case |
| Calendar.Search | backend/core/calendar.py:121-132 | the count is the number of events; a falsy query keeps them all; a truthy query fails on a null subject and otherwise keeps exactly the matching events |
| Calendar.CalendarSearch | backend/core/calendar.py:104-132 | `calendar_search` is the manager's range query followed by the query filter, errors passed on |
| Calendar.Forwarded | backend/core/calendar.py:175-185 | a field is passed on exactly when its argument is truthy |
| Calendar.UpdateNeverClears | backend/core/calendar.py:175-187 | through the tool a field can be changed but never emptied or nulled |
| Calendar.CalendarUpdate | backend/core/calendar.py:156-187 | `calendar_update` updates the event with the truthy fields only |
| Calendar.CalendarDelete | backend/core/calendar.py:190-208 | `calendar_delete` removes the events with the id and reports success, with its message, exactly when one existed |
| GoogleCalendar.GetOr | backend/core/google_calendar.py:150-154 | `dict.get(key, default)`: the stored value (null included) when the key is present, the default otherwise |
| GoogleCalendar.OptJson | backend/core/google_calendar.py:156-159 | a string becomes a JSON string and `None` becomes null |
| GoogleCalendar.ToGoogle | backend/core/google_calendar.py:146-183 | the result has exactly summary, description, start and end, summary defaulting to "No Title" and description to ""; with both times truthy it never fails; otherwise it fails exactly when the date is missing or null (the TypeError of `strptime`), is refused by `strptime` (its ValueError), or is the last representable day |
| GoogleCalendar.TimedEnds | backend/core/google_calendar.py:161-173 | each side of a timed event is `date T time :00` in New York time |
| GoogleCalendar.AllDayEnd | backend/core/google_calendar.py:174-181 | an all-day event starts on its date and ends on the next calendar day, one day number later, rolling over month and year |
| GoogleCalendar.AllDayShortDate | backend/core/google_calendar.py:174-181 | an all-day event dated "2024-1-5" is accepted: its start keeps the date as written and its end is "2024-01-06" |
| GoogleCalendar.IsoTime | backend/core/google_calendar.py:128-134 | a successful `fromisoformat(...).strftime('%H:%M')` gives the valid `HH:MM` at positions 11 to 16 |
| GoogleCalendar.BeforeT | backend/core/google_calendar.py:124 | `split('T')[0]` is the prefix before the first `T`, and holds none |
| GoogleCalendar.FieldOr | backend/core/google_calendar.py:137-142 | a missing key gives the default and a string value gives that string |
| GoogleCalendar.EventDate | backend/core/google_calendar.py:124 | the start's `date` when truthy, else the date part of its `dateTime` |
| GoogleCalendar.SideTime | backend/core/google_calendar.py:128-134 | a side without a truthy `dateTime` has no time; one with it has the parsed `HH:MM` or fails as `fromisoformat` does |
| GoogleCalendar.ToMimir | backend/core/google_calendar.py:116-144 | succeeds exactly when both sides' times parse; the result has exactly the seven keys, source "google", the event's id, summary or "No Title", description or "", the start's date and the two times |
| GoogleCalendar.TimedRoundTrip | backend/core/google_calendar.py:116-183 | a timed event with `HH:MM` times sent to Google and read back keeps its subject, details, date and times |
| GoogleCalendar.MimirOfTimed | backend/core/google_calendar.py:116-144 | reading a timed Google event back gives the date part and the times of its two `dateTime` values |
| GoogleCalendar.TimedSide | backend/core/google_calendar.py:128-134 | a side written by the timed branch reads back as its time and date |
| GoogleCalendar.DateTimeSide | backend/core/google_calendar.py:124-134 | a side with a well-formed `dateTime` and no `date` gives that time and its date part |
| GoogleCalendar.IsoOfTimed | backend/core/google_calendar.py:129-130 | `date T HH:MM :00` parses back to `HH:MM` |
| GoogleCalendar.BeforeTOfTimed | backend/core/google_calendar.py:124 | the date part of `date T time :00` is the date |
| GoogleCalendar.AllDayRoundTrip | backend/core/google_calendar.py:116-183 | an all-day event with any date `strptime` accepts, sent to Google and read back, keeps its subject, details and date as written and has no times |
| DailyJournal.KeepIdChars | backend/core/daily_journal.py:21 | the filter keeps at most the characters of the id |
| DailyJournal.KeepIdCharsShape | backend/core/daily_journal.py:21 | only letters, digits, spaces, `_` and `-` are kept, and an id made of them is kept whole |
| DailyJournal.SafeIdShape | backend/core/daily_journal.py:21 | the safe id holds only those characters and no whitespace at either end, so no separator or dot can lead the log path out of its directory |
| DailyJournal.TrimIdChars | backend/core/daily_journal.py:21 | stripping keeps only id characters |
| DailyJournal.SafeIdIdempotent | backend/core/daily_journal.py:21 | sanitising twice is sanitising once |
| DailyJournal.SharedLogFile | backend/core/daily_journal.py:18-22 | ids differing only in dropped characters ("a.b" and "ab") share a log file |
| DailyJournal.Existing | backend/core/daily_journal.py:36-42 | a stored list is read as it is; a missing or unreadable log counts as empty |
| DailyJournal.PromptCheck | backend/core/daily_journal.py:49-85 | the answer is yes exactly from 7 PM on, for a key not yet prompted, when the log is missing or has fewer than five entries; it raises exactly when that log is not valid JSON; the key is recorded exactly on a yes |
| DailyJournal.PromptedOncePerDay | backend/core/daily_journal.py:62-85 | once a user is prompted on a date, every later check that day answers no and records nothing, whatever the hour and the logs |
| DailyJournal.PromptKeysIndependent | backend/core/daily_journal.py:66-82 | prompting one user leaves every other key's answer as it was |
| DailyJournal.MarkAfterPromptKeepsSet | backend/main.py:194-195 | `mark_prompted` right after a check that prompted adds only the key the check already recorded |
| DailyJournal.DailyJournalManager.constructor | backend/core/daily_journal.py:13-16 | nobody has been prompted yet |
| DailyJournal.DailyJournalManager.LogInteraction | backend/core/daily_journal.py:24-47 | exactly one entry is appended to the existing entries of today's log, which is saved; nothing else changes |
| DailyJournal.DailyJournalManager.CheckPromptNeeded | backend/core/daily_journal.py:49-85 | answers and records as the prompt definition does; no log changes |
| DailyJournal.DailyJournalManager.MarkPrompted | backend/core/daily_journal.py:126-128 | today's key for the user is recorded |
| DailyJournal.StartedRecipe | backend/core/daily_journal.py:181-187 | a recipe is found exactly when some result, unwrapped from "result", has status "started" and a recipe |
| DailyJournal.JournalStats | backend/core/daily_journal.py:146-192 | the statistics loop counts user messages and tool-use entries, each tool's uses (a tool is a key exactly when it was used) and error results, and keeps the recipe of the last started cooking session |
| DailyJournal.CountTools | backend/core/daily_journal.py:175-187 | one entry's tools each add one to their count, and a start_cooking among them picks up a started recipe from the results |
| DailyJournal.FindRecipe | backend/core/daily_journal.py:181-187 | the scan keeps the last started recipe among the results, or the previous one |
| DailyJournal.CountErrors | backend/core/daily_journal.py:190-192 | counts the results with status "error" or an "error" key |
| DailyJournal.CountsBounded | backend/core/daily_journal.py:165-169 | an entry is a user message or a tool call, never both |
| DailyJournal.ToolCountPositive | backend/core/daily_journal.py:175-176 | a tool has a count exactly when some tool-use entry lists it |
| DailyJournal.OccurrencesPositive | backend/core/daily_journal.py:175-176 | a tool occurs in a list exactly when it is in it |
| DailyJournal.WrappedResultsNotErrors | backend/core/daily_journal.py:190-192 | results logged as `{"tool", "result"}` wrappers are never counted as errors, since only the wrapper is inspected |
| DailyJournal.RecipeNeedsCooking | backend/core/daily_journal.py:153-187 | the recipe is null unless some tool-use entry listed start_cooking with a started result |
| Memory.SharedStoreDirectory | backend/core/memory.py:37-41 | two ids differing only in characters the sanitiser drops share one store directory |
| Memory.KeepAppend | backend/core/memory.py:38 | the sanitiser's filter distributes over concatenation |
| Memory.Taken | backend/core/memory.py:80-88 | no more documents are kept whole than were found |
| Memory.PartsShape | backend/core/memory.py:77-90 | the first n documents are kept whole and fit the limit, the next one would overflow it, and after them comes at most one cut piece of exactly the room left plus "...", only when more than 100 characters of room remain |
| Memory.WholeWithinLimit | backend/core/memory.py:80-88 | the whole documents recalled never exceed the limit |
| Memory.NothingFound | backend/core/memory.py:74-75 | nothing found recalls "" |
| Memory.MimirMemory.constructor | backend/core/memory.py:30 | no store is open |
| Memory.MimirMemory.GetVectorStore | backend/core/memory.py:32-51 | the user's cached store is returned as it is; otherwise a new store in the user's directory is opened and cached; nothing on disk changes |
| Memory.MimirMemory.Remember | backend/core/memory.py:53-66 | one document is appended to the user's store directory, with the caller's metadata and "user_id" set to this user |
| Memory.MimirMemory.Recall | backend/core/memory.py:68-90 | the search results, whole while they fit the limit and then at most one cut piece, joined with newlines |
| Memory.MimirMemory.DeleteMemory | backend/core/memory.py:92-117 | the legacy id is refused and nothing changes; otherwise the cached store is dropped and, when the directory exists, it is removed (every store under the base directory when the sanitised id is empty); the answer is false only when removal raises |
| Memory.Wipe | backend/core/memory.py:100-111 | removing a directory keeps only entries that were on disk, unchanged, and the user's own directory is gone |
| Memory.EmptyIdWipesAll | backend/core/memory.py:100-111 | for an id that sanitises to "", the directory exists and its removal takes every user's store with it |
| Memory.WipeKeepsOthers | backend/core/memory.py:100-111 | with a non-empty sanitised id every other directory stays as it was |
| Memory.LegacyGuardBypassed | backend/core/memory.py:96-111 | the legacy id with a dropped character appended passes the guard and its deletion removes the legacy user's directory |
| News.CacheKey | backend/core/news.py:14 | the query when it is truthy, else the top-news key |
| News.CleanTitle | backend/core/news.py:41-43 | a prefix of the title; the title itself exactly when it has no " - "; otherwise the part before the last " - " |
| News.ItemOf | backend/core/news.py:36-50 | missing children become "No Title", "#", "" and "Unknown"; the item fails exactly when its title element has no text |
| News.ItemsOf | backend/core/news.py:35-50 | one item per raw item, unless one raises |
| News.ItemsOfEach | backend/core/news.py:35-50 | the items come out one for one and in order, and the list fails exactly when one item does |
| News.Take | backend/core/news.py:35 | at most the first ten items, all of them when there are at most ten |
| News.GetNewsResult | backend/core/news.py:12-64 | a fresh entry is served unless a refresh is forced; otherwise a successful fetch is stored with the time and returned; a failed one serves the cached items however old, else nothing |
| News.ParseItems | backend/core/news.py:32-50 | the item loop yields the items of the definition, in order |
| News.NewsManager.constructor | backend/core/news.py:7-10 | the cache starts empty |
| News.NewsManager.GetNews | backend/core/news.py:12-64 | answers and updates the cache as the definition does |
| News.NewsManager.GetTopNews | backend/core/news.py:66-67 | `get_news` without a query |
| News.TopNewsShared | backend/core/news.py:14 | no query and the empty query share the top-news entry |
| News.FreshEntryServed | backend/core/news.py:17-20 | a fresh entry is served whatever the network would have said |
| News.RefreshThenHit | backend/core/news.py:17-57 | after a successful fetch, asking again within 15 minutes gives the same items even when the network is down |
| News.FailureServesStale | backend/core/news.py:59-64 | a failed fetch serves the cached items however stale, and keeps the cache |
| News.AtMostTen | backend/core/news.py:35-57 | every answer holds at most ten items |
| News.CleanTitleExample | backend/core/news.py:42-43 | only the last " - " and what follows are dropped |
| UserProfiles.ProfileRoundTrip | backend/core/user_manager.py:25-32 | a profile written as its dict validates back to itself |
| UserProfiles.SaveLoadRoundTrip | backend/core/user_manager.py:19-34 | loading what a save wrote gives back the saved map |
| UserProfiles.OneBadRecordLoadsNothing | backend/core/user_manager.py:24-29 | one record that fails validation empties the whole map |
| UserProfiles.LoadedUnderFileKey | backend/core/user_manager.py:24-25 | a record is stored under its file key whatever `auth_id` it carries |
| UserProfiles.UserManager.constructor | backend/core/user_manager.py:14-17 | the profiles are those the file holds, or none |
| UserProfiles.UserManager.GetProfile | backend/core/user_manager.py:36-37 | the profile under the id, if any |
| UserProfiles.UserManager.SaveProfiles | backend/core/user_manager.py:31-34 | the file then holds exactly the map, which reads back unchanged |
| UserProfiles.UserManager.CreateProfile | backend/core/user_manager.py:39-50 | a new profile stamped with the time replaces any under the id, the others stay, and the map is saved |
| UserProfiles.UserManager.UpdateProfile | backend/core/user_manager.py:52-57 | only the display name of an existing profile changes and the map is saved; an unknown id gives nothing and changes nothing |
| UserProfiles.LoadRecords | backend/core/user_manager.py:24-25 | the record loop yields the definition's map, or fails at the first invalid record |
| Api.BearerSplits | backend/main.py:82 | a header starting with "Bearer " splits on spaces into "Bearer" and at least one more field |
| Api.TokenShape | backend/main.py:82 | the token holds no space and the header carries it right after "Bearer " |
| Api.FirstField | backend/main.py:82 | the first field of a split holds no separator and is followed by one, or ends the text |
| Api.Authenticate | backend/main.py:49-96 | preflights and `/`, `/docs`, `/openapi.json` bypass authentication exactly; without a client id every other request is the development user; with one, a missing or non-Bearer header or a token verification refuses with ValueError is 401, any other failure of the verification is 500, and an admitted request is the token's subject with its email or "" |
| Api.VerifiedTokenAdmits | backend/main.py:79-90 | a header whose token Google accepts admits its subject on every path that is not open |
| Api.CurrentUser | backend/main.py:117-123 | the caller's profile exactly when they have one, else 404 |
| Api.Onboard | backend/main.py:128-137 | a display name blank after stripping is refused with 400 and nothing is stored; any other name, kept as given, creates the caller's profile |
| Api.Reraised | backend/main.py:232-236 | the blanket handler always answers 500 |
| Api.ChatAdmission | backend/main.py:165-172 | the caller's display name exactly when they have a profile; otherwise the 403, re-raised as a 500 |
| Api.NeverForbidden | backend/main.py:168-236 | a caller without a profile receives 500 "403: User not onboarded", never a 403 |
| Api.ToolResultJson | backend/main.py:203-220 | a tool result goes out as an object with exactly the keys "tool" and "result" |
| Api.ToolResultsJson | backend/main.py:203-220 | one such object per result, in order |
| Api.Relayed | backend/main.py:199-224 | every event but the final response is sent as the turn yielded it |
| Api.RelayedAddsAudio | backend/main.py:212-221 | the final response is sent as yielded with "audio_base64" added (null without audio) |
| Api.RelayEvent | backend/main.py:200-224 | one event: its line is the relayed event and a final response writes its memory and journal records |
| Api.EventGenerator | backend/main.py:174-229 | the user's message is logged, then the events are relayed one by one, then the failure line when the stream's own work raised |
| Api.LinesShape | backend/main.py:199-229 | one line per event, in order, each the relayed event; the failure line comes last and only when the stream raised |
| Api.RelaysShape | backend/main.py:199-224 | line i is event i relayed with its audio |
| Api.ChatToolErrorsUncounted | backend/main.py:205-209 | the tool entries the chat writes to the journal hold `{"tool", "result"}` wrappers, so the journal's error count never sees a tool error reported through the chat |
| Api.RecordsUncounted | backend/main.py:205-209 | no record of a stream holds a result the journal counts as an error |
| Api.RecordsForUncounted | backend/main.py:205-209 | the same for one event's records |
| Api.Texts | backend/main.py:215-224 | one JSON text per line, in order |
| Api.BodyJoin | backend/main.py:215-231 | the body is the JSON texts joined by newlines, with a final newline |
| Api.ClientRecoversLines | backend/main.py:215-231 | since JSON text holds no raw newline, the page's line buffer splits the body back into exactly the lines sent, in order, with nothing left over |
| Api.ClientReadsResponse | backend/main.py:215-221 | the page reads a relayed final response as its text, tools and results; what it reads does not depend on the audio the line carries |
| Api.ResponseLineFields | backend/main.py:215-221 | the response line holds type "response", the text, the tools used, the results and the audio as `audio_base64` |
| Api.ClientReadsProgress | backend/main.py:222-224 | the page reads relayed statuses and chunks as such |
| Api.ClientIgnoresErrors | backend/main.py:225-229 | tool-call events, the turn's error event and the failure line match none of the page's branches, so a failed turn shows no message |
| ChatPage.AppendChunk | frontend/src/app/page.tsx:273-291 | the transcript ends with an assistant message: the last one extended by the chunk when it was the assistant's, otherwise a new one holding the chunk |
| ChatPage.ApplyFinal | frontend/src/app/page.tsx:299-316 | the transcript ends with an assistant message holding exactly the final text: the last one overwritten when it was the assistant's, otherwise a new one |
| ChatPage.ChunksConcatenate | frontend/src/app/page.tsx:273-291 | chunks arriving while the assistant's message is last are concatenated onto it in arrival order |
| ChatPage.ChunksStartReply | frontend/src/app/page.tsx:273-291 | after the user's message the first chunk starts the reply and the rest extend it, giving one message with all chunks |
| ChatPage.FinalOverridesChunks | frontend/src/app/page.tsx:299-316 | the final text replaces whatever the chunks streamed before it |
| ChatPage.HelloThere | frontend/src/app/page.tsx:273-316 | chunks "Hel" and "lo" then the final "Hello there" leave exactly one reply "Hello there" |
| ChatPage.PlayNext | frontend/src/app/page.tsx:77-92 | nothing happens while a clip plays or none waits; otherwise the head clip leaves the queue and, when not empty, starts playing and sets the speaking flag |
| ChatPage.PlayNextKeepsFifo | frontend/src/app/page.tsx:77-92 | starting a clip keeps the first-in-first-out invariant |
| ChatPage.StepKeepsFifo | frontend/src/app/page.tsx:77-116 | every player event keeps it, a pushed non-empty clip joining the end |
| ChatPage.PlaysInPushOrder | frontend/src/app/page.tsx:77-116 | whatever happens, the waiting clips are the latest pushed in push order and the clip started last was pushed just before them, so clips play in push order one at a time |
| ChatPage.SpeakingClearedWhilePlaying | frontend/src/app/page.tsx:94-103 | a clip pushed during the 100 ms pause starts at once, so the pause ending clears the speaking flag while that clip plays |
| ChatPage.FailureAdvances | frontend/src/app/page.tsx:105-115 | a failed clip never clears the speaking flag and the next clip starts at once |
| ChatPage.FindTool | frontend/src/app/page.tsx:322 | `tool_results.find`: a result is found exactly when some result names the tool, and it is one of them |
| ChatPage.NavLimit | frontend/src/app/page.tsx:334 | the last reachable step `(recipe?.steps.length \|\| 1) - 1` is never negative |
| ChatPage.StartCooking | frontend/src/app/page.tsx:321-328 | when `start_cooking` was used and its first result carries a truthy recipe, the page holds that recipe, in cooking mode, at step 0; otherwise nothing changes; nothing but the recipe, the mode and the step ever changes |
| ChatPage.Navigate | frontend/src/app/page.tsx:330-338 | only the step changes: next gives `Math.min(limit, step + 1)`, prev `Math.max(0, step - 1)`, goto stores any present `step_index` (null and strings included); nothing changes without a truthy navigation result or for another action |
| ChatPage.NavResult | frontend/src/app/page.tsx:330-332 | a navigation result is used only when the tool was used, and is the truthy `result` of a `cooking_navigation` entry |
| ChatPage.NavigationKeepsRange | frontend/src/app/page.tsx:334-335 | from a numeric step in `[0, limit]`, next and prev leave a numeric step in that range |
| ChatPage.GotoNullStep | frontend/src/app/page.tsx:334-336 | a goto with a null `step_index` stores null; a later next then reads it as 0 and gives step 1 (or the limit), and a later prev gives 0 |
| ChatPage.GotoEmptyStep | frontend/src/app/page.tsx:334-336 | a goto with an empty `step_index` stores ""; a later next makes it "1", read as 1, and a later prev gives 0 |
| ChatPage.StepOf | frontend/src/app/page.tsx:336 | a numeric `step_index` is stored as a number and any other value as it is |
| ChatPage.JsNumber | frontend/src/app/page.tsx:334-335 | `Number(s)`: blank text is 0, and a number is read only from an optional sign and decimal digits |
| ChatPage.JsNumberOfDecimal | frontend/src/app/page.tsx:334-335 | every integer written in decimal is read back as itself |
| ChatPage.StepNumber | frontend/src/app/page.tsx:334-335 | a numeric step reads as itself, NaN as no number, and null as 0 |
| ChatPage.NextStep | frontend/src/app/page.tsx:334 | next gives a number no greater than the limit, or NaN (always NaN after NaN); from a number it is one more, capped at the limit |
| ChatPage.PrevStep | frontend/src/app/page.tsx:335 | prev gives a number no less than 0, or NaN exactly when the step has no numeric reading; from a number it is one less, floored at 0 |
| ChatPage.ApplyTools | frontend/src/app/page.tsx:319-344 | the tool handling changes no message, status or player, leaves recipe, mode and step alone when neither cooking tool was used, and fetches the events once exactly when a calendar tool was used |
| ChatPage.EventStep | frontend/src/app/page.tsx:271-316 | an event never changes loading; only a final response touches cooking state or event fetches; the transcript changes by at most one message |
| ChatPage.LineStep | frontend/src/app/page.tsx:265-348 | one line changes the transcript by at most one message; blank or unparsable lines change nothing |
| ChatPage.RunLinesAppend | frontend/src/app/page.tsx:265-348 | handling two runs of lines is handling their concatenation |
| ChatPage.SkippedLine | frontend/src/app/page.tsx:266-348 | a blank or malformed line is skipped and the lines after it are still handled |
| ChatPage.Pending | frontend/src/app/page.tsx:262-263 | the buffer kept after a read holds no newline |
| ChatPage.BufferSplit | frontend/src/app/page.tsx:261-263 | the text read so far is the completed lines, each ended by a newline, then the buffer |
| ChatPage.CompleteLinesAppend | frontend/src/app/page.tsx:257-265 | reading more text completes the earlier lines, then those of the buffer plus the new text |
| ChatPage.CompletedAppend | frontend/src/app/page.tsx:257-265 | the complete lines after more text are the earlier ones followed by those completed from the buffer plus the new text |
| ChatPage.PendingAppend | frontend/src/app/page.tsx:257-265 | the buffer after more text is what the old buffer plus the new text leaves after its last newline |
| ChatPage.UnterminatedTailIgnored | frontend/src/app/page.tsx:262-263 | text without a newline completes no line, so a trailing fragment is never parsed |
| ChatPage.IgnoredSendChangesNothing | frontend/src/app/page.tsx:226 | a blank message, or one sent while loading, changes nothing |
| ChatPage.SendSettles | frontend/src/app/page.tsx:359-362 | whatever the outcome, a handled send clears loading and the status line |
| ChatPage.FailedRequest | frontend/src/app/page.tsx:240-358 | a request that fails before any line is read adds the user's message and exactly one fallback message |
| ChatPage.StreamOutcome | frontend/src/app/page.tsx:253-358 | a read that fails keeps what was streamed and appends exactly one fallback; a clean stream appends none |
| ChatPage.RunLinesKeepsTurn | frontend/src/app/page.tsx:265-348 | handling lines never alters the user's message or anything before it |
| ChatPage.TurnPreserved | frontend/src/app/page.tsx:225-363 | nothing the reply does alters the user's message or any message before it |
| ChatPage.ChatPage.constructor | frontend/src/app/page.tsx:29-74 | the page starts with the greeting, no status, not loading, a silent player, no recipe and step 0 |
| ChatPage.ChatPage.ResetForUser | frontend/src/app/page.tsx:137-145 | a change of user restarts the transcript with the greeting and changes nothing else |
| ChatPage.ChatPage.PlayNextAudio | frontend/src/app/page.tsx:77-92 | the player becomes what `PlayNext` says |
| ChatPage.ChatPage.OnAudioEnded | frontend/src/app/page.tsx:94-96 | the playing flag clears and the pause begins |
| ChatPage.ChatPage.OnPauseElapsed | frontend/src/app/page.tsx:97-102 | the speaking flag clears when nothing waits, then the next clip starts |
| ChatPage.ChatPage.OnAudioFailed | frontend/src/app/page.tsx:105-115 | the playing flag clears and the next clip starts |
| ChatPage.ChatPage.StartCookingTool | frontend/src/app/page.tsx:321-328 | the page becomes what `StartCooking` says |
| ChatPage.ChatPage.NavigationTool | frontend/src/app/page.tsx:330-338 | the page becomes what `Navigate` says |
| ChatPage.ChatPage.HandleTools | frontend/src/app/page.tsx:319-344 | the page becomes what `ApplyTools` says |
| ChatPage.ChatPage.HandleLine | frontend/src/app/page.tsx:266-348 | the page becomes what `LineStep` says |
| ChatPage.ChatPage.HandleLines | frontend/src/app/page.tsx:265-348 | the lines are handled in order |
| ChatPage.ChatPage.ReadReply | frontend/src/app/page.tsx:257-350 | the read loop handles exactly the lines the concatenated chunks complete, in order |
| ChatPage.ChatPage.HandleSendMessage | frontend/src/app/page.tsx:225-363 | the page becomes what `Send` says |
| Avatar.WordEnd | frontend/src/components/Avatar/MimirAvatar.tsx:55 | the end of a run of non-space characters lies between its start and the end of the text |
| Avatar.WordEndStops | frontend/src/components/Avatar/MimirAvatar.tsx:55 | the run holds no whitespace and ends at whitespace or at the end of the text |
| Avatar.WordsAreWords | frontend/src/components/Avatar/MimirAvatar.tsx:55-56 | every piece of `trim().split(/\s+/)` is a non-empty word without whitespace, and an empty buffer has none |
| Avatar.WordsCons | frontend/src/components/Avatar/MimirAvatar.tsx:55 | a word followed by nothing or by whitespace splits as that word, then the rest |
| Avatar.WordsJoin | frontend/src/components/Avatar/MimirAvatar.tsx:55-68 | the buffer `rest.join(" ")` splits back into exactly `rest` |
| Avatar.TargetWords | frontend/src/components/Avatar/MimirAvatar.tsx:62 | at least one word, and at least the clip's quarter seconds; exactly those when there is at least one |
| Avatar.ConsumeSplitsWords | frontend/src/components/Avatar/MimirAvatar.tsx:55-68 | the words spoken followed by the words of the new buffer are the words of the old buffer; as many are spoken as the target allows; a non-empty buffer always speaks something |
| Avatar.RestSplitsBack | frontend/src/components/Avatar/MimirAvatar.tsx:65-68 | the words taken plus the words of the rest, joined and split again, are all the words |
| Avatar.TextAdded | frontend/src/components/Avatar/MimirAvatar.tsx:172-175 | the text is appended after one space when the buffer is not empty, and nothing else changes |
| Avatar.Stopped | frontend/src/components/Avatar/MimirAvatar.tsx:176-183 | the queue and buffer are emptied and no run is in progress; readiness and what was spoken stay |
| Avatar.StartCases | frontend/src/components/Avatar/MimirAvatar.tsx:25-35 | nothing happens while a run is in progress, before the head is loaded or with no clip; otherwise the first non-empty clip becomes the run, empty ones are dropped, and the buffer is untouched |
| Avatar.FinishStartsNext | frontend/src/components/Avatar/MimirAvatar.tsx:158-164 | after every run, whatever decoding did, the flag is cleared and the next non-empty clip starts; a failed decoding leaves the buffer alone |
| Avatar.EmptyClipsSkipped | frontend/src/components/Avatar/MimirAvatar.tsx:31-35 | empty clips are skipped until a non-empty one starts, or the flag is clear when all are empty |
| Avatar.AudibleAppend | frontend/src/components/Avatar/MimirAvatar.tsx:168-170 | the clips that will play from two batches are those of the first, then those of the second |
| Avatar.StartDropsFront | frontend/src/components/Avatar/MimirAvatar.tsx:25-35 | starting only takes clips off the front of the queue: what is left is a suffix of it |
| Avatar.StartKeepsOrder | frontend/src/components/Avatar/MimirAvatar.tsx:25-35 | starting a run does not change the order in which clips are heard |
| Avatar.FinishKeepsOrder | frontend/src/components/Avatar/MimirAvatar.tsx:158-164 | ending a run moves its clip from in progress to spoken, order unchanged |
| Avatar.Ended | frontend/src/components/Avatar/MimirAvatar.tsx:51-164 | a finished run is recorded after all earlier ones with its clip; the queue is untouched, the flag cleared, and a failed decode leaves the buffer alone |
| Avatar.AudioKeepsOrder | frontend/src/components/Avatar/MimirAvatar.tsx:25-170 | adding a clip appends it to the order of audible clips (an empty one adds nothing) and keeps the flag in step with the run in progress |
| Avatar.DecodedKeepsOrder | frontend/src/components/Avatar/MimirAvatar.tsx:51-164 | finishing a run, whatever decoding gave, keeps the order of audible clips and the flag in step with the run in progress |
| Avatar.StepKeepsOrder | frontend/src/components/Avatar/MimirAvatar.tsx:25-183 | every event keeps the invariant, and a pushed clip joins the end of the heard order unless it is empty |
| Avatar.FinishNotReady | frontend/src/components/Avatar/MimirAvatar.tsx:158-164 | ending a run keeps the flag consistent with the run in progress |
| Avatar.PlaysInOrder | frontend/src/components/Avatar/MimirAvatar.tsx:25-183 | without a stop, the clips are spoken, then in progress, then waiting, exactly in push order with empty clips dropped |
| Avatar.EarlyClipWaits | frontend/src/components/Avatar/MimirAvatar.tsx:26 | a clip added before the head has loaded waits until the next clip arrives, which then starts it |
| Avatar.MimirAvatar.constructor | frontend/src/components/Avatar/MimirAvatar.tsx:16-23 | empty queue and buffer, no run, head not loaded |
| Avatar.MimirAvatar.HeadLoaded | frontend/src/components/Avatar/MimirAvatar.tsx:296 | the head becomes ready and nothing else changes |
| Avatar.MimirAvatar.ProcessQueue | frontend/src/components/Avatar/MimirAvatar.tsx:25-35 | the state becomes what `Start` says |
| Avatar.MimirAvatar.FinishRun | frontend/src/components/Avatar/MimirAvatar.tsx:51-164 | the state becomes what `Finish` says |
| Avatar.MimirAvatar.AddAudio | frontend/src/components/Avatar/MimirAvatar.tsx:168-171 | the clip joins the queue and a run starts if none is in progress |
| Avatar.MimirAvatar.AddText | frontend/src/components/Avatar/MimirAvatar.tsx:172-175 | the state becomes what `TextAdded` says |
| Avatar.MimirAvatar.Stop | frontend/src/components/Avatar/MimirAvatar.tsx:176-183 | the state becomes what `Stopped` says |
| NewsFeed.WindowUpToEntries | frontend/src/components/NewsFeed.tsx:73-78 | after k turns of the loop the window holds k entries when there is news and none otherwise, entry i being the item i places after the start, wrapping round |
| NewsFeed.WindowEntries | frontend/src/components/NewsFeed.tsx:72-78 | four entries when there is any news and none otherwise; entry i is `news[(start + i) % length]`, so every entry is an item of the list whatever the start |
| NewsFeed.SliceUpTo | frontend/src/components/NewsFeed.tsx:73-78 | with k items after the start, the first k turns of the loop push exactly those items, in order |
| NewsFeed.WindowIsSlice | frontend/src/components/NewsFeed.tsx:72-78 | with four items after the start, the window is exactly those four in order |
| NewsFeed.SingleItemRepeats | frontend/src/components/NewsFeed.tsx:72-78 | a single headline fills all four places |
| NewsFeed.Rotated | frontend/src/components/NewsFeed.tsx:42-50 | with news, a tick leaves the start index inside the list |
| NewsFeed.Feed.constructor | frontend/src/components/NewsFeed.tsx:18-20 | no news, start index 0, not loading |
| NewsFeed.Feed.StartFetch | frontend/src/components/NewsFeed.tsx:22-23 | loading starts and nothing else changes |
| NewsFeed.Feed.FetchSettled | frontend/src/components/NewsFeed.tsx:24-34 | the list is replaced only when the response carried `news`; the start index is kept; loading ends whatever happened |
| NewsFeed.Feed.Rotate | frontend/src/components/NewsFeed.tsx:42-50 | a tick advances the start index by four modulo the list length, only while there is news |
| NewsFeed.Feed.VisibleNews | frontend/src/components/NewsFeed.tsx:72-78 | the loop computes the window |
| NewsFeed.EmptyArrayHides | frontend/src/components/NewsFeed.tsx:27-80 | a response holding an empty array empties the list and the feed renders nothing; a failed fetch or a response without `news` keeps the headlines, which stay visible |
| CookingView.StepTotal | frontend/src/components/CookingView.tsx:98 | `steps?.length \|\| 0`: the number of steps, 0 when absent |
| CookingView.StepBound | frontend/src/components/CookingView.tsx:101-102 | `steps?.length \|\| 1`: at least 1, the number of steps when there are any |
| CookingView.StepText | frontend/src/components/CookingView.tsx:82 | never empty: the step itself when it exists and is not empty, else the default text |
| CookingView.NoStepsLabel | frontend/src/components/CookingView.tsx:98 | a recipe without steps is labelled "Step 1 / 0" |
| CookingView.ClickKeepsRange | frontend/src/components/CookingView.tsx:91-102 | from a step in range, either button keeps it in range |
| CookingView.ClicksKeepRange | frontend/src/components/CookingView.tsx:91-102 | any sequence of clicks keeps a step in range |
| CookingView.DisabledIffStuck | frontend/src/components/CookingView.tsx:91-102 | in range, a button is disabled exactly when clicking it would not move the step, and otherwise it moves the step by one |
| CookingView.NextRecovers | frontend/src/components/CookingView.tsx:101 | a step past the end is brought back to the last step by Next |
| CookingView.InRangeShowsStep | frontend/src/components/CookingView.tsx:82 | in range, the step is shown unless it is empty, when the default text is |
| CookingView.Render | frontend/src/components/CookingView.tsx:26-116 | nothing outside cooking mode, the placeholder exactly without a recipe, and otherwise the step text, label and button states |
| CalendarView.StartDay | frontend/src/components/CalendarView.tsx:100-101 | the weekday of the first lies between Sunday (0) and Saturday (6) |
| CalendarView.CellDate | frontend/src/components/CalendarView.tsx:105 | the date of any day number is a valid date |
| CalendarView.CellDateInMonth | frontend/src/components/CalendarView.tsx:105 | a day number within the month is that day of the month |
| CalendarView.EventsOnExactly | frontend/src/components/CalendarView.tsx:112 | a cell lists exactly the events on its date, in their order, each as often as it occurs |
| CalendarView.GridCellShape | frontend/src/components/CalendarView.tsx:99-124 | cell i shows day `i - startDay + 1`; it is numbered and clickable exactly when that is a day of the month, its date is then that day and it lists that date's events; other cells list none |
| CalendarView.EveryDayOnce | frontend/src/components/CalendarView.tsx:99-103 | every day of the month has exactly one cell among the 42 |
| CalendarView.EventClick | frontend/src/components/CalendarView.tsx:136-143 | an event with subject "Daily Journal" opens that day's journal, any other opens its edit dialog |
| CalendarView.PreviousMonth | frontend/src/components/CalendarView.tsx:53 | the first of the month before, whose length leads up to this month's first |
| CalendarView.NextMonth | frontend/src/components/CalendarView.tsx:64 | the first of the month after, this month's length of days later |
| CalendarView.FirstFollows | frontend/src/components/CalendarView.tsx:64 | the first of the next month is the month's length after this first, across the year too |
| CalendarView.MonthsInverse | frontend/src/components/CalendarView.tsx:53-64 | back then forward, or forward then back, returns to the first of the month |
| RightSidebar.MiniGrid | frontend/src/components/RightSidebar.tsx:45-123 | nothing in cooking mode, otherwise 35 cells |
| RightSidebar.MiniCellShape | frontend/src/components/RightSidebar.tsx:123-150 | cell i shows day `i - startDay + 1` whenever that lies between 1 and 31, whatever the month's length; it is dimmed exactly when its date is outside the month; it has a dot exactly when it shows a number and an event falls on its date |
| RightSidebar.InMonthCell | frontend/src/components/RightSidebar.tsx:123-146 | a cell whose day is in the month shows that day and is not dimmed |
| RightSidebar.LateDaysMissing | frontend/src/components/RightSidebar.tsx:123-146 | a day of the month has a cell exactly when the first's weekday plus the day is at most 35, so late days of a long month starting late are not shown |
| RightSidebar.NumberPastMonthEnd | frontend/src/components/RightSidebar.tsx:127-150 | in a month shorter than 31 days the cell after the last day still shows the next number, dimmed, and its dot reports the first of the following month |
| RightSidebar.NextAfterLast | frontend/src/components/RightSidebar.tsx:127 | the day after the last of a month (before December) is the first of the next month |
| Dates.DaysInMonth | frontend/src/components/CalendarView.tsx:102 | a month has 28 to 31 days, and 29 exactly for February of a leap year |
| Dates.Weekday | frontend/src/components/CalendarView.tsx:100 | the weekday of a valid date lies between Sunday (0) and Saturday (6) |
| Dates.NextDay | backend/core/google_calendar.py:180 | the following date is valid and one day later |
| Dates.PrevDay | frontend/src/components/CalendarView.tsx:104 | the preceding date is valid and the day after it is the given date |
| Dates.AddDays | frontend/src/components/CalendarView.tsx:104 | moving by any number of days gives a valid date that many days away |
| Dates.Parse | backend/core/google_calendar.py:129-134 | a date in the canonical `YYYY-MM-DD` form `fromisoformat` reads is a valid date with a year from 1 to 9999 |
| Dates.ParseFormat | backend/core/google_calendar.py:129-134 | formatting a valid date and reading it back in canonical form gives the date |
| Dates.FormatParse | backend/core/google_calendar.py:129-134 | text read in canonical form is exactly the formatting of the date it gives |
| Dates.MonthAt | backend/core/google_calendar.py:179 | `%m` reads a month from 1 to 12 that is followed by the `-` of the format |
| Dates.DayAt | backend/core/google_calendar.py:179 | `%d` reads a day from 1 to 31, ending inside the text |
| Dates.DateMatch | backend/core/google_calendar.py:179 | a match of `%Y-%m-%d` starts with four digits and a `-`, takes its year from them, and holds a month from 1 to 12 and a day from 1 to 31 |
| Dates.Strptime | backend/core/google_calendar.py:179 | a date `strptime` accepts is valid, with a year from 1 to 9999 read from the first four digits; text the format does not match gives the ValueError naming the text as `repr` shows it |
| Dates.MonthOfCanonical | backend/core/google_calendar.py:179 | a canonical two-digit month is read whole by `%m` |
| Dates.DayOfCanonical | backend/core/google_calendar.py:179 | a canonical two-digit day is read whole by `%d`, leaving nothing after it |
| Dates.StrptimeCanonical | backend/core/google_calendar.py:179 | `strptime` accepts every canonical date and reads the same date from it |
| Dates.StrptimeFormat | backend/core/google_calendar.py:179-181 | `strptime` reads back every date `strftime('%Y-%m-%d')` writes |
| Dates.StrptimeShortFields | backend/core/google_calendar.py:179 | "2024-1-5" is read as 5 January 2024, though it is not in canonical form |
| Dates.StrptimeLeftover | backend/core/google_calendar.py:179 | in "2024-01-35" the day matched is 3 and the trailing "5" is refused as unconverted data |
| Dates.ParseTime | backend/core/google_calendar.py:129-134 | a parsed `%H:%M` time is a valid time |
| Dates.ParseFormatTime | backend/core/google_calendar.py:129-134 | formatting a valid time and parsing it back gives the time |
| Dates.FormatParseTime | backend/core/google_calendar.py:129-134 | text that parses as a time is exactly the formatting of that time |
| Sorting.SortBy | backend/core/calendar.py:42 | `sorted` with a key: the result is ordered by the given total preorder and is a permutation of the input |
| Sorting.Ties | backend/core/calendar.py:42 | the elements ranked level with a given one are taken from the list and are level with it |
| Sorting.TiesConcat | backend/core/calendar.py:42 | the level elements of two lists put together are those of the first followed by those of the second |
| Sorting.InsertTies | backend/core/calendar.py:42 | inserting into a sorted list places the new element after every element of its rank already there |
| Sorting.TiesNone | backend/core/calendar.py:42 | a list with no element level with a given one has no such elements to keep |
| Sorting.SortByStable | backend/core/calendar.py:42 | `sorted` is stable: for every rank, the elements of that rank come out in the order they went in |
| Sorting.StrOrderIsTotal | backend/core/calendar.py:42 | the order on strings is total and transitive, so it can key a sort |
| Text.Trim | backend/core/daily_journal.py:21 | `strip()`: empty exactly for blank text, no whitespace at either end, no longer than the input, and text already without surrounding whitespace is unchanged |
| Text.IndexOf | backend/main.py:82 | found exactly when the text occurs, and at its first occurrence |
| Text.Split | backend/core/ai.py:228 | `split(sep)`: at least one piece, none containing the separator, and joining the pieces gives the text back |
| Text.SplitJoin | backend/core/ai.py:228 | splitting the join of pieces free of the separator gives the pieces back |
| Text.SplitAppend | frontend/src/app/page.tsx:262 | splitting a text with more appended keeps all complete pieces and re-splits only the last one with the addition |
| Text.JoinReplaceLast | frontend/src/app/page.tsx:262 | extending the last piece by some text extends the joined string by that text |
| Text.NoPieceContains | backend/core/ai.py:228 | two lists of pieces free of the separator stay free of it when put together |
| Text.NatToString | frontend/src/components/CookingView.tsx:98 | the decimal digits of a number denote that number |
| Text.ConcatCons | frontend/src/app/page.tsx:262 | the parts run together are the first part followed by the rest run together |
| Text.ReprQuote | backend/core/ai.py:243-244 | `repr` quotes with `"` exactly when the text holds a `'` and no `"`, and otherwise with `'` |
| Text.ReprChar | backend/core/ai.py:243-244 | a printable character other than the quote and the backslash is shown as itself |
| Text.PyRepr | backend/core/ai.py:243-244 | `repr` of a string begins and ends with the chosen quote |
| Text.ReprBodyPlain | backend/core/ai.py:243-244 | text with nothing to escape is shown as it is between the quotes |
| Text.ReprPlain | backend/core/ai.py:243-244 | printable text without quotes or backslashes is shown between single quotes; text holding `'` but nothing else to escape between double quotes |

## Left out

- The language model, Google's token check, text-to-speech, the vector store's similarity search, OpenWeather, the location lookup, web search, Google News and the Google Calendar service are not modelled; each enters the model as a parameter carrying its result (or its failure).
- Files are modelled by what they hold (the calendar, the profiles, the journal logs and the memory directories as fields and maps); reading and writing them, and `os.path.exists`, are not modelled.
- Clocks, `uuid4` and randomness are parameters.
- JSON text is not modelled: `json.dumps`, `json.loads` and `JSON.parse` work on a JSON value datatype or are parameters.
- Character classes are ASCII: `isalnum`, `\w`, `\s`, `strip()` and `lower()` treat only ASCII letters, digits and whitespace.
- MimirAi.Navigation: `int()` also accepts underscores between digits, surrounding whitespace and non-ASCII decimal digits in the step index; only ASCII digits with an optional sign are modelled.
- Floating point is not modelled: latitude and longitude, the rounding of temperatures (they are integers here), the avatar's viseme and word timing, and the cooking progress bar.
- Asynchrony is not modelled: the `asyncio.gather` of tool calls runs the calls one after another in marker order (gather keeps that order), and the page's 100 ms pause and the avatar's decode and speech waits are explicit events.
- An exception raised in the middle of a turn's stream is the single outcome `raised`; the partial output before it is not distinguished.
- File attachments (PDF, Word, Excel and image reading) in the turn and in the upload endpoint are not modelled.
- `backend/core/planning.py` and `backend/core/voice.py` are not part of this model; nor are `check_end_of_day` and the narrative, file and calendar side of `generate_journal_entry`, whose statistics loop is modelled.
- In a turn, the service tools (web search, weather, location, the calendar, journal and profile tools) are handed to a parameter that returns their result; the calendar tools and the weather tool are modelled on their own in `Calendar` and `Tools`, and `calendar_create` by `Calendar.CalendarManager.CreateEvent`.
- Calendar: an event whose date is JSON null is not modelled (dates are strings).
- Calendar.EventsIn: the sort's TypeError always names 'NoneType' before 'str'; which operand Python puts first depends on the pairs its sort happens to compare, which is not modelled.
- Dates.Strptime: `\d` in the year also matches non-ASCII digits, and the wording of the range errors differs between Python versions; ASCII digits and one wording are modelled.
- Text.PyRepr: characters beyond ASCII are shown as they are, while Python escapes those it does not count as printable.
- GoogleCalendar: an all-day date is read as `strptime` with `%Y-%m-%d` reads it (one-digit months and days included, `Dates.Strptime`); other dates and times are read only in the `YYYY-MM-DD` and `HH:MM` forms, and the other ISO forms accepted by `fromisoformat`, time zones and offsets are not modelled.
- Sorting.SortBy: stability is not part of its own contract; it is stated by the lemma `Sorting.SortByStable`, so that the callers that need only order and permutation do not carry it.
- DailyJournal: a log file holding JSON that is not a list is not modelled (`Unreadable` is text that is not JSON); the journal only ever writes lists.
- DailyJournal.JournalStats: requires every `tool_use` log entry to carry tools and results, as the chat endpoint writes them; the source would raise on other shapes.
- DailyJournal.CheckPromptNeeded: the two clock reads of the source (date and hour) are one reading of the parameters `today` and `hour`.
- Memory: the number of results `k` is part of the search parameter; the metadata dictionary a caller passes is copied, not shared.
- News: URL quoting of the query and the request timeout are not modelled; the clock is in whole seconds.
- UserProfiles: pydantic's coercion of non-string values is not modelled (only strings validate); the profile object `get_profile` returns is a value, so later in-place changes through it are not modelled.
- Api: the context assembled for `/chat` (memory recall, calendar and journal text) is a parameter; Starlette's error text is the status and detail pair; `verify` is assumed to return claims holding `sub`; header names are matched as given, not case-insensitively; endpoints other than the profile, onboarding and chat ones are not modelled.
- Avatar: visemes, word timing, the speech polling loop, `playAnimation`, `startAudio` and the audio context's resume are not modelled; base64 decoding and `ceil(duration * 4)` are the parameter `units`.
- Avatar.MimirAvatar.Stop: ends the run in progress, while in the source a run already decoding carries on after `stop` and can still consume words.
- NewsFeed: the minute timer is the `Rotate` event; click logging, `window.open`, animation keys and a truthy non-array `news` field are not modelled.
- CookingView: fractional or negative step numbers from the page, the null, string and NaN steps the page may hold after a goto, the progress bar and the ingredient list's rendering are not modelled.
- ChatPage.JsNumber: decimal fractions, exponents, hexadecimal, `Infinity` and the other forms `Number` reads are NaN here; a step that is an array or an object reads as NaN, while JavaScript reads an empty or one-element array as a number.
- ChatPage.Decode: a `response` or `response_chunk` line whose `text` is not a string is ignored, while the page would store or append `undefined`; the backend always sends a string.
- CalendarView and RightSidebar: the today highlight, the month title, `lastUpdated`, the create button's date and the close and refresh buttons are not modelled; a cell's date is the local date the time-zone shift recovers; years outside 0 to 9999 are not considered.
- RightSidebar: the session panel, the mobile overlay and the embedded news feed are not modelled.
