/**
 * The assistant's tool protocol (`backend/core/ai.py`): the model asks for a tool by writing
 * a `[TOOL:name|key=value|...]` marker in its reply. The backend streams the reply with the
 * markers hidden, finds the markers, runs each tool once per distinct call, feeds the
 * results back, and gives up after five rounds.
 */
module ToolProtocol {
  import opened Wrappers
  import opened Text
  import opened Json

  // ---------------------------------------------------------------------------------------
  // Finding markers: the regex `\[TOOL:(\w+)(?:\|([^\]]*))?\]` under `re.finditer`
  // ---------------------------------------------------------------------------------------

  const MarkerOpen: string := "[TOOL:"

  /** A marker as written: the tool name and the text between the first '|' and the ']'. */
  datatype RawCall = RawCall(name: string, args: string)

  predicate IsWord(s: string) {
    forall k | 0 <= k < |s| :: IsWordChar(s[k])
  }

  /** A marker the regex can produce: a non-empty word name, arguments without ']'. */
  predicate WellFormed(c: RawCall) {
    c.name != [] && IsWord(c.name) && !ContainsChar(c.args, ']')
  }

  /** The length of the longest run of word characters starting at `i`. */
  function WordRun(s: string, i: nat): (n: nat)
    requires i <= |s|
    ensures i + n <= |s|
    ensures forall k | i <= k < i + n :: IsWordChar(s[k])
    ensures i + n == |s| || !IsWordChar(s[i + n])
    decreases |s| - i
  {
    if i < |s| && IsWordChar(s[i]) then 1 + WordRun(s, i + 1) else 0
  }

  /** The first position at or after `from` holding `c`. */
  function CharFrom(s: string, c: char, from: nat): (r: Option<nat>)
    requires from <= |s|
    ensures r.Some? ==> from <= r.value < |s| && s[r.value] == c
    ensures forall k | from <= k < (if r.Some? then r.value else |s|) :: s[k] != c
    decreases |s| - from
  {
    if from == |s| then None
    else if s[from] == c then Some(from)
    else CharFrom(s, c, from + 1)
  }

  datatype Match = Match(call: RawCall, end: nat)

  /** `[TOOL:` starts at position `i`. */
  predicate OpensAt(s: string, i: nat) {
    i + 6 <= |s| && s[i] == '[' && s[i + 1] == 'T' && s[i + 2] == 'O' && s[i + 3] == 'O' && s[i + 4] == 'L' && s[i + 5] == ':'
  }

  /** The regex tried at position `i`. */
  function MatchAt(s: string, i: nat): (r: Option<Match>)
    requires i <= |s|
    ensures r.Some? ==> i < r.value.end <= |s|
  {
    if OpensAt(s, i) then MatchName(s, i + |MarkerOpen|) else None
  }

  /**
   * The rest of the regex after `[TOOL:`. The name is the longest word run (a shorter one
   * would be followed by a word character, which is neither '|' nor ']'); the arguments run
   * up to the next ']'.
   */
  function MatchName(s: string, start: nat): (r: Option<Match>)
    requires start <= |s|
    ensures r.Some? ==> start < r.value.end <= |s|
  {
    var after := start + WordRun(s, start);
    if after == start || after == |s| then None else MatchRest(s, start, after)
  }

  /** After the name `s[start..after]`: either ']' or '|' and the arguments up to the next ']'. */
  function MatchRest(s: string, start: nat, after: nat): (r: Option<Match>)
    requires start < after < |s|
    ensures r.Some? ==> after < r.value.end <= |s|
  {
    if s[after] == ']' then Some(Match(RawCall(s[start..after], ""), after + 1))
    else if s[after] == '|' then
      match CharFrom(s, ']', after + 1)
      case None => None
      case Some(j) => Some(Match(RawCall(s[start..after], s[after + 1..j]), j + 1))
    else None
  }

  lemma MatchWellFormed(s: string, i: nat)
    requires i <= |s| && MatchAt(s, i).Some?
    ensures WellFormed(MatchAt(s, i).value.call)
  {
    var start := i + |MarkerOpen|;
    var after := start + WordRun(s, start);
    var name := s[start..after];
    assert forall k | 0 <= k < |name| :: name[k] == s[start + k];
    if s[after] == '|' {
      var j := CharFrom(s, ']', after + 1).value;
      var args := s[after + 1..j];
      assert forall k | 0 <= k < |args| :: args[k] == s[after + 1 + k];
    }
  }

  /** `re.finditer` from position `i`: after a match the search resumes at its end. */
  function ScanFrom(s: string, i: nat): seq<RawCall>
    requires i <= |s|
    decreases |s| - i
  {
    if i == |s| then []
    else
      match MatchAt(s, i)
      case Some(m) => [m.call] + ScanFrom(s, m.end)
      case None => ScanFrom(s, i + 1)
  }

  lemma {:induction false} ScanWellFormed(s: string, i: nat)
    requires i <= |s|
    ensures forall k | 0 <= k < |ScanFrom(s, i)| :: WellFormed(ScanFrom(s, i)[k])
    decreases |s| - i
  {
    if i < |s| {
      match MatchAt(s, i)
      case Some(m) =>
        MatchWellFormed(s, i);
        ScanWellFormed(s, m.end);
      case None =>
        ScanWellFormed(s, i + 1);
    }
  }

  /** `detect_tool_calls`: every marker in the text, left to right, each well formed. */
  function DetectToolCalls(text: string): (r: seq<RawCall>)
    ensures forall k | 0 <= k < |r| :: WellFormed(r[k])
  {
    ScanWellFormed(text, 0);
    ScanFrom(text, 0)
  }

  /** What follows the name in the marker the model writes for a call. */
  function Tail(c: RawCall): string {
    if c.args == [] then "]" else "|" + c.args + "]"
  }

  /** The marker the model writes for a call. */
  function MarkerText(c: RawCall): string {
    MarkerOpen + (c.name + Tail(c))
  }

  /** The markers of the calls, one after another. */
  function Markers(calls: seq<RawCall>): string {
    if calls == [] then [] else MarkerText(calls[0]) + Markers(calls[1..])
  }

  lemma WordRunShift(p: string, q: string, i: nat)
    requires i <= |q|
    ensures WordRun(p + q, |p| + i) == WordRun(q, i)
    decreases |q| - i
  {
    if i < |q| {
      assert (p + q)[|p| + i] == q[i];
      WordRunShift(p, q, i + 1);
    }
  }

  lemma CharFromShift(p: string, q: string, c: char, i: nat)
    requires i <= |q|
    ensures CharFrom(p + q, c, |p| + i) == (match CharFrom(q, c, i) case Some(j) => Some(|p| + j) case None => None)
    decreases |q| - i
  {
    if i < |q| {
      assert (p + q)[|p| + i] == q[i];
      CharFromShift(p, q, c, i + 1);
    }
  }

  lemma SliceShift(p: string, q: string, a: nat, b: nat)
    requires a <= b <= |q|
    ensures (p + q)[|p| + a..|p| + b] == q[a..b]
  {
  }

  lemma MatchRestShift(p: string, q: string, start: nat, after: nat)
    requires start < after < |q|
    ensures MatchRest(p + q, |p| + start, |p| + after) ==
      (match MatchRest(q, start, after) case Some(m) => Some(Match(m.call, |p| + m.end)) case None => None)
  {
    SliceShift(p, q, start, after);
    assert (p + q)[|p| + after] == q[after];
    if q[after] == '|' {
      CharFromShift(p, q, ']', after + 1);
      if CharFrom(q, ']', after + 1).Some? {
        SliceShift(p, q, after + 1, CharFrom(q, ']', after + 1).value);
      }
    }
  }

  lemma MatchNameShift(p: string, q: string, start: nat)
    requires start <= |q|
    ensures MatchName(p + q, |p| + start) ==
      (match MatchName(q, start) case Some(m) => Some(Match(m.call, |p| + m.end)) case None => None)
  {
    WordRunShift(p, q, start);
    var after := start + WordRun(q, start);
    if start < after < |q| {
      MatchRestShift(p, q, start, after);
    }
  }

  lemma OpensAtShift(p: string, q: string, i: nat)
    requires i <= |q|
    ensures OpensAt(p + q, |p| + i) == OpensAt(q, i)
  {
    if i + 6 <= |q| {
      assert (p + q)[|p| + i] == q[i] && (p + q)[|p| + i + 1] == q[i + 1] && (p + q)[|p| + i + 2] == q[i + 2];
      assert (p + q)[|p| + i + 3] == q[i + 3] && (p + q)[|p| + i + 4] == q[i + 4] && (p + q)[|p| + i + 5] == q[i + 5];
    }
  }

  /** Matching inside `q` does not depend on what comes before it. */
  lemma MatchAtShift(p: string, q: string, i: nat)
    requires i <= |q|
    ensures MatchAt(p + q, |p| + i) ==
      (match MatchAt(q, i) case Some(m) => Some(Match(m.call, |p| + m.end)) case None => None)
  {
    OpensAtShift(p, q, i);
    if OpensAt(q, i) {
      MatchNameShift(p, q, i + |MarkerOpen|);
    }
  }

  lemma {:induction false} ScanShift(p: string, q: string, i: nat)
    requires i <= |q|
    ensures ScanFrom(p + q, |p| + i) == ScanFrom(q, i)
    decreases |q| - i
  {
    if i < |q| {
      MatchAtShift(p, q, i);
      match MatchAt(q, i)
      case Some(m) => ScanShift(p, q, m.end);
      case None => ScanShift(p, q, i + 1);
    }
  }

  /** The name and arguments of a well-formed marker are matched whole. */
  lemma MatchNameOfCall(c: RawCall, rest: string)
    requires WellFormed(c)
    ensures MatchName(c.name + Tail(c) + rest, 0) == Some(Match(c, |c.name + Tail(c)|))
  {
    var s := c.name + Tail(c) + rest;
    var after := |c.name|;
    AssocAppend(c.name, Tail(c), rest);
    WordRunOfWord(c.name, Tail(c) + rest);
    assert s[..after] == c.name;
    if c.args != [] {
      MatchArgsOfCall(c, rest);
    }
  }

  lemma MatchArgsOfCall(c: RawCall, rest: string)
    requires WellFormed(c) && c.args != []
    ensures var s := c.name + Tail(c) + rest;
      |c.name| < |s| && MatchRest(s, 0, |c.name|) == Some(Match(c, |c.name + Tail(c)|))
  {
    var s := c.name + Tail(c) + rest;
    var after := |c.name|;
    var j := after + 1 + |c.args|;
    assert s[..after] == c.name;
    assert s[after] == '|' && s[j] == ']';
    assert s[after + 1..j] == c.args;
    assert forall k | 0 <= k < |c.args| :: s[after + 1 + k] == c.args[k];
    assert CharFrom(s, ']', after + 1) == Some(j);
  }

  lemma OpensAtFront(x: string)
    ensures OpensAt(MarkerOpen + x, 0)
  {
  }

  /** A well-formed marker at the front of the text is matched whole. */
  lemma MatchMarker(c: RawCall, rest: string)
    requires WellFormed(c)
    ensures MatchAt(MarkerText(c) + rest, 0) == Some(Match(c, |MarkerText(c)|))
  {
    var x := c.name + Tail(c) + rest;
    assert MarkerText(c) + rest == MarkerOpen + x by {
      AssocAppend(MarkerOpen, c.name + Tail(c), rest);
    }
    OpensAtFront(x);
    MatchNameOfCall(c, rest);
    MatchNameShift(MarkerOpen, x, 0);
  }

  lemma WordRunOfWord(w: string, rest: string)
    requires IsWord(w) && (rest == [] || !IsWordChar(rest[0]))
    ensures WordRun(w + rest, 0) == |w|
    decreases |w|
  {
    if w != [] {
      assert (w + rest)[1..] == w[1..] + rest;
      WordRunOfWord(w[1..], rest);
      WordRunShift([w[0]], w[1..] + rest, 0);
      assert [w[0]] + (w[1..] + rest) == w + rest;
    }
  }

  /** A match covering the prefix `p` is reported, and the scan resumes after `p`. */
  lemma ScanAfterMatch(p: string, rest: string, c: RawCall)
    requires MatchAt(p + rest, 0) == Some(Match(c, |p|))
    ensures ScanFrom(p + rest, 0) == [c] + ScanFrom(rest, 0)
  {
    ScanShift(p, rest, 0);
  }

  /** The scan takes a well-formed marker at the front whole and resumes after it. */
  lemma ScanMarker(c: RawCall, rest: string)
    requires WellFormed(c)
    ensures ScanFrom(MarkerText(c) + rest, 0) == [c] + ScanFrom(rest, 0)
  {
    MatchMarker(c, rest);
    ScanAfterMatch(MarkerText(c), rest, c);
  }

  /** Finding the markers of well-formed calls gives back exactly those calls, in order. */
  lemma {:induction false} DetectMarkers(calls: seq<RawCall>)
    requires forall k | 0 <= k < |calls| :: WellFormed(calls[k])
    ensures DetectToolCalls(Markers(calls)) == calls
  {
    if calls != [] {
      ScanMarker(calls[0], Markers(calls[1..]));
      DetectMarkers(calls[1..]);
      assert calls == [calls[0]] + calls[1..];
    }
  }

  /** Text without the marker prefix holds no calls. */
  lemma {:induction false} NoMarkerNoCalls(text: string, i: nat)
    requires i <= |text|
    requires forall k | i <= k <= |text| :: !OpensAt(text, k)
    ensures ScanFrom(text, i) == []
    decreases |text| - i
  {
    if i < |text| {
      NoMarkerNoCalls(text, i + 1);
    }
  }

  // ---------------------------------------------------------------------------------------
  // Parameters: `key=value` pieces separated by '|'
  // ---------------------------------------------------------------------------------------

  datatype ToolCall = ToolCall(tool: string, params: map<string, string>)

  /** A piece split at its first '=', both sides stripped; nothing for a piece without '='. */
  function ParamOf(piece: string): Option<(string, string)> {
    match CharFrom(piece, '=', 0)
    case None => None
    case Some(i) => Some((Trim(piece[..i]), Trim(piece[i + 1..])))
  }

  /** The dictionary after one more piece: its key set to its value, if it has one. */
  function Extend(m: map<string, string>, piece: string): map<string, string> {
    match ParamOf(piece)
    case None => m
    case Some(kv) => m[kv.0 := kv.1]
  }

  /** The dictionary the pieces fill, a later piece overwriting an earlier key. */
  function ParamsOf(pieces: seq<string>): map<string, string> {
    if pieces == [] then map[] else Extend(ParamsOf(pieces[..|pieces| - 1]), pieces[|pieces| - 1])
  }

  /** The parameters of a marker's argument text; an empty text gives none. */
  function ParamsText(args: string): map<string, string> {
    if args == [] then map[] else ParamsOf(Split(args, "|"))
  }

  /** The call a matched marker stands for. */
  function ToCall(c: RawCall): ToolCall {
    ToolCall(c.name, ParamsText(c.args))
  }

  /** `parse_tool_call_match`: the dictionary is filled piece by piece. */
  method ParseToolCall(c: RawCall) returns (call: ToolCall)
    ensures call == ToCall(c)
  {
    var params: map<string, string> := map[];
    if c.args != [] {
      var pieces := Split(c.args, "|");
      var i := 0;
      while i < |pieces|
        invariant 0 <= i <= |pieces|
        invariant params == ParamsOf(pieces[..i])
      {
        ParamsOfStep(pieces, i);
        params := AddParam(params, pieces[i]);
        i := i + 1;
      }
      assert pieces[..i] == pieces;
    }
    call := ToolCall(c.name, params);
  }

  /** One piece of the loop: split at its first '=' when it has one, both sides stripped. */
  method AddParam(params: map<string, string>, piece: string) returns (r: map<string, string>)
    ensures r == Extend(params, piece)
  {
    r := params;
    match CharFrom(piece, '=', 0) {
      case Some(eq) =>
        r := params[Trim(piece[..eq]) := Trim(piece[eq + 1..])];
      case None =>
    }
  }

  lemma ParamsOfStep(pieces: seq<string>, i: nat)
    requires i < |pieces|
    ensures ParamsOf(pieces[..i + 1]) == Extend(ParamsOf(pieces[..i]), pieces[i])
  {
    assert pieces[..i + 1][..i] == pieces[..i];
  }

  predicate Trimmed(s: string) {
    s == [] || (!IsSpace(s[0]) && !IsSpace(s[|s| - 1]))
  }

  /** A key and value the model can write so that they read back unchanged. */
  predicate Writable(kv: (string, string)) {
    !ContainsChar(kv.0, '|') && !ContainsChar(kv.0, '=') && !ContainsChar(kv.1, '|') && Trimmed(kv.0) && Trimmed(kv.1)
  }

  function ParamTexts(pairs: seq<(string, string)>): (r: seq<string>)
    ensures |r| == |pairs|
  {
    if pairs == [] then [] else ParamTexts(pairs[..|pairs| - 1]) + [pairs[|pairs| - 1].0 + "=" + pairs[|pairs| - 1].1]
  }

  lemma ParamOfText(kv: (string, string))
    requires Writable(kv)
    ensures ParamOf(kv.0 + "=" + kv.1) == Some(kv)
  {
    var piece := kv.0 + "=" + kv.1;
    assert forall k | 0 <= k < |kv.0| :: piece[k] == kv.0[k];
    assert piece[|kv.0|] == '=';
    assert CharFrom(piece, '=', 0) == Some(|kv.0|);
    assert piece[..|kv.0|] == kv.0;
    assert piece[|kv.0| + 1..] == kv.1;
  }

  lemma ParamTextsSnoc(pairs: seq<(string, string)>)
    requires pairs != []
    ensures ParamTexts(pairs) == ParamTexts(pairs[..|pairs| - 1]) + [pairs[|pairs| - 1].0 + "=" + pairs[|pairs| - 1].1]
    ensures ParamTexts(pairs)[..|pairs| - 1] == ParamTexts(pairs[..|pairs| - 1])
  {
  }

  function KeysOf(pairs: seq<(string, string)>): set<string> {
    if pairs == [] then {} else KeysOf(pairs[..|pairs| - 1]) + {pairs[|pairs| - 1].0}
  }

  lemma {:induction false} KeysOfMembers(pairs: seq<(string, string)>, key: string)
    ensures key in KeysOf(pairs) <==> exists i | 0 <= i < |pairs| :: pairs[i].0 == key
  {
    if pairs != [] {
      var n := |pairs| - 1;
      var init := pairs[..n];
      KeysOfMembers(init, key);
      if key in KeysOf(init) {
        var i :| 0 <= i < n && init[i].0 == key;
        assert pairs[i].0 == key;
      }
      if exists i | 0 <= i < |pairs| :: pairs[i].0 == key {
        var i :| 0 <= i < |pairs| && pairs[i].0 == key;
        if i < n {
          assert init[i].0 == key;
        }
      }
    }
  }

  /** The keys read back are exactly the keys written. */
  lemma {:induction false} ParamsKeys(pairs: seq<(string, string)>)
    requires forall i | 0 <= i < |pairs| :: Writable(pairs[i])
    ensures ParamsOf(ParamTexts(pairs)).Keys == KeysOf(pairs)
  {
    if pairs != [] {
      var n := |pairs| - 1;
      ParamTextsSnoc(pairs);
      ParamsKeys(pairs[..n]);
      ParamOfText(pairs[n]);
    }
  }

  /** A key holds the value of its last piece: a later duplicate key wins. */
  lemma {:induction false} ParamsLast(pairs: seq<(string, string)>, i: nat)
    requires forall k | 0 <= k < |pairs| :: Writable(pairs[k])
    requires i < |pairs| && forall j | i < j < |pairs| :: pairs[j].0 != pairs[i].0
    ensures pairs[i].0 in ParamsOf(ParamTexts(pairs)) && ParamsOf(ParamTexts(pairs))[pairs[i].0] == pairs[i].1
  {
    var n := |pairs| - 1;
    var init := pairs[..n];
    ParamTextsSnoc(pairs);
    ParamOfText(pairs[n]);
    if i < n {
      assert init[i] == pairs[i];
      ParamsLast(init, i);
    }
  }

  /**
   * Parameters written as `key=value` pieces joined by '|' read back as written: every key
   * is present and holds the value of its last piece.
   */
  lemma ParamsRoundTrip(pairs: seq<(string, string)>)
    requires |pairs| >= 1 && forall i | 0 <= i < |pairs| :: Writable(pairs[i])
    ensures var m := ParamsText(Join(ParamTexts(pairs), "|"));
      (forall key :: key in m <==> exists i | 0 <= i < |pairs| :: pairs[i].0 == key) &&
      (forall i | 0 <= i < |pairs| && (forall j | i < j < |pairs| :: pairs[j].0 != pairs[i].0) :: m[pairs[i].0] == pairs[i].1)
  {
    var texts := ParamTexts(pairs);
    forall k | 0 <= k < |texts|
      ensures !ContainsChar(texts[k], "|"[0])
    {
      PieceWithoutBar(pairs, k);
    }
    PieceWithoutBar(pairs, 0);
    SplitJoin(texts, "|");
    JoinNonEmpty(texts, "|");
    assert ParamsText(Join(texts, "|")) == ParamsOf(texts);
    ParamsKeys(pairs);
    forall key
      ensures key in ParamsOf(texts) <==> exists i | 0 <= i < |pairs| :: pairs[i].0 == key
    {
      KeysOfMembers(pairs, key);
    }
    forall i | 0 <= i < |pairs| && (forall j | i < j < |pairs| :: pairs[j].0 != pairs[i].0)
      ensures ParamsOf(texts)[pairs[i].0] == pairs[i].1
    {
      ParamsLast(pairs, i);
    }
  }

  lemma {:induction false} PieceWithoutBar(pairs: seq<(string, string)>, k: nat)
    requires k < |pairs| && forall i | 0 <= i < |pairs| :: Writable(pairs[i])
    ensures !ContainsChar(ParamTexts(pairs)[k], '|') && ParamTexts(pairs)[k] != []
  {
    var n := |pairs| - 1;
    if k < n {
      assert ParamTexts(pairs)[k] == ParamTexts(pairs[..n])[k];
      PieceWithoutBar(pairs[..n], k);
    } else {
      var t := pairs[n].0 + "=" + pairs[n].1;
      assert forall j | 0 <= j < |t| :: t[j] == (if j < |pairs[n].0| then pairs[n].0[j] else if j == |pairs[n].0| then '=' else pairs[n].1[j - |pairs[n].0| - 1]);
    }
  }

  lemma JoinNonEmpty(parts: seq<string>, sep: string)
    requires |parts| >= 1 && parts[0] != []
    ensures Join(parts, sep) != []
  {
  }

  // ---------------------------------------------------------------------------------------
  // Hiding markers from the streamed text
  // ---------------------------------------------------------------------------------------

  /** A bracketed group the filter hides: one that opens like a marker. */
  predicate IsToolGroup(group: string) {
    OpensAt(group, 0)
  }

  /**
   * The `response_chunk` texts the reply streams as from position `i` on: a character
   * outside brackets on its own; a group from '[' to the next ']' whole, or not at all when
   * it starts with `[TOOL:`; a group the reply leaves open, whole at the end.
   */
  function FilterFrom(text: string, i: nat): seq<string>
    requires i <= |text|
    decreases |text| - i, 1
  {
    if i == |text| then []
    else if text[i] != '[' then [[text[i]]] + FilterFrom(text, i + 1)
    else GroupFrom(text, i)
  }

  /** The chunks from a '[' at `i` on: the group up to the next ']' is decided, then the filter goes on. */
  function GroupFrom(text: string, i: nat): seq<string>
    requires i < |text|
    decreases |text| - i, 0
  {
    match CharFrom(text, ']', i)
    case None => [text[i..]]
    case Some(j) =>
      var group := text[i..j + 1];
      (if IsToolGroup(group) then [] else [group]) + FilterFrom(text, j + 1)
  }

  /** The chunks one round's reply streams as. */
  function FilterEvents(text: string): seq<string> {
    FilterFrom(text, 0)
  }

  lemma CharFromFirst(s: string, c: char, from: nat, j: nat)
    requires from <= j < |s| && s[j] == c && forall k | from <= k < j :: s[k] != c
    ensures CharFrom(s, c, from) == Some(j)
    decreases j - from
  {
    if from < j {
      CharFromFirst(s, c, from + 1, j);
    }
  }

  /** What the filter holds back is `text[start..i]`: nothing, or a group opened by '[' and not closed. */
  predicate HeldAt(text: string, start: nat, i: nat)
    requires start <= i <= |text|
  {
    start < i ==> text[start] == '[' && forall k | start <= k < i :: text[k] != ']'
  }

  /** The ']' at `i` closes the group held from `start`: the group is decided and the filter restarts after it. */
  lemma CloseAt(text: string, start: nat, i: nat)
    requires start < i < |text| && HeldAt(text, start, i) && text[i] == ']'
    ensures FilterFrom(text, start) ==
      (if IsToolGroup(text[start..i + 1]) then [] else [text[start..i + 1]]) + FilterFrom(text, i + 1)
  {
    CharFromFirst(text, ']', start, i);
  }

  /** A group still open when the reply ends is streamed whole. */
  lemma OpenAtEnd(text: string, start: nat)
    requires start < |text| && HeldAt(text, start, |text|)
    ensures FilterFrom(text, start) == [text[start..]]
  {
    assert CharFrom(text, ']', start).None?;
  }

  /**
   * One character of the reply, `text[i]`: outside a group it is streamed alone or opens a
   * group; inside a group it is held back until the ']' that decides the group. The chunks
   * streamed so far followed by what the filter will stream from the held group on stay the
   * same.
   */
  method FilterChar(text: string, i: nat, chunks: seq<string>, potential: string, parsing: bool,
                    ghost whole: seq<string>)
    returns (chunks': seq<string>, potential': string, parsing': bool)
    requires i < |text| && |potential| <= i && potential == text[i - |potential|..i]
    requires parsing <==> potential != []
    requires HeldAt(text, i - |potential|, i)
    requires chunks + FilterFrom(text, i - |potential|) == whole
    ensures |potential'| <= i + 1 && potential' == text[i + 1 - |potential'|..i + 1]
    ensures parsing' <==> potential' != []
    ensures HeldAt(text, i + 1 - |potential'|, i + 1)
    ensures chunks' + FilterFrom(text, i + 1 - |potential'|) == whole
  {
    ghost var start := i - |potential|;
    var c := text[i];
    chunks', potential', parsing' := chunks, potential, parsing;
    assert text[start..i + 1] == text[start..i] + [c];
    if parsing {
      if c == ']' {
        var group := potential + [c];
        CloseAt(text, start, i);
        ghost var rest := FilterFrom(text, i + 1);
        // `re.match(r'\[TOOL:.*?\]', ...)` on a group ending at its only ']'
        if !IsToolGroup(group) {
          chunks' := chunks + [group];
          assert chunks + ([group] + rest) == chunks' + rest;
        } else {
          assert chunks + ([] + rest) == chunks' + rest;
        }
        parsing' := false;
        potential' := [];
      } else {
        potential' := potential + [c];
      }
    } else if c == '[' {
      parsing' := true;
      potential' := [c];
    } else {
      chunks' := chunks + [[c]];
      assert chunks + ([[c]] + FilterFrom(text, i + 1)) == chunks' + FilterFrom(text, i + 1);
    }
  }

  /** The character loop of one round, holding back a bracketed group until it closes. */
  method FilterRound(text: string) returns (chunks: seq<string>)
    ensures chunks == FilterEvents(text)
  {
    ghost var whole := FilterEvents(text);
    chunks := [];
    var potential: string := [];
    var parsing := false;
    var i := 0;
    assert chunks + FilterFrom(text, 0) == whole;
    while i < |text|
      invariant 0 <= i <= |text|
      invariant |potential| <= i && potential == text[i - |potential|..i]
      invariant parsing <==> potential != []
      invariant HeldAt(text, i - |potential|, i)
      invariant chunks + FilterFrom(text, i - |potential|) == whole
    {
      chunks, potential, parsing := FilterChar(text, i, chunks, potential, parsing, whole);
      i := i + 1;
    }
    if potential != [] {
      OpenAtEnd(text, i - |potential|);
      assert text[i - |potential|..] == potential;
      chunks := chunks + [potential];
    } else {
      assert chunks + [] == chunks;
    }
  }

  /** A group inside `q` closed at `j` is decided the same whatever precedes `q`, given that what follows it is. */
  lemma GroupShiftClosed(p: string, q: string, i: nat, j: nat)
    requires i < |q| && CharFrom(q, ']', i) == Some(j)
    requires FilterFrom(p + q, |p| + j + 1) == FilterFrom(q, j + 1)
    ensures GroupFrom(p + q, |p| + i) == GroupFrom(q, i)
  {
    CharFromShift(p, q, ']', i);
    SliceShift(p, q, i, j + 1);
  }

  /** A group inside `q` left open is streamed the same whatever precedes `q`. */
  lemma GroupShiftOpen(p: string, q: string, i: nat)
    requires i < |q| && CharFrom(q, ']', i).None?
    ensures GroupFrom(p + q, |p| + i) == GroupFrom(q, i)
  {
    CharFromShift(p, q, ']', i);
    assert (p + q)[|p| + i..] == q[i..];
  }

  /** Filtering inside `q` does not depend on what comes before it. */
  lemma {:induction false} FilterShift(p: string, q: string, i: nat)
    requires i <= |q|
    ensures FilterFrom(p + q, |p| + i) == FilterFrom(q, i)
    decreases |q| - i
  {
    if i < |q| {
      assert (p + q)[|p| + i] == q[i];
      if q[i] != '[' {
        FilterShift(p, q, i + 1);
      } else {
        match CharFrom(q, ']', i)
        case None =>
          GroupShiftOpen(p, q, i);
        case Some(j) =>
          FilterShift(p, q, j + 1);
          GroupShiftClosed(p, q, i, j);
      }
    }
  }

  /** A group taken from the text opens like a marker only where the text does. */
  lemma GroupOpensAt(text: string, i: nat, j: nat)
    requires i <= j <= |text| && !OpensAt(text, i)
    ensures !IsToolGroup(text[i..j])
  {
    var g := text[i..j];
    if |g| >= 6 {
      assert g[0] == text[i] && g[1] == text[i + 1] && g[2] == text[i + 2];
      assert g[3] == text[i + 3] && g[4] == text[i + 4] && g[5] == text[i + 5];
    }
  }

  /** A plain character in front of text that streams as itself. */
  lemma PassPlainAt(text: string, i: nat)
    requires i < |text| && text[i] != '['
    requires Concat(FilterFrom(text, i + 1)) == text[i + 1..]
    ensures Concat(FilterFrom(text, i)) == text[i..]
  {
    ConcatCons([text[i]], FilterFrom(text, i + 1));
    assert text[i..] == [text[i]] + text[i + 1..];
  }

  /** A group that does not open like a marker, in front of text that streams as itself. */
  lemma PassGroupAt(text: string, i: nat)
    requires i < |text| && text[i] == '[' && !OpensAt(text, i)
    requires CharFrom(text, ']', i).Some? ==>
      Concat(FilterFrom(text, CharFrom(text, ']', i).value + 1)) == text[CharFrom(text, ']', i).value + 1..]
    ensures Concat(FilterFrom(text, i)) == text[i..]
  {
    match CharFrom(text, ']', i)
    case None =>
      ConcatCons(text[i..], []);
    case Some(j) =>
      var group := text[i..j + 1];
      GroupOpensAt(text, i, j + 1);
      ConcatCons(group, FilterFrom(text, j + 1));
      assert text[i..] == group + text[j + 1..];
  }

  /** From position `i` on, text where `[TOOL:` never starts streams as itself. */
  lemma {:induction false} PassThroughFrom(text: string, i: nat)
    requires i <= |text| && forall k | i <= k < |text| :: !OpensAt(text, k)
    ensures Concat(FilterFrom(text, i)) == text[i..]
    decreases |text| - i
  {
    if i < |text| {
      if text[i] != '[' {
        PassThroughFrom(text, i + 1);
        PassPlainAt(text, i);
      } else {
        var r := CharFrom(text, ']', i);
        if r.Some? {
          PassThroughFrom(text, r.value + 1);
        }
        PassGroupAt(text, i);
      }
    }
  }

  /** A reply without any `[TOOL:` streams as itself. */
  lemma FilterPassThrough(text: string)
    requires forall i | 0 <= i < |text| :: !OpensAt(text, i)
    ensures Concat(FilterEvents(text)) == text
  {
    PassThroughFrom(text, 0);
  }

  lemma {:induction false} PlainPrefixFrom(a: string, rest: string, k: nat)
    requires k <= |a| && !ContainsChar(a, '[')
    ensures FilterFrom(a + rest, k) == FilterFrom(a, k) + FilterEvents(rest)
    decreases |a| - k
  {
    if k < |a| {
      assert (a + rest)[k] == a[k] && a[k] != '[';
      PlainPrefixFrom(a, rest, k + 1);
      var x, y := FilterFrom(a, k + 1), FilterEvents(rest);
      assert [[a[k]]] + (x + y) == ([[a[k]]] + x) + y;
    } else {
      FilterShift(a, rest, 0);
    }
  }

  /** Text before any '[' streams character by character, independently of what follows. */
  lemma FilterPlainPrefix(a: string, rest: string)
    requires !ContainsChar(a, '[')
    ensures FilterEvents(a + rest) == FilterEvents(a) + FilterEvents(rest)
  {
    PlainPrefixFrom(a, rest, 0);
  }

  /** The only ']' in a well-formed marker is its last character. */
  lemma MarkerCloses(c: RawCall)
    requires WellFormed(c)
    ensures var m := MarkerText(c);
      |m| > 6 && m[|m| - 1] == ']' && forall k | 0 <= k < |m| - 1 :: m[k] != ']'
  {
    var m := MarkerText(c);
    forall k | 0 <= k < |m| - 1
      ensures m[k] != ']'
    {
      if 6 <= k < 6 + |c.name| {
        assert m[k] == c.name[k - 6];
        assert IsWordChar(c.name[k - 6]);
      } else if 6 + |c.name| + 1 <= k {
        assert m[k] == c.args[k - 6 - |c.name| - 1];
      }
    }
  }

  /** A well-formed marker is hidden completely, and the filter starts afresh after it. */
  lemma FilterHidesMarker(c: RawCall, rest: string)
    requires WellFormed(c)
    ensures FilterEvents(MarkerText(c) + rest) == FilterEvents(rest)
  {
    var m := MarkerText(c);
    MarkerCloses(c);
    OpensAtFront(c.name + Tail(c));
    HiddenGroup(m, rest);
    FilterShift(m, rest, 0);
  }

  /** A group that starts like a marker and ends at its only ']' is dropped whole. */
  lemma HiddenGroup(m: string, rest: string)
    requires |m| > 6 && IsToolGroup(m) && m[|m| - 1] == ']' && forall k | 0 <= k < |m| - 1 :: m[k] != ']'
    ensures FilterFrom(m + rest, 0) == FilterFrom(m + rest, |m|)
  {
    var s := m + rest;
    assert s[..|m|] == m;
    assert HeldAt(s, 0, |m| - 1) by {
      assert forall k | 0 <= k < |m| - 1 :: s[k] == m[k];
    }
    CloseAt(s, 0, |m| - 1);
    assert s[0..|m|] == m;
  }

  /** A reply of plain text, a marker and more text streams the text around the marker. */
  lemma FilterAroundMarker(a: string, c: RawCall, b: string)
    requires !ContainsChar(a, '[') && WellFormed(c)
    ensures FilterEvents(a + MarkerText(c) + b) == FilterEvents(a) + FilterEvents(b)
  {
    assert a + MarkerText(c) + b == a + (MarkerText(c) + b);
    FilterPlainPrefix(a, MarkerText(c) + b);
    FilterHidesMarker(c, b);
  }
}
