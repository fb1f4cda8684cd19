/**
 * The talking head's feed (`MimirAvatar` in `frontend/src/components/Avatar/MimirAvatar.tsx`):
 * a FIFO of base64 audio clips and a buffer of response text. Each clip is decoded and spoken
 * with the next words of the buffer, as many as the clip lasts quarter seconds (at least one).
 *
 * A run of `processQueue` waits twice (for decoding, then for speech), so it is modelled in two
 * steps: `Start` takes the head clip off the queue, `Finish` consumes the words and ends the
 * run, then starts the next one as the `finally` block does. Text and clips may arrive in
 * between. Decoding is the parameter `units`: `ceil(duration * 4)` of the decoded clip, or
 * `None` when decoding raised.
 */
module Avatar {
  import opened Wrappers
  import opened Text

  // ---------------------------------------------------------------------------------------
  // Words
  // ---------------------------------------------------------------------------------------

  /** A word of `split(/\s+/)` on a trimmed string: non-empty, no whitespace. */
  predicate IsWord(w: string) {
    w != [] && forall k | 0 <= k < |w| :: !IsSpace(w[k])
  }

  /** The end of the run of non-space characters starting at `i`. */
  function WordEnd(s: string, i: nat): (r: nat)
    requires i <= |s|
    ensures i <= r <= |s|
    decreases |s| - i
  {
    if i == |s| || IsSpace(s[i]) then i else WordEnd(s, i + 1)
  }

  /** The run ends at the first whitespace character, or at the end of the string. */
  lemma {:induction false} WordEndStops(s: string, i: nat)
    requires i <= |s|
    ensures forall k | i <= k < WordEnd(s, i) :: !IsSpace(s[k])
    ensures WordEnd(s, i) == |s| || IsSpace(s[WordEnd(s, i)])
    decreases |s| - i
  {
    if i < |s| && !IsSpace(s[i]) {
      WordEndStops(s, i + 1);
    }
  }

  /**
   * `s.trim().split(/\s+/)`, with the single empty piece of a blank buffer read as no words:
   * the maximal runs of non-space characters, in order.
   */
  function Words(s: string): seq<string>
    decreases |s|
  {
    if s == [] then []
    else if IsSpace(s[0]) then Words(s[1..])
    else
      var n := WordEnd(s, 1);
      [s[..n]] + Words(s[n..])
  }

  predicate AllWords(ws: seq<string>) {
    forall i | 0 <= i < |ws| :: IsWord(ws[i])
  }

  /** Every piece of the split is a word. */
  lemma {:induction false} WordsAreWords(s: string)
    ensures AllWords(Words(s))
    decreases |s|
  {
    if s != [] && IsSpace(s[0]) {
      WordsAreWords(s[1..]);
    } else if s != [] {
      var n := WordEnd(s, 1);
      WordEndStops(s, 1);
      WordsAreWords(s[n..]);
      assert IsWord(s[..n]);
      var r := Words(s);
      assert r == [s[..n]] + Words(s[n..]);
      forall i | 0 <= i < |r| ensures IsWord(r[i]) {
        if i > 0 {
          assert r[i] == Words(s[n..])[i - 1];
        }
      }
    }
  }

  /** A word followed by nothing or by whitespace comes out as that word, then the rest. */
  lemma WordsCons(w: string, tail: string)
    requires IsWord(w) && (tail == [] || IsSpace(tail[0]))
    ensures Words(w + tail) == [w] + Words(tail)
  {
    var s := w + tail;
    assert forall k | 0 <= k < |w| :: s[k] == w[k];
    WordEndStops(s, 1);
    assert WordEnd(s, 1) == |w| by {
      assert |w| == |s| || s[|w|] == tail[0];
    }
    assert s[..|w|] == w && s[|w|..] == tail;
  }

  /** The last step of `WordsJoin`: a word, a space, then words already known to split back. */
  lemma WordsJoinStep(ws: seq<string>)
    requires |ws| > 1 && IsWord(ws[0])
    requires Words(Join(ws[1..], " ")) == ws[1..]
    ensures Words(Join(ws, " ")) == ws
  {
    var rest := Join(ws[1..], " ");
    assert Join(ws, " ") == ws[0] + (" " + rest);
    WordsCons(ws[0], " " + rest);
    assert (" " + rest)[1..] == rest;
    assert [ws[0]] + ws[1..] == ws;
  }

  /** The buffer `rest.join(" ")` splits back into exactly `rest`. */
  lemma {:induction false} WordsJoin(ws: seq<string>)
    requires AllWords(ws)
    ensures Words(Join(ws, " ")) == ws
  {
    if |ws| == 1 {
      WordsCons(ws[0], []);
      assert ws[0] + [] == ws[0];
      assert [ws[0]] == ws;
    } else if |ws| > 1 {
      assert AllWords(ws[1..]) by {
        assert forall i | 0 <= i < |ws| - 1 :: ws[1..][i] == ws[i + 1];
      }
      WordsJoin(ws[1..]);
      WordsJoinStep(ws);
    }
  }

  /** `Math.max(1, Math.ceil(duration * 4))`, from the ceiling of four times the duration. */
  function TargetWords(units: int): (r: int)
    ensures r >= 1 && r >= units
    ensures units >= 1 ==> r == units
  {
    if units < 1 then 1 else units
  }

  /**
   * One clip's share of the buffer: the first `target` words are spoken, the rest stay in
   * the buffer joined by single spaces.
   */
  function Consume(buffer: string, units: int): (r: (seq<string>, string)) {
    var words := Words(buffer);
    var n := if TargetWords(units) < |words| then TargetWords(units) else |words|;
    (words[..n], Join(words[n..], " "))
  }

  /**
   * No word is lost or reordered: the words spoken followed by the words of the new buffer
   * are the words of the old one; as many are spoken as the clip allows, at least one when
   * there is any text.
   */
  lemma ConsumeSplitsWords(buffer: string, units: int)
    ensures Consume(buffer, units).0 + Words(Consume(buffer, units).1) == Words(buffer)
    ensures |Consume(buffer, units).0| ==
      (if TargetWords(units) < |Words(buffer)| then TargetWords(units) else |Words(buffer)|)
    ensures Words(buffer) != [] ==> Consume(buffer, units).0 != []
  {
    var words := Words(buffer);
    var n := if TargetWords(units) < |words| then TargetWords(units) else |words|;
    WordsAreWords(buffer);
    RestSplitsBack(words, n);
  }

  lemma RestSplitsBack(words: seq<string>, n: nat)
    requires AllWords(words) && n <= |words|
    ensures words[..n] + Words(Join(words[n..], " ")) == words
  {
    assert AllWords(words[n..]) by {
      assert forall i | 0 <= i < |words| - n :: words[n..][i] == words[n + i];
    }
    WordsJoin(words[n..]);
    assert words[..n] + words[n..] == words;
  }

  // ---------------------------------------------------------------------------------------
  // The feed
  // ---------------------------------------------------------------------------------------

  /** A finished run: the clip, and the words spoken with it, or `None` when decoding raised. */
  datatype Utterance = Utterance(clip: string, words: Option<seq<string>>)

  /**
   * The refs (queue, buffer, processing flag), whether the head has loaded, the clip of the
   * run in progress, and the runs finished so far.
   */
  datatype Feed = Feed(queue: seq<string>, buffer: string, processing: bool, ready: bool,
                       current: Option<string>, spoken: seq<Utterance>)

  const Initial: Feed := Feed([], "", false, false, None, [])

  /** A run is in progress exactly while the flag is set. */
  predicate Valid(f: Feed) {
    f.processing <==> f.current.Some?
  }

  /**
   * `processQueue` up to its first wait: nothing while a run is in progress, before the head
   * has loaded or with no clip waiting; an empty clip is dropped and the next one tried (its
   * `return` still runs the `finally` block); otherwise the head clip starts a run.
   */
  function Start(f: Feed): (r: Feed)
    decreases |f.queue|
  {
    if f.processing || !f.ready || f.queue == [] then f
    else if f.queue[0] == "" then Start(f.(queue := f.queue[1..]))
    else f.(queue := f.queue[1..], processing := true, current := Some(f.queue[0]))
  }

  /**
   * The rest of the run: the words are consumed when decoding succeeded (a failed decode
   * leaves the buffer alone), the flag is cleared and the next clip is started. Without a
   * run in progress nothing happens.
   */
  function Finish(f: Feed, units: Option<int>): (r: Feed) {
    if f.current.None? then f else Start(Ended(f, units))
  }

  /** The run in progress recorded as finished, before the next clip is tried. */
  function Ended(f: Feed, units: Option<int>): (r: Feed)
    requires f.current.Some?
    ensures r.queue == f.queue && r.ready == f.ready && !r.processing && r.current.None?
    ensures |r.spoken| == |f.spoken| + 1 && r.spoken[..|f.spoken|] == f.spoken
    ensures r.spoken[|f.spoken|].clip == f.current.value
    ensures units.None? ==> r.buffer == f.buffer && r.spoken[|f.spoken|].words.None?
  {
    match units
    case None => f.(spoken := f.spoken + [Utterance(f.current.value, None)], processing := false, current := None)
    case Some(u) =>
      var (words, rest) := Consume(f.buffer, u);
      f.(buffer := rest, spoken := f.spoken + [Utterance(f.current.value, Some(words))],
         processing := false, current := None)
  }

  /** `addAudio`: the clip joins the queue, and a run starts if none is in progress. */
  function AudioAdded(f: Feed, clip: string): Feed {
    Start(f.(queue := f.queue + [clip]))
  }

  /** `addText`: the text is appended, after one space when the buffer is not empty. */
  function TextAdded(f: Feed, text: string): (r: Feed)
    ensures r.buffer == if f.buffer != "" then f.buffer + " " + text else text
    ensures r.(buffer := f.buffer) == f
  {
    f.(buffer := f.buffer + (if f.buffer != "" then " " else "") + text)
  }

  /** `stop`: the queue and the buffer are emptied and the run in progress ends. */
  function Stopped(f: Feed): (r: Feed)
    ensures r.queue == [] && r.buffer == "" && !r.processing && Valid(r)
    ensures r.ready == f.ready && r.spoken == f.spoken
  {
    f.(queue := [], buffer := "", processing := false, current := None)
  }

  /** The head finishes loading. */
  function Load(f: Feed): Feed {
    f.(ready := true)
  }

  /** What the start of a run does, case by case. */
  lemma StartCases(f: Feed)
    requires Valid(f)
    ensures Valid(Start(f))
    ensures f.processing || !f.ready || f.queue == [] ==> Start(f) == f
    ensures !f.processing && f.ready && f.queue != [] && f.queue[0] != "" ==>
      Start(f) == f.(queue := f.queue[1..], processing := true, current := Some(f.queue[0]))
    ensures Start(f).buffer == f.buffer && Start(f).spoken == f.spoken && Start(f).ready == f.ready
    decreases |f.queue|
  {
    if !f.processing && f.ready && f.queue != [] && f.queue[0] == "" {
      StartCases(f.(queue := f.queue[1..]));
    }
  }

  /** Starting only ever takes clips off the front of the queue. */
  lemma {:induction false} StartDropsFront(f: Feed)
    ensures |Start(f).queue| <= |f.queue| && Start(f).queue == f.queue[|f.queue| - |Start(f).queue|..]
    decreases |f.queue|
  {
    if !f.processing && f.ready && f.queue != [] && f.queue[0] == "" {
      var g := f.(queue := f.queue[1..]);
      StartDropsFront(g);
      var n := |Start(g).queue|;
      assert g.queue[|g.queue| - n..] == f.queue[|f.queue| - n..];
    }
  }

  /** After every run, whatever decoding did, the flag is cleared before the next clip is tried. */
  lemma FinishStartsNext(f: Feed, units: Option<int>)
    requires Valid(f) && f.current.Some? && f.ready
    ensures Valid(Finish(f, units))
    ensures |f.queue| > 0 && f.queue[0] != "" ==> Finish(f, units).current == Some(f.queue[0])
    ensures (forall i | 0 <= i < |f.queue| :: f.queue[i] == "") ==> !Finish(f, units).processing
    ensures units.None? ==> Finish(f, units).buffer == f.buffer
  {
    EmptyClipsSkipped(Ended(f, units));
  }

  lemma {:induction false} EmptyClipsSkipped(f: Feed)
    requires !f.processing && f.current.None? && f.ready
    ensures Valid(Start(f))
    ensures |f.queue| > 0 && f.queue[0] != "" ==> Start(f).current == Some(f.queue[0])
    ensures (forall i | 0 <= i < |f.queue| :: f.queue[i] == "") ==> !Start(f).processing
    ensures Start(f).buffer == f.buffer
    decreases |f.queue|
  {
    if f.queue != [] && f.queue[0] == "" {
      EmptyClipsSkipped(f.(queue := f.queue[1..]));
    }
  }

  // ---------------------------------------------------------------------------------------
  // First in, first out
  // ---------------------------------------------------------------------------------------

  /** The clips that will be played, in order: empty clips are dropped unplayed. */
  function Audible(clips: seq<string>): seq<string> {
    if clips == [] then []
    else Audible(clips[..|clips| - 1]) + (if clips[|clips| - 1] == "" then [] else [clips[|clips| - 1]])
  }

  lemma {:induction false} AudibleAppend(a: seq<string>, b: seq<string>)
    ensures Audible(a + b) == Audible(a) + Audible(b)
    decreases |b|
  {
    if b == [] {
      assert a + b == a;
    } else {
      var b' := b[..|b| - 1];
      assert (a + b)[..|a + b| - 1] == a + b';
      AudibleAppend(a, b');
    }
  }

  function Clips(spoken: seq<Utterance>): seq<string> {
    if spoken == [] then [] else Clips(spoken[..|spoken| - 1]) + [spoken[|spoken| - 1].clip]
  }

  /**
   * Every audible clip handed over, in order: those whose run has ended, the one in progress,
   * then those waiting.
   */
  function Heard(f: Feed): seq<string> {
    Clips(f.spoken) + (if f.current.Some? then [f.current.value] else []) + Audible(f.queue)
  }

  lemma {:induction false} StartKeepsOrder(f: Feed)
    requires Valid(f) && (f.current.Some? ==> f.current.value != "")
    ensures Heard(Start(f)) == Heard(f)
    ensures Start(f).current.Some? ==> Start(f).current.value != ""
    decreases |f.queue|
  {
    if !f.processing && f.ready && f.queue != [] {
      var q := f.queue;
      AudibleAppend([q[0]], q[1..]);
      assert [q[0]] + q[1..] == q;
      assert Audible([q[0]]) == Audible([]) + (if q[0] == "" then [] else [q[0]]) by {
        assert [q[0]][..0] == [];
      }
      if q[0] == "" {
        StartKeepsOrder(f.(queue := q[1..]));
      }
    }
  }

  /** Ending a run moves its clip from "in progress" to "ended": the order is unchanged. */
  lemma FinishKeepsOrder(f: Feed, units: Option<int>)
    requires Valid(f) && (f.current.Some? ==> f.current.value != "")
    ensures Heard(Finish(f, units)) == Heard(f)
    ensures Finish(f, units).current.Some? ==> Finish(f, units).current.value != ""
  {
    if f.current.Some? {
      var ended := Ended(f, units);
      assert Clips(ended.spoken) == Clips(f.spoken) + [f.current.value] by {
        assert ended.spoken[..|ended.spoken| - 1] == f.spoken;
      }
      StartKeepsOrder(ended);
    }
  }

  /** What can happen to the feed. */
  datatype Event = Audio(clip: string) | Caption(text: string) | Decoded(units: Option<int>) | Halt | HeadLoaded

  function Step(f: Feed, e: Event): Feed {
    match e
    case Audio(clip) => AudioAdded(f, clip)
    case Caption(text) => TextAdded(f, text)
    case Decoded(units) => Finish(f, units)
    case Halt => Stopped(f)
    case HeadLoaded => Load(f)
  }

  function Run(evs: seq<Event>): Feed {
    if evs == [] then Initial else Step(Run(evs[..|evs| - 1]), evs[|evs| - 1])
  }

  /** The clips handed over, in order. */
  function Pushed(evs: seq<Event>): seq<string> {
    if evs == [] then []
    else Pushed(evs[..|evs| - 1]) + (if evs[|evs| - 1].Audio? then [evs[|evs| - 1].clip] else [])
  }

  lemma StepKeepsOrder(f: Feed, e: Event)
    requires Valid(f) && (f.current.Some? ==> f.current.value != "") && !e.Halt?
    ensures Valid(Step(f, e)) && (Step(f, e).current.Some? ==> Step(f, e).current.value != "")
    ensures Heard(Step(f, e)) == Heard(f) + Audible(if e.Audio? then [e.clip] else [])
  {
    match e
    case Audio(clip) =>
      AudioKeepsOrder(f, clip);
    case Caption(_) =>
    case Decoded(units) =>
      DecodedKeepsOrder(f, units);
    case HeadLoaded =>
  }

  lemma AudioKeepsOrder(f: Feed, clip: string)
    requires Valid(f) && (f.current.Some? ==> f.current.value != "")
    ensures var r := AudioAdded(f, clip);
      Valid(r) && (r.current.Some? ==> r.current.value != "") && Heard(r) == Heard(f) + Audible([clip])
  {
    var g := f.(queue := f.queue + [clip]);
    AudibleAppend(f.queue, [clip]);
    StartKeepsOrder(g);
    StartCases(g);
  }

  lemma DecodedKeepsOrder(f: Feed, units: Option<int>)
    requires Valid(f) && (f.current.Some? ==> f.current.value != "")
    ensures var r := Finish(f, units);
      Valid(r) && (r.current.Some? ==> r.current.value != "") && Heard(r) == Heard(f)
  {
    FinishKeepsOrder(f, units);
    if f.current.Some? && f.ready {
      FinishStartsNext(f, units);
    } else if f.current.Some? {
      FinishNotReady(f, units);
    }
  }

  lemma FinishNotReady(f: Feed, units: Option<int>)
    requires Valid(f) && f.current.Some? && !f.ready
    ensures Valid(Finish(f, units))
  {
  }

  /**
   * Until the feed is stopped, clips are played one at a time in the order they were
   * handed over: those played, the one playing and those waiting are the non-empty clips
   * pushed, in push order.
   */
  lemma {:induction false} PlaysInOrder(evs: seq<Event>)
    requires forall i | 0 <= i < |evs| :: !evs[i].Halt?
    ensures Valid(Run(evs))
    ensures Run(evs).current.Some? ==> Run(evs).current.value != ""
    ensures Heard(Run(evs)) == Audible(Pushed(evs))
  {
    if evs != [] {
      var init := evs[..|evs| - 1];
      var e := evs[|evs| - 1];
      PlaysInOrder(init);
      StepKeepsOrder(Run(init), e);
      AudibleAppend(Pushed(init), if e.Audio? then [e.clip] else []);
    } else {
      assert Heard(Initial) == [];
    }
  }

  /**
   * Loading the head does not start the queue: a clip that arrived before the head loaded
   * waits until the next clip arrives.
   */
  lemma EarlyClipWaits()
    ensures var f := Run([Audio("a"), HeadLoaded]);
      f.queue == ["a"] && !f.processing
    ensures var f := Run([Audio("a"), HeadLoaded, Audio("b")]);
      f.queue == ["b"] && f.current == Some("a")
  {
    var evs := [Audio("a"), HeadLoaded, Audio("b")];
    assert evs[..1][..0] == [] && evs[..2][..1] == evs[..1] && evs[..3][..2] == evs[..2];
    assert Run(evs[..1]) == Initial.(queue := ["a"]);
    assert evs[..2] == [Audio("a"), HeadLoaded];
    assert Run(evs[..2]) == Initial.(queue := ["a"], ready := true);
    assert ["a"] + ["b"] == ["a", "b"];
    assert evs[..3] == evs;
  }

  // ---------------------------------------------------------------------------------------
  // The component
  // ---------------------------------------------------------------------------------------

  /** The component's refs, with the head's readiness and what it has spoken. */
  class MimirAvatar {
    var audioQueue: seq<string>
    var textBuffer: string
    var isProcessing: bool
    var headReady: bool
    var current: Option<string>
    var spoken: seq<Utterance>

    function State(): Feed
      reads this
    {
      Feed(audioQueue, textBuffer, isProcessing, headReady, current, spoken)
    }

    constructor ()
      ensures State() == Initial
    {
      audioQueue := [];
      textBuffer := "";
      isProcessing := false;
      headReady := false;
      current := None;
      spoken := [];
    }

    /** The head has loaded; queued clips still wait for the next `addAudio`. */
    method HeadLoaded()
      modifies this
      ensures State() == Load(old(State()))
    {
      headReady := true;
    }

    /**
     * `processQueue` up to its first wait. An empty clip returns from inside the `try`, and
     * the `finally` block clears the flag and calls `processQueue` again: the loop.
     */
    method ProcessQueue()
      modifies this
      ensures State() == Start(old(State()))
    {
      var again := true;
      while again
        invariant again ==> Start(State()) == Start(old(State()))
        invariant !again ==> State() == Start(old(State()))
        decreases |audioQueue|, again
      {
        if isProcessing || !headReady || audioQueue == [] {
          again := false;
        } else {
          isProcessing := true;
          var audioBase64 := audioQueue[0];
          audioQueue := audioQueue[1..];
          if audioBase64 == "" {
            isProcessing := false;
          } else {
            current := Some(audioBase64);
            again := false;
          }
        }
      }
    }

    /**
     * The rest of `processQueue` once decoding has settled: the words for the clip are taken
     * from the buffer and spoken, then the `finally` block clears the flag and starts the
     * next clip.
     */
    method FinishRun(units: Option<int>)
      modifies this
      ensures State() == Finish(old(State()), units)
    {
      if current.None? {
        return;
      }
      var clip := current.value;
      if units.Some? {
        var allWords := Words(textBuffer);
        var targetWords := TargetWords(units.value);
        var n := if targetWords < |allWords| then targetWords else |allWords|;
        var wordsToSpeak := allWords[..n];
        textBuffer := Join(allWords[n..], " ");
        spoken := spoken + [Utterance(clip, Some(wordsToSpeak))];
      } else {
        spoken := spoken + [Utterance(clip, None)];
      }
      isProcessing := false;
      current := None;
      ProcessQueue();
    }

    method AddAudio(audioBase64: string)
      modifies this
      ensures State() == AudioAdded(old(State()), audioBase64)
    {
      audioQueue := audioQueue + [audioBase64];
      ProcessQueue();
    }

    method AddText(text: string)
      modifies this
      ensures State() == TextAdded(old(State()), text)
    {
      textBuffer := textBuffer + (if textBuffer != "" then " " else "") + text;
    }

    method Stop()
      modifies this
      ensures State() == Stopped(old(State()))
    {
      current := None;
      audioQueue := [];
      textBuffer := "";
      isProcessing := false;
    }
  }
}
