/**
 * Model of `run_inference` in fast_api.py: the request body it sends, the
 * fold of a streamed chat-completion response into one text, and the
 * status-code decision between retrying, aborting with `""` and streaming.
 *
 * The HTTP transport is an input: each attempt is a status code and the
 * decoded response lines. `json.loads` is an input too, the function
 * `parse`, which maps the text after the `data: ` marker to a `Chunk`.
 */
module Inference {
  import opened Wrappers
  import opened Text

  // ---------------------------------------------------------------------
  // Request body (fast_api.py:26-32)
  // ---------------------------------------------------------------------

  datatype Message = Message(role: string, content: string)

  /** The JSON body of the POST to `/v1/chat/completions`. */
  datatype Payload = Payload(messages: seq<Message>, stop: seq<string>, model: string,
                             stream: bool, includeUsage: bool)

  const StopToken: string := "<|eot_id|>"

  /** The model identifier is configuration, so it is a parameter here. */
  function BuildPayload(messages: seq<Message>, model: string): Payload {
    Payload(messages, [StopToken], model, true, true)
  }

  // ---------------------------------------------------------------------
  // `line.split("data: ")[1]` (fast_api.py:48)
  // ---------------------------------------------------------------------

  const Marker: string := "data: "

  predicate MarkerAt(s: string, i: int) {
    0 <= i && i + |Marker| <= |s| &&
    s[i] == 'd' && s[i + 1] == 'a' && s[i + 2] == 't' && s[i + 3] == 'a' && s[i + 4] == ':' && s[i + 5] == ' '
  }

  predicate ContainsMarker(s: string) {
    exists i :: 0 <= i <= |s| && MarkerAt(s, i)
  }

  /** The first occurrence of the marker at or after `from`. */
  function FindMarker(s: string, from: nat): (r: Option<nat>)
    requires from <= |s|
    ensures r.Some? ==> from <= r.value && MarkerAt(s, r.value)
    ensures forall j :: from <= j && (r.None? || j < r.value) ==> !MarkerAt(s, j)
    decreases |s| - from
  {
    if from + |Marker| > |s| then None
    else if MarkerAt(s, from) then Some(from)
    else FindMarker(s, from + 1)
  }

  lemma NoMarkerInside(s: string, start: nat, end: nat)
    requires start <= end <= |s|
    requires forall j :: start <= j < end ==> !MarkerAt(s, j)
    ensures !ContainsMarker(s[start..end])
  {
    var v := s[start..end];
    forall j | 0 <= j <= |v| ensures !MarkerAt(v, j) {
      if j + |Marker| <= |v| {
        assert !MarkerAt(s, start + j);
        assert v[j] == s[start + j] && v[j + 1] == s[start + j + 1] && v[j + 2] == s[start + j + 2];
        assert v[j + 3] == s[start + j + 3] && v[j + 4] == s[start + j + 4] && v[j + 5] == s[start + j + 5];
      }
    }
  }

  /**
   * The second field of Python's `line.split("data: ")`: the text after the
   * first marker, up to the next marker or the end of the line. `None` is the
   * `IndexError` that `[1]` raises when the line has no marker at all.
   */
  function DataField(line: string): Option<string> {
    match FindMarker(line, 0)
    case None => None
    case Some(i) =>
      var start := i + |Marker|;
      var end := match FindMarker(line, start) case None => |line| case Some(k) => k;
      Some(line[start..end])
  }

  /**
   * The split fails exactly when the line has no marker; otherwise the field
   * is the text that follows the first marker, and holds no marker itself.
   */
  lemma DataFieldSpec(line: string)
    ensures DataField(line).None? <==> !ContainsMarker(line)
    ensures DataField(line).Some? ==>
              !ContainsMarker(DataField(line).value) &&
              exists i :: FirstMarkerAt(line, i) && FieldAfter(line, i, DataField(line).value)
  {
    match FindMarker(line, 0)
    case None =>
    case Some(i) =>
      var start := i + |Marker|;
      var end := match FindMarker(line, start) case None => |line| case Some(k) => k;
      NoMarkerInside(line, start, end);
      assert FirstMarkerAt(line, i) && FieldAfter(line, i, DataField(line).value);
  }

  predicate FirstMarkerAt(s: string, i: int) {
    MarkerAt(s, i) && forall j :: 0 <= j < i ==> !MarkerAt(s, j)
  }

  /** `v` starts right after the marker at `i` and runs to the next marker or the end. */
  predicate FieldAfter(s: string, i: int, v: string) {
    var start := i + |Marker|;
    0 <= start && start + |v| <= |s| && s[start..start + |v|] == v &&
    (start + |v| == |s| || MarkerAt(s, start + |v|))
  }

  /** `MarkerAt` spells out `Marker` character by character. */
  lemma MarkerAtIsMarker(s: string, i: nat)
    requires i + |Marker| <= |s|
    ensures MarkerAt(s, i) <==> s[i..i + |Marker|] == Marker
  {
    var w := s[i..i + |Marker|];
    assert w[0] == s[i] && w[1] == s[i + 1] && w[2] == s[i + 2];
    assert w[3] == s[i + 3] && w[4] == s[i + 4] && w[5] == s[i + 5];
    if MarkerAt(s, i) {
      assert w == Marker;
    }
  }

  /** The marker starts with `da`, so a text in which no `d` is followed by `a` cannot contain it. */
  lemma NoMarkerWithoutDa(s: string)
    requires forall k :: 0 <= k < |s| - 1 && s[k] == 'd' ==> s[k + 1] != 'a'
    ensures !ContainsMarker(s)
  {
  }

  /** A server-sent-event frame `data: <payload>` yields its payload back. */
  lemma DataFieldOfFrame(payload: string)
    requires !ContainsMarker(payload)
    ensures DataField(Marker + payload) == Some(payload)
  {
    var s := Marker + payload;
    assert MarkerAt(s, 0);
    forall j | |Marker| <= j && MarkerAt(s, j) ensures false {
      forall k | 0 <= k < |Marker| ensures payload[j - |Marker| + k] == Marker[k] {
        assert s[j + k] == Marker[k];
      }
      assert payload[j - |Marker|..j] == Marker;
      assert MarkerAt(payload, j - |Marker|);
    }
    assert FindMarker(s, |Marker|).None?;
    assert s[|Marker|..|s|] == payload;
  }

  // ---------------------------------------------------------------------
  // Decoded chunks and what one line contributes (fast_api.py:46-59)
  // ---------------------------------------------------------------------

  /** `delta`; `content: None` stands for a missing key and for JSON `null`. */
  datatype Delta = Delta(content: Option<string>)

  /** One element of `choices`; `delta: None` stands for a missing key. */
  datatype Choice = Choice(delta: Option<Delta>)

  /** The result of `json.loads`: a decode error, or an object whose `choices` key may be missing. */
  datatype Chunk = Malformed | Parsed(choices: Option<seq<Choice>>)

  /** The chunk carrying exactly one delta with text `t`. */
  function ContentChunk(t: string): Chunk {
    Parsed(Some([Choice(Some(Delta(Some(t))))]))
  }

  /**
   * The text a chunk contributes: `choices[0].delta.content`, or `""` when
   * the chunk did not decode, `choices` is missing or empty, or `delta` or
   * `content` is missing.
   */
  function ChunkText(chunk: Chunk): (r: string)
    ensures r != "" <==>
      chunk.Parsed? && chunk.choices.Some? && |chunk.choices.value| > 0 &&
      chunk.choices.value[0].delta.Some? && chunk.choices.value[0].delta.value.content.Some? &&
      chunk.choices.value[0].delta.value.content.value != ""
    ensures r != "" ==> r == chunk.choices.value[0].delta.value.content.value
  {
    if chunk.Malformed? || chunk.choices.None? || |chunk.choices.value| == 0 then ""
    else match chunk.choices.value[0].delta
      case None => ""
      case Some(d) => match d.content case None => "" case Some(t) => t
  }

  /** The only exception that escapes the stream loop. */
  datatype Failure = IndexError

  datatype LineEffect = Skip | Append(fragment: string) | Fail(error: Failure)

  /** What one line of the stream does to the accumulator. */
  function Effect(parse: string -> Chunk, line: string): LineEffect {
    if line == "" then Skip
    else match DataField(line)
      case None => Fail(IndexError)
      case Some(field) =>
        var t := ChunkText(parse(field));
        if t == "" then Skip else Append(t)
  }

  /**
   * A line raises exactly when it is non-empty and has no marker; it appends
   * the non-empty content of its chunk, and otherwise leaves the text alone.
   */
  lemma EffectCases(parse: string -> Chunk, line: string)
    ensures Effect(parse, line).Fail? <==> line != "" && !ContainsMarker(line)
    ensures Effect(parse, line).Append? ==>
              Effect(parse, line).fragment != "" && DataField(line).Some? &&
              Effect(parse, line).fragment == ChunkText(parse(DataField(line).value))
    ensures Effect(parse, line).Skip? <==>
              line == "" || (DataField(line).Some? && ChunkText(parse(DataField(line).value)) == "")
  {
    DataFieldSpec(line);
  }

  // ---------------------------------------------------------------------
  // The fold of line effects into an outcome (fast_api.py:44-61)
  // ---------------------------------------------------------------------

  /** What `run_inference` ends with once a stream is read: a text, or an escaping exception. */
  datatype Outcome = Returned(text: string) | Raised(error: Failure)

  /** The fragment list one effect contributes. */
  function Fragment(e: LineEffect): seq<string> {
    match e case Append(f) => [f] case _ => []
  }

  /** The fragments the effects append, in order. */
  function Fragments(effects: seq<LineEffect>): (r: seq<string>)
    ensures |r| <= |effects|
    decreases |effects|
  {
    if effects == [] then [] else Fragment(effects[0]) + Fragments(effects[1..])
  }

  lemma {:induction false} FragmentsAppend(a: seq<LineEffect>, b: seq<LineEffect>)
    ensures Fragments(a + b) == Fragments(a) + Fragments(b)
    decreases |a|
  {
    if a == [] {
      assert a + b == b;
    } else {
      assert (a + b)[0] == a[0];
      assert (a + b)[1..] == a[1..] + b;
      FragmentsAppend(a[1..], b);
      var f := Fragment(a[0]);
      assert Fragments(a + b) == f + (Fragments(a[1..]) + Fragments(b));
      assert f + (Fragments(a[1..]) + Fragments(b)) == (f + Fragments(a[1..])) + Fragments(b);
    }
  }

  predicate Fails(effects: seq<LineEffect>) {
    exists i :: 0 <= i < |effects| && effects[i].Fail?
  }

  /** The index of the first failing effect, or `|effects|` when none fails. */
  function FirstFail(effects: seq<LineEffect>): (k: nat)
    ensures k <= |effects|
    ensures forall j :: 0 <= j < k ==> !effects[j].Fail?
    ensures k < |effects| ==> effects[k].Fail?
    decreases |effects|
  {
    if effects == [] || effects[0].Fail? then 0 else 1 + FirstFail(effects[1..])
  }

  /**
   * The specification of the stream loop: the first failure escapes;
   * otherwise the result is the in-order concatenation of the fragments.
   */
  function Fold(effects: seq<LineEffect>): Outcome {
    if Fails(effects) then Raised(IndexError) else Returned(Concat(Fragments(effects)))
  }

  /** Reading `a` and then `b`: the first exception wins, texts concatenate. */
  function Combine(first: Outcome, rest: Outcome): Outcome {
    match first
    case Raised(_) => first
    case Returned(x) =>
      match rest
      case Raised(_) => rest
      case Returned(y) => Returned(x + y)
  }

  lemma FailsAppend(a: seq<LineEffect>, b: seq<LineEffect>)
    ensures Fails(a + b) <==> Fails(a) || Fails(b)
  {
    if Fails(a + b) {
      var i :| 0 <= i < |a + b| && (a + b)[i].Fail?;
      if i < |a| {
        assert a[i] == (a + b)[i];
      } else {
        assert b[i - |a|] == (a + b)[i];
      }
    }
    if Fails(a) {
      var i :| 0 <= i < |a| && a[i].Fail?;
      assert (a + b)[i] == a[i];
    }
    if Fails(b) {
      var i :| 0 <= i < |b| && b[i].Fail?;
      assert (a + b)[|a| + i] == b[i];
    }
  }

  /** The fold is compositional: splitting the effects splits the outcome. */
  lemma FoldAppend(a: seq<LineEffect>, b: seq<LineEffect>)
    ensures Fold(a + b) == Combine(Fold(a), Fold(b))
  {
    FailsAppend(a, b);
    FragmentsAppend(a, b);
    ConcatAppend(Fragments(a), Fragments(b));
  }

  /** The outcome of a single effect. */
  lemma FoldSingle(e: LineEffect)
    ensures Fold([e]) == match e
      case Skip => Returned("")
      case Append(t) => Returned(t)
      case Fail(_) => Raised(IndexError)
  {
    assert [e][1..] == [];
    match e
    case Skip =>
      assert Fragments([e]) == [];
    case Append(t) =>
      assert Fragments([e]) == [t];
      assert [t][1..] == [];
      assert Concat([t]) == t;
      assert !Fails([e]);
    case Fail(_) =>
      assert [e][0].Fail?;
  }

  /** A skip can be removed from anywhere. */
  lemma SkipIsNeutral(a: seq<LineEffect>, b: seq<LineEffect>)
    ensures Fold(a + [Skip] + b) == Fold(a + b)
  {
    FoldAppend(a + [Skip], b);
    FoldAppend(a, [Skip]);
    FoldAppend(a, b);
    FoldSingle(Skip);
  }

  /** A failure decides the outcome, whatever surrounds it. */
  lemma FailDecides(a: seq<LineEffect>, error: Failure, b: seq<LineEffect>)
    ensures Fold(a + [Fail(error)] + b) == Raised(IndexError)
  {
    assert (a + [Fail(error)] + b)[|a|] == Fail(error);
  }

  /** One turn of the stream loop keeps its invariant. */
  lemma FoldStep(effects: seq<LineEffect>, i: nat)
    requires i < |effects| && !effects[i].Fail? && !Fails(effects[..i])
    ensures !Fails(effects[..i + 1])
    ensures Fragments(effects[..i + 1]) == Fragments(effects[..i]) + Fragment(effects[i])
  {
    assert effects[..i + 1] == effects[..i] + [effects[i]];
    FailsAppend(effects[..i], [effects[i]]);
    FragmentsAppend(effects[..i], [effects[i]]);
    assert [effects[i]][1..] == [];
  }

  /** The loop stops at the first failure. */
  lemma FoldStops(effects: seq<LineEffect>, i: nat)
    requires i < |effects| && effects[i].Fail? && !Fails(effects[..i])
    ensures FirstFail(effects) == i && Fold(effects) == Raised(IndexError)
  {
  }

  /** Without a failure, the fold runs to the end and returns all fragments joined. */
  lemma FoldCompletes(effects: seq<LineEffect>)
    requires !Fails(effects)
    ensures FirstFail(effects) == |effects|
    ensures Fold(effects) == Returned(Concat(Fragments(effects)))
  {
  }

  // ---------------------------------------------------------------------
  // From lines to effects
  // ---------------------------------------------------------------------

  /** The effect of each line, in order. */
  function Effects(parse: string -> Chunk, lines: seq<string>): (r: seq<LineEffect>)
    ensures |r| == |lines|
    decreases |lines|
  {
    if lines == [] then [] else [Effect(parse, lines[0])] + Effects(parse, lines[1..])
  }

  lemma {:induction false} EffectsAt(parse: string -> Chunk, lines: seq<string>, i: nat)
    requires i < |lines|
    ensures Effects(parse, lines)[i] == Effect(parse, lines[i])
    decreases i
  {
    if i > 0 {
      EffectsAt(parse, lines[1..], i - 1);
    }
  }

  lemma {:induction false} EffectsAppend(parse: string -> Chunk, a: seq<string>, b: seq<string>)
    ensures Effects(parse, a + b) == Effects(parse, a) + Effects(parse, b)
    decreases |a|
  {
    if a == [] {
      assert a + b == b;
    } else {
      assert (a + b)[0] == a[0];
      assert (a + b)[1..] == a[1..] + b;
      EffectsAppend(parse, a[1..], b);
    }
  }

  /** The effects of `a + [line] + b` split around the line. */
  lemma EffectsAround(parse: string -> Chunk, a: seq<string>, line: string, b: seq<string>)
    ensures Effects(parse, a + [line] + b) == Effects(parse, a) + [Effect(parse, line)] + Effects(parse, b)
  {
    EffectsAppend(parse, a + [line], b);
    EffectsAppend(parse, a, [line]);
    assert [line][1..] == [];
  }

  /** What the stream loop computes from the response lines. */
  function StreamOutcome(parse: string -> Chunk, lines: seq<string>): Outcome {
    Fold(Effects(parse, lines))
  }

  /** The fragments written to standard output before the loop ends. */
  function Printed(parse: string -> Chunk, lines: seq<string>): seq<string> {
    var effects := Effects(parse, lines);
    Fragments(effects[..FirstFail(effects)])
  }

  /** What is printed is the fragments of the lines before the first failure. */
  lemma PrintedUpTo(parse: string -> Chunk, lines: seq<string>, i: nat)
    requires i <= |lines| && FirstFail(Effects(parse, lines)) == i
    ensures Printed(parse, lines) == Fragments(Effects(parse, lines)[..i])
  {
  }

  /** The stream outcome is compositional in the lines. */
  lemma StreamOutcomeAppend(parse: string -> Chunk, a: seq<string>, b: seq<string>)
    ensures StreamOutcome(parse, a + b) == Combine(StreamOutcome(parse, a), StreamOutcome(parse, b))
  {
    EffectsAppend(parse, a, b);
    FoldAppend(Effects(parse, a), Effects(parse, b));
  }

  /** A line that contributes nothing can be removed from anywhere in the stream. */
  lemma SkippedLineIsNeutral(parse: string -> Chunk, a: seq<string>, line: string, b: seq<string>)
    requires Effect(parse, line).Skip?
    ensures StreamOutcome(parse, a + [line] + b) == StreamOutcome(parse, a + b)
  {
    EffectsAround(parse, a, line, b);
    EffectsAppend(parse, a, b);
    SkipIsNeutral(Effects(parse, a), Effects(parse, b));
  }

  /** Empty keep-alive lines contribute nothing and never raise. */
  lemma EmptyLineIgnored(parse: string -> Chunk, a: seq<string>, b: seq<string>)
    ensures StreamOutcome(parse, a + [""] + b) == StreamOutcome(parse, a + b)
  {
    SkippedLineIsNeutral(parse, a, "", b);
  }

  /** A line whose data field is not valid JSON is skipped and reading goes on. */
  lemma MalformedLineSkipped(parse: string -> Chunk, a: seq<string>, line: string, b: seq<string>)
    requires DataField(line).Some? && parse(DataField(line).value) == Malformed
    ensures StreamOutcome(parse, a + [line] + b) == StreamOutcome(parse, a + b)
  {
    SkippedLineIsNeutral(parse, a, line, b);
  }

  /** The `data: [DONE]` trailer is harmless, because `[DONE]` is not JSON. */
  lemma DoneTrailerHarmless(parse: string -> Chunk, lines: seq<string>)
    requires parse("[DONE]") == Malformed
    ensures StreamOutcome(parse, lines + ["data: [DONE]"]) == StreamOutcome(parse, lines)
  {
    NoMarkerWithoutDa("[DONE]");
    DataFieldOfFrame("[DONE]");
    assert Marker + "[DONE]" == "data: [DONE]";
    SkippedLineIsNeutral(parse, lines, "data: [DONE]", []);
    assert lines + ["data: [DONE]"] + [] == lines + ["data: [DONE]"];
    assert lines + [] == lines;
  }

  /** A chunk without a usable `choices[0].delta.content` leaves the accumulator unchanged. */
  lemma ContentlessChunkSkipped(parse: string -> Chunk, a: seq<string>, line: string, b: seq<string>)
    requires DataField(line).Some? && ChunkText(parse(DataField(line).value)) == ""
    ensures StreamOutcome(parse, a + [line] + b) == StreamOutcome(parse, a + b)
  {
    SkippedLineIsNeutral(parse, a, line, b);
  }

  /** A non-empty line with no `data: ` marker makes the whole call raise, whatever follows. */
  lemma UnmarkedLineRaises(parse: string -> Chunk, a: seq<string>, line: string, b: seq<string>)
    requires line != "" && !ContainsMarker(line)
    ensures StreamOutcome(parse, a + [line] + b) == Raised(IndexError)
  {
    EffectsAround(parse, a, line, b);
    EffectCases(parse, line);
    FailDecides(Effects(parse, a), IndexError, Effects(parse, b));
  }

  /** A frame `data: <payload>` appends the text of its chunk, if any. */
  lemma FrameEffect(parse: string -> Chunk, payload: string)
    requires !ContainsMarker(payload)
    ensures Effect(parse, Marker + payload) ==
            if ChunkText(parse(payload)) == "" then Skip else Append(ChunkText(parse(payload)))
  {
    DataFieldOfFrame(payload);
  }

  /** A data line with content text `t` appends exactly `t`. */
  lemma ContentLineAppends(parse: string -> Chunk, a: seq<string>, payload: string, t: string)
    requires !ContainsMarker(payload) && parse(payload) == ContentChunk(t)
    ensures StreamOutcome(parse, a + [Marker + payload]) ==
            Combine(StreamOutcome(parse, a), Returned(t))
  {
    FrameEffect(parse, payload);
    var line := Marker + payload;
    assert ChunkText(ContentChunk(t)) == t;
    var e := Effect(parse, line);
    EffectsAppend(parse, a, [line]);
    assert Effects(parse, [line]) == [e] by { assert [line][1..] == []; }
    FoldAppend(Effects(parse, a), [e]);
    FoldSingle(e);
  }

  /**
   * The body of the stream loop for one line (fast_api.py:46-59): split off
   * the data field, decode it and pick `choices[0].delta.content`.
   */
  method ReadLine(parse: string -> Chunk, line: string) returns (effect: LineEffect)
    ensures effect == Effect(parse, line)
  {
    if line == "" {
      return Skip;
    }
    var field := DataField(line);
    if field.None? {
      // `[1]` raises IndexError, which the `except` clauses do not catch
      return Fail(IndexError);
    }
    var chunk := parse(field.value);
    if chunk.Malformed? {
      // JSONDecodeError: `continue`
      return Skip;
    }
    var content := ChunkText(chunk);
    effect := if content != "" then Append(content) else Skip;
  }

  /** Reads line `i` of the stream: its effect is entry `i` of the effects of all lines. */
  method ReadNext(parse: string -> Chunk, lines: seq<string>, i: nat) returns (effect: LineEffect)
    requires i < |lines|
    ensures effect == Effects(parse, lines)[i]
  {
    effect := ReadLine(parse, lines[i]);
    EffectsAt(parse, lines, i);
  }

  /**
   * The stream loop of fast_api.py:44-61. `printed` is what the loop writes
   * to standard output, fragment by fragment.
   */
  method StreamResponse(parse: string -> Chunk, lines: seq<string>)
    returns (outcome: Outcome, printed: seq<string>)
    ensures outcome == StreamOutcome(parse, lines)
    ensures printed == Printed(parse, lines)
    ensures outcome.Returned? ==> Concat(printed) == outcome.text
  {
    ghost var effects := Effects(parse, lines);
    var fullResponse := "";
    printed := [];
    var i := 0;
    while i < |lines|
      invariant 0 <= i <= |lines|
      invariant !Fails(effects[..i])
      invariant printed == Fragments(effects[..i])
      invariant fullResponse == Concat(printed)
    {
      var effect := ReadNext(parse, lines, i);
      match effect {
        case Fail(error) =>
          outcome := Raised(error);
          FoldStops(effects, i);
          PrintedUpTo(parse, lines, i);
          return;
        case Append(content) =>
          ConcatSnoc(printed, content);
          fullResponse := fullResponse + content;
          printed := printed + [content];
        case Skip =>
      }
      FoldStep(effects, i);
      i := i + 1;
    }
    assert effects[..i] == effects;
    FoldCompletes(effects);
    PrintedUpTo(parse, lines, i);
    outcome := Returned(fullResponse);
  }


  // ---------------------------------------------------------------------
  // Status classification and retry (fast_api.py:42, 63-74)
  // ---------------------------------------------------------------------

  /** One request: the status the server answered and the lines it streamed. */
  datatype Attempt = Attempt(status: int, lines: seq<string>)

  datatype StatusClass = Proceed | Retry | Abort

  /**
   * `raise_for_status` raises `HTTPError` for a status in 400..599; the
   * handler retries on 401, 503 and 504 and gives up on every other error.
   */
  function Classify(status: int): (c: StatusClass)
    ensures c == Proceed <==> status < 400 || 600 <= status
    ensures c == Retry <==> status == 401 || status == 503 || status == 504
  {
    if status < 400 || 600 <= status then Proceed
    else if status == 401 || status == 503 || status == 504 then Retry
    else Abort
  }

  /**
   * The result of `run_inference` over the given attempts, and how many
   * requests it sent. `result == None`: every given attempt was transient.
   * The number of retries is not bounded here, although the source's nested
   * retry calls end in `RecursionError` after about a thousand of them.
   */
  datatype Run = Run(result: Option<Outcome>, requests: nat)

  function Inference(parse: string -> Chunk, attempts: seq<Attempt>): (r: Run)
    ensures 1 <= r.requests <= |attempts| || (attempts == [] && r.requests == 0)
    ensures r.result.None? <==> forall j :: 0 <= j < |attempts| ==> Classify(attempts[j].status) == Retry
    ensures r.result.None? ==> r.requests == |attempts|
    decreases |attempts|
  {
    if attempts == [] then Run(None, 0)
    else match Classify(attempts[0].status)
      case Retry =>
        var rest := Inference(parse, attempts[1..]);
        assert forall j :: 1 <= j < |attempts| ==> attempts[j] == attempts[1..][j - 1];
        Run(rest.result, rest.requests + 1)
      case Abort => Run(Some(Returned("")), 1)
      case Proceed => Run(Some(StreamOutcome(parse, attempts[0].lines)), 1)
  }

  /**
   * Transient failures are forgotten: the outcome after them is that of the
   * remaining attempts alone, with a fresh accumulator, and each of them
   * costs one more request.
   */
  lemma {:induction false} RetriesAreForgotten(parse: string -> Chunk, transient: seq<Attempt>, rest: seq<Attempt>)
    requires forall j :: 0 <= j < |transient| ==> Classify(transient[j].status) == Retry
    ensures Inference(parse, transient + rest).result == Inference(parse, rest).result
    ensures Inference(parse, transient + rest).requests == |transient| + Inference(parse, rest).requests
    decreases |transient|
  {
    if transient == [] {
      assert transient + rest == rest;
    } else {
      assert (transient + rest)[0] == transient[0];
      assert (transient + rest)[1..] == transient[1..] + rest;
      RetriesAreForgotten(parse, transient[1..], rest);
    }
  }

  /**
   * The first attempt that is not transient decides: an error status gives
   * `""`, any other status the outcome of its stream; all earlier attempts
   * were transient.
   */
  lemma {:induction false} DecidedByFirstNonTransient(parse: string -> Chunk, attempts: seq<Attempt>)
    ensures var r := Inference(parse, attempts);
      r.result.Some? ==>
        (forall j :: 0 <= j < r.requests - 1 ==> Classify(attempts[j].status) == Retry) &&
        Classify(attempts[r.requests - 1].status) != Retry &&
        r.result.value == (if Classify(attempts[r.requests - 1].status) == Abort then Returned("")
                           else StreamOutcome(parse, attempts[r.requests - 1].lines))
    decreases |attempts|
  {
    if attempts != [] && Classify(attempts[0].status) == Retry {
      DecidedByFirstNonTransient(parse, attempts[1..]);
      var rest := Inference(parse, attempts[1..]);
      if rest.result.Some? {
        assert attempts[rest.requests] == attempts[1..][rest.requests - 1];
        forall j | 1 <= j < rest.requests ensures Classify(attempts[j].status) == Retry {
          assert attempts[j] == attempts[1..][j - 1];
        }
      }
    }
  }

  /** The event frames a server sends for the fragments `Hel` and `lo`. */
  const HelFrame: string := "{\"choices\":[{\"delta\":{\"content\":\"Hel\"}}]}"
  const LoFrame: string := "{\"choices\":[{\"delta\":{\"content\":\"lo\"}}]}"

  /** In a JSON text in which no `d` is followed by `a`, the chunk decides the effect of its frame. */
  lemma PlainFrameEffect(parse: string -> Chunk, payload: string, line: string)
    requires line == Marker + payload
    requires forall k :: 0 <= k < |payload| - 1 && payload[k] == 'd' ==> payload[k + 1] != 'a'
    ensures Effect(parse, line) ==
            if ChunkText(parse(payload)) == "" then Skip else Append(ChunkText(parse(payload)))
  {
    NoMarkerWithoutDa(payload);
    FrameEffect(parse, payload);
  }

  /** The fold of the effects of the `Hello` stream. */
  lemma HelloFold()
    ensures Fold([Append("Hel"), Skip, Append("lo"), Skip]) == Returned("Hello")
  {
    FoldAppend([Append("Hel"), Skip], [Append("lo"), Skip]);
    FoldAppend([Append("Hel")], [Skip]);
    FoldAppend([Append("lo")], [Skip]);
    FoldSingle(Append("Hel"));
    FoldSingle(Append("lo"));
    FoldSingle(Skip);
    assert [Append("Hel"), Skip] + [Append("lo"), Skip] == [Append("Hel"), Skip, Append("lo"), Skip];
  }

  /** A content frame whose JSON text has no `d` followed by `a` appends the content. */
  lemma ContentFrameEffect(parse: string -> Chunk, payload: string, t: string)
    requires forall k :: 0 <= k < |payload| - 1 && payload[k] == 'd' ==> payload[k + 1] != 'a'
    requires parse(payload) == ContentChunk(t) && t != ""
    ensures Effect(parse, Marker + payload) == Append(t)
  {
    PlainFrameEffect(parse, payload, Marker + payload);
    assert ChunkText(ContentChunk(t)) == t;
  }

  /** The frame of `Hel` appends `Hel`: its only `d` is that of `delta`, followed by `e`. */
  lemma HelFrameEffect(parse: string -> Chunk)
    requires parse(HelFrame) == ContentChunk("Hel")
    ensures Effect(parse, Marker + HelFrame) == Append("Hel")
  {
    ContentFrameEffect(parse, HelFrame, "Hel");
  }

  /** Likewise for the frame of `lo`. */
  lemma LoFrameEffect(parse: string -> Chunk)
    requires parse(LoFrame) == ContentChunk("lo")
    ensures Effect(parse, Marker + LoFrame) == Append("lo")
  {
    ContentFrameEffect(parse, LoFrame, "lo");
  }

  /** `[DONE]` has no `d` at all, and does not decode, so the trailer is skipped. */
  lemma DoneFrameEffect(parse: string -> Chunk)
    requires parse("[DONE]") == Malformed
    ensures Effect(parse, "data: [DONE]") == Skip
  {
    PlainFrameEffect(parse, "[DONE]", "data: [DONE]");
  }

  /** The effects of a four-line stream, line by line. */
  lemma EffectsOfFour(parse: string -> Chunk, lines: seq<string>)
    requires |lines| == 4
    ensures Effects(parse, lines) ==
            [Effect(parse, lines[0]), Effect(parse, lines[1]), Effect(parse, lines[2]), Effect(parse, lines[3])]
  {
    EffectsAt(parse, lines, 0);
    EffectsAt(parse, lines, 1);
    EffectsAt(parse, lines, 2);
    EffectsAt(parse, lines, 3);
  }

  /**
   * The stream of `Hel`, a keep-alive line, `lo` and the `[DONE]` trailer
   * assembles to `Hello`, for a decoder that reads the two frames as the
   * chunks they encode and rejects `[DONE]`.
   */
  lemma HelloStream(parse: string -> Chunk)
    requires parse(HelFrame) == ContentChunk("Hel") && parse(LoFrame) == ContentChunk("lo")
    requires parse("[DONE]") == Malformed
    ensures StreamOutcome(parse, [Marker + HelFrame, "", Marker + LoFrame, "data: [DONE]"]) == Returned("Hello")
  {
    HelFrameEffect(parse);
    LoFrameEffect(parse);
    DoneFrameEffect(parse);
    EffectsOfFour(parse, [Marker + HelFrame, "", Marker + LoFrame, "data: [DONE]"]);
    HelloFold();
  }

  /** A 503 followed by a 200 carrying that stream gives `Hello` after two requests. */
  lemma RetryThenHello(parse: string -> Chunk)
    requires parse(HelFrame) == ContentChunk("Hel") && parse(LoFrame) == ContentChunk("lo")
    requires parse("[DONE]") == Malformed
    ensures Inference(parse, [Attempt(503, []), Attempt(200, [Marker + HelFrame, "", Marker + LoFrame, "data: [DONE]"])])
            == Run(Some(Returned("Hello")), 2)
  {
    var lines := [Marker + HelFrame, "", Marker + LoFrame, "data: [DONE]"];
    HelloStream(parse);
    var attempts := [Attempt(503, []), Attempt(200, lines)];
    assert attempts[1..] == [Attempt(200, lines)];
    assert Inference(parse, attempts[1..]) == Run(Some(Returned("Hello")), 1);
  }

  /** A 403 is not retried: it yields `""` after one request, whatever would have followed. */
  lemma ForbiddenAborts(parse: string -> Chunk, lines: seq<string>, rest: seq<Attempt>)
    ensures Inference(parse, [Attempt(403, lines)] + rest) == Run(Some(Returned("")), 1)
  {
    assert ([Attempt(403, lines)] + rest)[0] == Attempt(403, lines);
  }

  /**
   * `run_inference`, with the recursion on a transient status written as a
   * loop over the given attempts. `sent` is the request bodies posted,
   * `printed` the fragments written by the stream that was read.
   */
  method RunInference(parse: string -> Chunk, messages: seq<Message>, model: string, attempts: seq<Attempt>)
    returns (result: Option<Outcome>, sent: seq<Payload>, printed: seq<string>)
    ensures Run(result, |sent|) == Inference(parse, attempts)
    ensures forall k :: 0 <= k < |sent| ==>
              sent[k].messages == messages && sent[k].model == model &&
              sent[k].stop == ["<|eot_id|>"] && sent[k].stream && sent[k].includeUsage
    ensures |attempts| > 0 && Classify(attempts[0].status) == Abort ==>
              result == Some(Returned("")) && |sent| == 1 && printed == []
    ensures result.Some? && result.value.Returned? ==> Concat(printed) == result.value.text
  {
    var payload := BuildPayload(messages, model);
    sent := [];
    printed := [];
    var i := 0;
    while i < |attempts|
      invariant 0 <= i <= |attempts|
      invariant |sent| == i && forall k :: 0 <= k < i ==> sent[k] == payload
      invariant printed == []
      invariant Inference(parse, attempts) ==
                Run(Inference(parse, attempts[i..]).result, i + Inference(parse, attempts[i..]).requests)
    {
      sent := sent + [payload];
      var attempt := attempts[i];
      assert attempts[i..][0] == attempt;
      assert attempts[i..][1..] == attempts[i + 1..];
      match Classify(attempt.status)
      case Proceed =>
        var outcome;
        outcome, printed := StreamResponse(parse, attempt.lines);
        result := Some(outcome);
        return;
      case Abort =>
        result := Some(Returned(""));
        return;
      case Retry =>
        // sleep, then send the identical request again
        i := i + 1;
    }
    result := None;
  }
}
