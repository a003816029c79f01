/** `stream_response`: the bridge from the upstream server-sent-event byte
    stream to the newline-delimited JSON stream returned to the client.

    Each raw chunk is split on `\n` on its own; blank lines are skipped; the
    exact line `data: [DONE]` asks the translator for the closing event and
    ends the stream; any other line starting with `data: ` has the text after
    that six-character prefix parsed as JSON, a payload that does not parse
    is skipped, and a payload that does is translated (a translation that
    raises `json.JSONDecodeError` is skipped too); every other line is
    ignored. A falsy translation emits nothing. This reads only the `data:`
    field, and only with one space after the colon, a narrower reading than
    section 9.2.6 of the HTML Living Standard ("Interpreting an event
    stream"); the `[DONE]` sentinel is an upstream convention.

    The JSON parser, the streaming translator and `json.dumps` are
    parameters. */
module StreamBridge {
  import opened Wrappers
  import opened Text
  import opened Errors
  import ChatUpstream

  const Sentinel := "data: [DONE]"
  const DataPrefix := "data: "

  /** What the streaming translator is asked to translate: a parsed data
      payload, or the end-of-stream marker (`"[DONE]"` with
      `is_last_chunk=True`). */
  datatype StreamInput<J> = Data(payload: J) | DoneMarker

  /** What the streaming translator does with one input: it returns a value
      (`None` when the value is falsy), raises `json.JSONDecodeError`, or
      raises any other exception. The distinction matters because a data
      line is handled inside a `try` that skips the line on
      `json.JSONDecodeError`, while the sentinel is handled outside it. */
  datatype Translation<T> = Translated(value: Option<T>) | DecodeFailed | Failed(fault: Fault)

  /** The exception a `json.JSONDecodeError` escapes as. */
  const DecodeErrorMessage := "JSONDecodeError"

  /** One item read from the upstream stream: a decoded chunk of text, or
      the exception raised while reading (a chunk that is not valid UTF-8
      is an `OtherFailure`). */
  datatype Pull = Chunk(text: string) | Broken(failure: TransportFailure)

  /** How processing stopped: it ran out of input (and would go on with
      more), it met the sentinel, or an exception escaped. */
  datatype Ending = Exhausted | Terminated | Aborted(fault: Fault)

  /** An emitted event; `last` marks the one produced for the sentinel. */
  datatype Event<T> = Event(value: T, last: bool)

  datatype Progress<T> = Progress(events: seq<Event<T>>, ending: Ending)

  /** The events emitted so far are well placed: only the final event may
      answer the sentinel, and only when processing terminated there. */
  predicate WellFormed<T>(p: Progress<T>) {
    forall i | 0 <= i < |p.events| :: p.events[i].last ==> i == |p.events| - 1 && p.ending == Terminated
  }

  /** The closing event produced for the sentinel, if any. */
  predicate ClosesWith<T(==)>(p: Progress<T>, closing: Option<T>) {
    if closing.Some? then |p.events| > 0 && p.events[|p.events| - 1] == Event(closing.value, true)
    else forall i | 0 <= i < |p.events| :: !p.events[i].last
  }

  /** The translated value of a line, emitted when truthy. */
  function Emit<T>(t: Option<T>, last: bool): (r: seq<Event<T>>)
    ensures |r| <= 1
  {
    if t.Some? then [Event(t.value, last)] else []
  }

  /** One line of one chunk. */
  function StepLine<J, T(==)>(line: string, parse: string -> Option<J>,
                          translate: StreamInput<J> -> Translation<T>): (r: Progress<T>)
    ensures |r.events| <= 1 && WellFormed(r)
    ensures IsBlank(line) ==> r == Progress([], Exhausted)
    ensures line == Sentinel ==>
      match translate(DoneMarker)
      case Translated(closing) =>
        r.ending == Terminated && ClosesWith(r, closing) && |r.events| == (if closing.Some? then 1 else 0)
      case DecodeFailed => r == Progress([], Aborted(Unexpected(DecodeErrorMessage)))
      case Failed(f) => r == Progress([], Aborted(f))
    ensures line != Sentinel ==> r.ending != Terminated
    ensures !IsBlank(line) && line != Sentinel && !StartsWith(line, DataPrefix) ==> r == Progress([], Exhausted)
    ensures line != Sentinel && StartsWith(line, DataPrefix) && parse(line[|DataPrefix|..]).None? ==>
      r == Progress([], Exhausted)
    ensures line != Sentinel && StartsWith(line, DataPrefix) && parse(line[|DataPrefix|..]).Some? ==>
      match translate(Data(parse(line[|DataPrefix|..]).value))
      case Translated(t) => r == Progress(Emit(t, false), Exhausted)
      case DecodeFailed => r == Progress([], Exhausted)
      case Failed(f) => r == Progress([], Aborted(f))
  {
    assert !IsBlank(Sentinel) by { assert !IsSpace(Sentinel[0]); }
    if IsBlank(line) then Progress([], Exhausted)
    else if line == Sentinel then
      match translate(DoneMarker)
      case Translated(closing) => Progress(Emit(closing, true), Terminated)
      case DecodeFailed => Progress([], Aborted(Unexpected(DecodeErrorMessage)))
      case Failed(f) => Progress([], Aborted(f))
    else if StartsWith(line, DataPrefix) then
      match parse(line[|DataPrefix|..])
      case None => Progress([], Exhausted)
      case Some(payload) =>
        match translate(Data(payload))
        case Translated(t) => Progress(Emit(t, false), Exhausted)
        case DecodeFailed => Progress([], Exhausted)
        case Failed(f) => Progress([], Aborted(f))
    else Progress([], Exhausted)
  }

  /** Continues `first` with `rest` when `first` ran out of input. */
  function Then<T>(first: Progress<T>, rest: Progress<T>): Progress<T> {
    if first.ending != Exhausted then first
    else Progress(first.events + rest.events, rest.ending)
  }

  lemma ThenWellFormed<T>(first: Progress<T>, rest: Progress<T>)
    requires WellFormed(first) && WellFormed(rest)
    ensures WellFormed(Then(first, rest))
  {
    if first.ending == Exhausted {
      var r := Then(first, rest);
      forall i | 0 <= i < |r.events| && r.events[i].last
        ensures i == |r.events| - 1 && r.ending == Terminated
      {
        if i >= |first.events| {
          assert rest.events[i - |first.events|].last;
        } else {
          assert false;
        }
      }
    }
  }

  /** The lines of one chunk, in order, up to the first line that ends the
      stream. */
  function RunLines<J, T(==)>(lines: seq<string>, parse: string -> Option<J>,
                          translate: StreamInput<J> -> Translation<T>): (r: Progress<T>)
    ensures WellFormed(r)
    ensures r.ending.Terminated? ==> translate(DoneMarker).Translated? && ClosesWith(r, translate(DoneMarker).value)
    decreases |lines|
  {
    if |lines| == 0 then Progress([], Exhausted)
    else
      var first := StepLine(lines[0], parse, translate);
      var rest := RunLines(lines[1..], parse, translate);
      ThenWellFormed(first, rest);
      if first.ending != Exhausted then first
      else
        var r := Then(first, rest);
        assert r.ending.Terminated? ==> (forall i | 0 <= i < |first.events| :: !first.events[i].last);
        r
  }

  /** `stream_response` over the pulls made from the upstream stream: each
      chunk's lines in turn, until the sentinel, an escaping exception, or
      the end of the input. A transport exception while reading is
      classified as in the non-streaming call. */
  function RunStream<J, T(==)>(pulls: seq<Pull>, parse: string -> Option<J>,
                           translate: StreamInput<J> -> Translation<T>,
                           requestTimeout: int): (r: Progress<T>)
    ensures WellFormed(r)
    ensures r.ending.Terminated? ==> translate(DoneMarker).Translated? && ClosesWith(r, translate(DoneMarker).value)
    decreases |pulls|
  {
    if |pulls| == 0 then Progress([], Exhausted)
    else
      var first := match pulls[0]
        case Chunk(text) => RunLines(Split(text, '\n'), parse, translate)
        case Broken(f) => Progress([], Aborted(ChatUpstream.ChatFailureFault(f, requestTimeout)));
      var rest := RunStream(pulls[1..], parse, translate, requestTimeout);
      ThenWellFormed(first, rest);
      if first.ending != Exhausted then first
      else
        var r := Then(first, rest);
        assert r.ending.Terminated? ==> (forall i | 0 <= i < |first.events| :: !first.events[i].last);
        r
  }

  /** The lines yielded to the client, and whether every event could be
      serialised. `json.dumps` runs inside the generator's `try`, so an
      event it cannot serialise raises there and the response ends after
      the lines already yielded. */
  datatype Rendered = Rendered(lines: seq<string>, complete: bool)

  /** The text yielded for a run's events: each event serialised and
      followed by a newline, in order, up to the first event that cannot be
      serialised (`serialize` gives `None` where `json.dumps` raises). */
  function Render<T>(events: seq<Event<T>>, serialize: T -> Option<string>): (out: Rendered)
    ensures |out.lines| <= |events|
    ensures out.complete <==> forall i | 0 <= i < |events| :: serialize(events[i].value).Some?
    ensures out.complete ==> |out.lines| == |events|
    ensures !out.complete ==> |out.lines| < |events| && serialize(events[|out.lines|].value).None?
    ensures forall i | 0 <= i < |out.lines| ::
      serialize(events[i].value).Some? && out.lines[i] == serialize(events[i].value).value + "\n"
    decreases |events|
  {
    if |events| == 0 then Rendered([], true)
    else match serialize(events[0].value)
      case None => Rendered([], false)
      case Some(text) =>
        var rest := Render(events[1..], serialize);
        assert forall i | 1 <= i < |events| :: events[i] == events[1..][i - 1];
        Rendered([text + "\n"] + rest.lines, rest.complete)
  }

  /** What is sent for one part of the output followed by another: the
      second part is sent only if the first was sent in full. */
  function Continue(first: Rendered, rest: Rendered): Rendered {
    if first.complete then Rendered(first.lines + rest.lines, rest.complete) else first
  }

  /** Rendering distributes over concatenation of events. */
  lemma {:induction false} RenderAppend<T>(a: seq<Event<T>>, b: seq<Event<T>>, serialize: T -> Option<string>)
    ensures Render(a + b, serialize) == Continue(Render(a, serialize), Render(b, serialize))
    decreases |a|
  {
    if |a| == 0 {
      assert a + b == b;
    } else {
      assert (a + b)[0] == a[0];
      assert (a + b)[1..] == a[1..] + b;
      RenderAppend(a[1..], b, serialize);
      if serialize(a[0].value).Some? {
        var t := serialize(a[0].value).value + "\n";
        var ra := Render(a[1..], serialize);
        var rb := Render(b, serialize);
        if ra.complete {
          assert [t] + (ra.lines + rb.lines) == ([t] + ra.lines) + rb.lines;
        }
      }
    }
  }

  /** The text sent for the chunks `a` then `b`, when `a` did not end the
      stream, is the text sent for `a` followed by the text sent for `b`:
      the response is the per-chunk outputs laid end to end. */
  lemma SentAppend<J, T>(a: seq<Pull>, b: seq<Pull>, parse: string -> Option<J>,
                         translate: StreamInput<J> -> Translation<T>,
                         serialize: T -> Option<string>, requestTimeout: int)
    requires RunStream(a, parse, translate, requestTimeout).ending == Exhausted
    ensures Render(RunStream(a + b, parse, translate, requestTimeout).events, serialize)
         == Continue(Render(RunStream(a, parse, translate, requestTimeout).events, serialize),
                     Render(RunStream(b, parse, translate, requestTimeout).events, serialize))
  {
    StreamAppend(a, b, parse, translate, requestTimeout);
    RenderAppend(RunStream(a, parse, translate, requestTimeout).events,
                 RunStream(b, parse, translate, requestTimeout).events, serialize);
  }

  /** Processing the lines `a + b` is processing `a`, then `b` only if `a`
      did not end the stream. */
  lemma {:induction false} LinesAppend<J, T>(a: seq<string>, b: seq<string>, parse: string -> Option<J>,
                                             translate: StreamInput<J> -> Translation<T>)
    ensures RunLines(a + b, parse, translate) == Then(RunLines(a, parse, translate), RunLines(b, parse, translate))
    decreases |a|
  {
    if |a| == 0 {
      assert a + b == b;
    } else {
      assert (a + b)[0] == a[0];
      assert (a + b)[1..] == a[1..] + b;
      LinesAppend(a[1..], b, parse, translate);
      var first := StepLine(a[0], parse, translate);
      var ra := RunLines(a[1..], parse, translate);
      var rb := RunLines(b, parse, translate);
      if first.ending == Exhausted && ra.ending == Exhausted {
        assert first.events + (ra.events + rb.events) == (first.events + ra.events) + rb.events;
      }
    }
  }

  /** The same for pulls: once the stream has ended (at the sentinel or by
      an exception), later chunks are never looked at; otherwise the output
      is the concatenation of the per-chunk outputs. */
  lemma {:induction false} StreamAppend<J, T>(a: seq<Pull>, b: seq<Pull>, parse: string -> Option<J>,
                                              translate: StreamInput<J> -> Translation<T>,
                                              requestTimeout: int)
    ensures RunStream(a + b, parse, translate, requestTimeout)
         == Then(RunStream(a, parse, translate, requestTimeout), RunStream(b, parse, translate, requestTimeout))
    decreases |a|
  {
    if |a| == 0 {
      assert a + b == b;
    } else {
      assert (a + b)[0] == a[0];
      assert (a + b)[1..] == a[1..] + b;
      StreamAppend(a[1..], b, parse, translate, requestTimeout);
      var ra := RunStream(a[1..], parse, translate, requestTimeout);
      var rb := RunStream(b, parse, translate, requestTimeout);
      var first := match a[0]
        case Chunk(text) => RunLines(Split(text, '\n'), parse, translate)
        case Broken(f) => Progress([], Aborted(ChatUpstream.ChatFailureFault(f, requestTimeout)));
      if first.ending == Exhausted && ra.ending == Exhausted {
        assert first.events + (ra.events + rb.events) == (first.events + ra.events) + rb.events;
      }
    }
  }

  /** Nothing after the end of the stream is processed. */
  lemma NothingAfterEnd<J, T>(a: seq<Pull>, b: seq<Pull>, parse: string -> Option<J>,
                              translate: StreamInput<J> -> Translation<T>, requestTimeout: int)
    requires RunStream(a, parse, translate, requestTimeout).ending != Exhausted
    ensures RunStream(a + b, parse, translate, requestTimeout) == RunStream(a, parse, translate, requestTimeout)
  {
    StreamAppend(a, b, parse, translate, requestTimeout);
  }

  /** All the lines of a sequence of chunks, each chunk split on its own. */
  function ChunkLines(texts: seq<string>): seq<string> {
    if |texts| == 0 then [] else Split(texts[0], '\n') + ChunkLines(texts[1..])
  }

  function Chunks(texts: seq<string>): (pulls: seq<Pull>)
    ensures |pulls| == |texts| && forall i | 0 <= i < |texts| :: pulls[i] == Chunk(texts[i])
  {
    seq(|texts|, i requires 0 <= i < |texts| => Chunk(texts[i]))
  }

  /** Reference reading: a stream that raises nothing behaves as one long
      list of lines, the chunks' lines laid end to end. */
  lemma {:induction false} StreamIsLinesOfChunks<J, T>(texts: seq<string>, parse: string -> Option<J>,
                                                       translate: StreamInput<J> -> Translation<T>,
                                                       requestTimeout: int)
    ensures RunStream(Chunks(texts), parse, translate, requestTimeout) == RunLines(ChunkLines(texts), parse, translate)
    decreases |texts|
  {
    if |texts| > 0 {
      assert Chunks(texts)[1..] == Chunks(texts[1..]);
      StreamIsLinesOfChunks(texts[1..], parse, translate, requestTimeout);
      LinesAppend(Split(texts[0], '\n'), ChunkLines(texts[1..]), parse, translate);
    }
  }

  /** Processing stops at the sentinel only when some line is exactly the
      sentinel. */
  lemma {:induction false} LinesTerminateOnlyAtSentinel<J, T>(lines: seq<string>, parse: string -> Option<J>,
                                                              translate: StreamInput<J> -> Translation<T>)
    requires RunLines(lines, parse, translate).ending.Terminated?
    ensures Sentinel in lines
    decreases |lines|
  {
    if StepLine(lines[0], parse, translate).ending == Exhausted {
      LinesTerminateOnlyAtSentinel(lines[1..], parse, translate);
      assert lines == [lines[0]] + lines[1..];
    }
  }

  /** A stream terminates normally only if one of its chunks, split on its
      own, has a line that is exactly the sentinel. */
  lemma {:induction false} StreamTerminatesOnlyAtSentinel<J, T>(pulls: seq<Pull>, parse: string -> Option<J>,
                                                                translate: StreamInput<J> -> Translation<T>,
                                                                requestTimeout: int)
    requires RunStream(pulls, parse, translate, requestTimeout).ending.Terminated?
    ensures exists i | 0 <= i < |pulls| :: pulls[i].Chunk? && Sentinel in Split(pulls[i].text, '\n')
    decreases |pulls|
  {
    var first := match pulls[0]
      case Chunk(text) => RunLines(Split(text, '\n'), parse, translate)
      case Broken(f) => Progress([], Aborted(ChatUpstream.ChatFailureFault(f, requestTimeout)));
    if first.ending == Exhausted {
      StreamTerminatesOnlyAtSentinel(pulls[1..], parse, translate, requestTimeout);
      var i :| 0 <= i < |pulls[1..]| && pulls[1..][i].Chunk? && Sentinel in Split(pulls[1..][i].text, '\n');
      assert pulls[i + 1] == pulls[1..][i];
    } else {
      LinesTerminateOnlyAtSentinel(Split(pulls[0].text, '\n'), parse, translate);
    }
  }

  /** A stream none of whose chunks has a sentinel line does not
      terminate normally. */
  lemma NoSentinelNoTermination<J, T>(pulls: seq<Pull>, parse: string -> Option<J>,
                                      translate: StreamInput<J> -> Translation<T>,
                                      requestTimeout: int)
    requires forall i | 0 <= i < |pulls| :: pulls[i].Chunk? ==> Sentinel !in Split(pulls[i].text, '\n')
    ensures !RunStream(pulls, parse, translate, requestTimeout).ending.Terminated?
  {
    if RunStream(pulls, parse, translate, requestTimeout).ending.Terminated? {
      StreamTerminatesOnlyAtSentinel(pulls, parse, translate, requestTimeout);
      assert false;
    }
  }

  /** A sentinel split across two chunks, at any point, is not recognised:
      neither part is the sentinel line, so the stream does not terminate
      there. */
  lemma SplitSentinelNotRecognised<J, T>(head: string, tail: string, parse: string -> Option<J>,
                                         translate: StreamInput<J> -> Translation<T>,
                                         requestTimeout: int)
    requires head + tail == Sentinel && 0 < |head| < |Sentinel|
    ensures !RunStream([Chunk(head), Chunk(tail)], parse, translate, requestTimeout).ending.Terminated?
  {
    assert '\n' !in Sentinel;
    assert '\n' !in head by { assert forall k | 0 <= k < |head| :: head[k] == Sentinel[k]; }
    assert '\n' !in tail by { assert forall k | 0 <= k < |tail| :: tail[k] == Sentinel[|head| + k]; }
    SplitWithoutSeparator(head, '\n');
    SplitWithoutSeparator(tail, '\n');
    NoSentinelNoTermination([Chunk(head), Chunk(tail)], parse, translate, requestTimeout);
  }

  /** With CRLF line endings the sentinel line keeps its `\r`, is not equal
      to the sentinel, and does not end the stream. */
  lemma CrLfSentinelNotRecognised<J, T>(parse: string -> Option<J>,
                                        translate: StreamInput<J> -> Translation<T>)
    ensures !StepLine("data: [DONE]\r", parse, translate).ending.Terminated?
  {
    assert "data: [DONE]\r" != Sentinel by {
      assert |"data: [DONE]\r"| != |Sentinel|;
    }
  }

  /** A `data:` line without the space after the colon is ignored. */
  lemma DataWithoutSpaceIgnored<J, T>(rest: string, parse: string -> Option<J>,
                                      translate: StreamInput<J> -> Translation<T>)
    requires |rest| > 0 && rest[0] != ' '
    ensures StepLine("data:" + rest, parse, translate) == Progress([], Exhausted)
  {
    var line := "data:" + rest;
    assert !IsSpace(line[0]);
    assert line[5] == rest[0];
    assert line != Sentinel by { assert Sentinel[5] == ' '; }
    assert !StartsWith(line, DataPrefix) by { assert DataPrefix[5] == ' '; }
  }
}
