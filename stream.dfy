/** The provider side of a request: the wire messages sent to the provider, and the
    server-sent-events decoding of a streamed response into the events the main loop
    receives. The HTTP exchange is an input: the status, the error body and the body
    chunks as they arrived. */
module Provider {
  import opened Wrappers
  import opened Text
  import Json
  import opened Events

  /** A wire message's content: plain text or a list of content blocks. */
  datatype MessageContent = Text(text: string) | Blocks(blocks: seq<Json.Value>)

  /** One entry of the provider wire history. */
  datatype Message = Message(role: string, content: MessageContent)

  /** The JSON form of message content: a string or an array of blocks. */
  function ContentJson(c: MessageContent): Json.Value
  {
    match c
    case Text(s) => Json.Str(s)
    case Blocks(bs) => Json.Array(bs)
  }

  function RoleContent(role: string, content: Json.Value): Json.Value
  {
    Json.Object(map["role" := Json.Str(role), "content" := content])
  }

  /** The message list of a chat-completions request: the system prompt as the first
      message when there is one, then every history message with its role and content. */
  function OpenAiMessages(system: Option<string>, history: seq<Message>): (r: seq<Json.Value>)
    ensures system.None? ==> |r| == |history|
    ensures system.Some? ==> |r| == |history| + 1 && r[0] == RoleContent("system", Json.Str(system.value))
    ensures var off := if system.Some? then 1 else 0;
      forall i :: 0 <= i < |history| ==>
        r[i + off] == RoleContent(history[i].role, ContentJson(history[i].content))
  {
    var rest := seq(|history|, i requires 0 <= i < |history| =>
      RoleContent(history[i].role, ContentJson(history[i].content)));
    match system
    case None => rest
    case Some(sys) => [RoleContent("system", Json.Str(sys))] + rest
  }

  /** The two streaming protocols. */
  datatype Dialect = Anthropic | OpenAi

  /** One read from the response body: text, or a transport failure. */
  datatype Chunk = Data(text: string) | Broken(message: string)

  /** What the HTTP exchange produced. `body` is the error body of a non-2xx response
      (`None` when it could not be read); `chunks` is the streamed body of a 2xx one. */
  datatype HttpResponse =
    | ConnectFailed(message: string)
    | Response(status: nat, reason: Option<string>, body: Option<string>, chunks: seq<Chunk>)

  /** `StatusCode::is_success` */
  predicate IsSuccess(status: nat)
  {
    200 <= status <= 299
  }

  /** The error event text: the status as "code reason", then the error body. */
  function ErrorText(status: nat, reason: Option<string>, body: Option<string>): string
  {
    "API error " + NatToString(status) + " " + reason.GetOr("<unknown status code>") + ": " + body.GetOr("")
  }

  /** What one trimmed line contributes: the events it emits and whether it ends the stream. */
  datatype Effect = Effect(events: seq<Event>, stop: bool)

  /** The text a parsed event carries, by dialect. */
  function DeltaText(d: Dialect, ev: Json.Value): Option<string>
  {
    match d
    case Anthropic =>
      if Json.Member(ev, "type") == Json.Str("content_block_delta")
      then Json.AsStr(Json.Member(Json.Member(ev, "delta"), "text"))
      else None
    case OpenAi =>
      Json.AsStr(Json.Member(Json.Member(Json.Element(Json.Member(ev, "choices"), 0), "delta"), "content"))
  }

  /** The per-line decision of the stream loop, for a line already trimmed. */
  function LineEffect(d: Dialect, line: string, parse: string -> Result<Json.Value, string>): (e: Effect)
    ensures !("data: " <= line) ==> e == Effect([], false)
    ensures "data: " <= line && line[6..] == "[DONE]" ==> e == Effect([ApiDone], true)
    ensures "data: " <= line && line[6..] != "[DONE]" && parse(line[6..]).Err? ==> e == Effect([], false)
    ensures |e.events| <= 1
    ensures e.stop ==> e.events == [ApiDone]
    ensures !e.stop ==> forall i :: 0 <= i < |e.events| ==> e.events[i].ApiChunk?
  {
    if !("data: " <= line) then Effect([], false)
    else
      var data := line[6..];
      if data == "[DONE]" then Effect([ApiDone], true)
      else match parse(data)
        case Err(_) => Effect([], false)
        case Ok(ev) =>
          var chunk := match DeltaText(d, ev) case Some(t) => [ApiChunk(t)] case None => [];
          if d == Anthropic && Json.Member(ev, "type") == Json.Str("message_stop")
          then Effect(chunk + [ApiDone], true)
          else Effect(chunk, false)
  }

  /** The accumulated result of feeding trimmed lines, in order, through the per-line
      decision; lines after the one that stops the stream are ignored. */
  datatype Outcome = Outcome(events: seq<Event>, stopped: bool)

  function Run(d: Dialect, lines: seq<string>, parse: string -> Result<Json.Value, string>): Outcome
  {
    if lines == [] then Outcome([], false)
    else
      var o := Run(d, lines[..|lines| - 1], parse);
      if o.stopped then o
      else
        var e := LineEffect(d, lines[|lines| - 1], parse);
        Outcome(o.events + e.events, e.stop)
  }

  /** The '\n'-terminated lines of a text, without their terminators; an unterminated
      remainder is not a line. */
  function CompleteLines(s: string): (r: seq<string>)
    decreases |s|
  {
    match FindChar(s, '\n')
    case None => []
    case Some(k) => [s[..k]] + CompleteLines(s[k + 1..])
  }

  /** Every line trimmed (`str::trim`). */
  function TrimAll(lines: seq<string>): (r: seq<string>)
    ensures |r| == |lines|
  {
    if lines == [] then [] else TrimAll(lines[..|lines| - 1]) + [Trim(lines[|lines| - 1])]
  }

  predicate NoNewlines(lines: seq<string>)
  {
    forall i :: 0 <= i < |lines| ==> '\n' !in lines[i]
  }

  /** Lines written back with their terminators. */
  function Terminated(lines: seq<string>): string
  {
    if lines == [] then [] else Terminated(lines[..|lines| - 1]) + lines[|lines| - 1] + "\n"
  }

  /** The text of the body chunks, a transport failure contributing nothing. */
  function ConcatData(chunks: seq<Chunk>): string
  {
    if chunks == [] then []
    else ConcatData(chunks[..|chunks| - 1]) + (match chunks[|chunks| - 1] case Data(t) => t case Broken(_) => [])
  }

  /** The position of the first transport failure, or the number of chunks. */
  function FirstBroken(chunks: seq<Chunk>): (k: nat)
    ensures k <= |chunks|
    ensures forall j :: 0 <= j < k ==> chunks[j].Data?
    ensures k < |chunks| ==> chunks[k].Broken?
  {
    if chunks == [] then 0
    else if chunks[0].Broken? then 0
    else 1 + FirstBroken(chunks[1..])
  }

  /** The events a provider call sends: the decoded stream, then either nothing (the stream
      stopped itself), the error of the first transport failure, or the final `ApiDone`.
      A connect failure or a transport failure reaches the main loop as `ApiError` through
      the spawned tokio job that made the call. */
  function StreamEvents(d: Dialect, resp: HttpResponse, parse: string -> Result<Json.Value, string>): seq<Event>
  {
    match resp
    case ConnectFailed(m) => [ApiError(m)]
    case Response(status, reason, body, chunks) =>
      if !IsSuccess(status) then [ApiError(ErrorText(status, reason, body))]
      else
        var k := FirstBroken(chunks);
        var o := Run(d, TrimAll(CompleteLines(ConcatData(chunks[..k]))), parse);
        if o.stopped then o.events
        else if k < |chunks| then o.events + [ApiError(chunks[k].message)]
        else o.events + [ApiDone]
  }

  // ---------------------------------------------------------------------------
  // The stream loop
  // ---------------------------------------------------------------------------

  /** `stream_anthropic` / `stream_openai` from the response on, together with the spawning
      task's conversion of a returned error into `ApiError`: each chunk is appended to a
      rolling buffer and the buffer's complete lines are processed. */
  method StreamResponse(d: Dialect, resp: HttpResponse, parse: string -> Result<Json.Value, string>)
    returns (events: seq<Event>)
    ensures events == StreamEvents(d, resp, parse)
  {
    if resp.ConnectFailed? {
      assert StreamEvents(d, resp, parse) == [ApiError(resp.message)];
      return [ApiError(resp.message)];
    }
    var status, reason, body, chunks := resp.status, resp.reason, resp.body, resp.chunks;
    assert resp == Response(status, reason, body, chunks);
    if !IsSuccess(status) {
      assert StreamEvents(d, resp, parse) == [ApiError(ErrorText(status, reason, body))];
      return [ApiError(ErrorText(status, reason, body))];
    }
    events := [];
    var buffer: string := [];
    ghost var lines: seq<string> := [];
    var i := 0;
    while i < |chunks|
      invariant i <= FirstBroken(chunks)
      invariant ConcatData(chunks[..i]) == Terminated(lines) + buffer
      invariant '\n' !in buffer
      invariant NoNewlines(lines)
      invariant Run(d, TrimAll(lines), parse) == Outcome(events, false)
    {
      if chunks[i].Broken? {
        FinishBroken(d, status, reason, body, chunks, i, lines, buffer, events, parse);
        return events + [ApiError(chunks[i].message)];
      }
      var text := chunks[i].text;
      ConcatDataStep(chunks, i);
      AppendAssoc(Terminated(lines), buffer, text);
      var stopped;
      ghost var before := lines;
      buffer, events, lines, stopped := DrainLines(d, buffer + text, events, lines, parse);
      if stopped {
        StopIsFinal(d, status, reason, body, chunks, i, lines, buffer, parse);
        return;
      }
      i := i + 1;
    }
    FinishNormally(d, status, reason, body, chunks, lines, buffer, events, parse);
    assert StreamEvents(d, resp, parse) == events + [ApiDone];
    events := events + [ApiDone];
  }

  /** The inner loop of the stream: while the buffer holds a '\n', the text before it is
      cut off the front, trimmed, and interpreted; a terminator line stops everything. */
  method DrainLines(d: Dialect, buffer: string, events: seq<Event>, ghost lines: seq<string>,
                    parse: string -> Result<Json.Value, string>)
    returns (rest: string, events': seq<Event>, ghost lines': seq<string>, stopped: bool)
    requires NoNewlines(lines)
    requires Run(d, TrimAll(lines), parse) == Outcome(events, false)
    ensures NoNewlines(lines')
    ensures Terminated(lines) + buffer == Terminated(lines') + rest
    ensures Run(d, TrimAll(lines'), parse) == Outcome(events', stopped)
    ensures !stopped ==> '\n' !in rest
  {
    rest, events', lines', stopped := buffer, events, lines, false;
    while FindChar(rest, '\n').Some?
      invariant NoNewlines(lines')
      invariant Terminated(lines) + buffer == Terminated(lines') + rest
      invariant Run(d, TrimAll(lines'), parse) == Outcome(events', false)
      decreases |rest|
    {
      var lineEnd := FindChar(rest, '\n').value;
      var raw := rest[..lineEnd];
      var line := Trim(raw);
      CutLine(lines', rest, lineEnd);
      TrimAllSnoc(lines', raw);
      RunSnoc(d, TrimAll(lines'), line, parse);
      rest := rest[lineEnd + 1..];
      lines' := lines' + [raw];
      events', stopped := ProcessLine(d, line, events', parse);
      if stopped {
        return;
      }
    }
  }

  /** The handling of one trimmed line: only `data: ` lines are interpreted; `[DONE]`, and
      for Anthropic `message_stop`, emit `ApiDone` and end the stream; a payload that does
      not parse is dropped. */
  method ProcessLine(d: Dialect, line: string, events: seq<Event>, parse: string -> Result<Json.Value, string>)
    returns (events': seq<Event>, stop: bool)
    ensures events' == events + LineEffect(d, line, parse).events
    ensures stop == LineEffect(d, line, parse).stop
  {
    events', stop := events, false;
    if "data: " <= line {
      var data := line[6..];
      if data == "[DONE]" {
        events' := events' + [ApiDone];
        return events', true;
      }
      match parse(data) {
        case Err(_) =>
        case Ok(ev) =>
          match DeltaText(d, ev) {
            case Some(t) => events' := events' + [ApiChunk(t)];
            case None =>
          }
          if d == Anthropic && Json.Member(ev, "type") == Json.Str("message_stop") {
            events' := events' + [ApiDone];
            return events', true;
          }
      }
    }
  }

  lemma ConcatDataStep(chunks: seq<Chunk>, i: nat)
    requires i < |chunks| && chunks[i].Data?
    ensures ConcatData(chunks[..i + 1]) == ConcatData(chunks[..i]) + chunks[i].text
  {
    assert chunks[..i + 1][..i] == chunks[..i];
  }

  lemma TrimAllSnoc(lines: seq<string>, raw: string)
    ensures TrimAll(lines + [raw]) == TrimAll(lines) + [Trim(raw)]
  {
    assert (lines + [raw])[..|lines|] == lines;
  }

  lemma {:induction false} TrimAllAppend(a: seq<string>, b: seq<string>)
    ensures TrimAll(a + b) == TrimAll(a) + TrimAll(b)
    decreases |b|
  {
    if b == [] {
      AppendNil(a);
      AppendNil(TrimAll(a));
    } else {
      var init, last := b[..|b| - 1], b[|b| - 1];
      TrimAllAppend(a, init);
      SplitLast(b);
      AppendAssoc(a, init, [last]);
      TrimAllSnoc(a + init, last);
      TrimAllSnoc(init, last);
      AppendAssoc(TrimAll(a), TrimAll(init), [Trim(last)]);
    }
  }

  lemma RunSnoc(d: Dialect, ts: seq<string>, line: string, parse: string -> Result<Json.Value, string>)
    ensures Run(d, ts + [line], parse) ==
      if Run(d, ts, parse).stopped then Run(d, ts, parse)
      else Outcome(Run(d, ts, parse).events + LineEffect(d, line, parse).events, LineEffect(d, line, parse).stop)
  {
    assert (ts + [line])[..|ts|] == ts;
  }

  lemma TerminatedSnoc(init: seq<string>, last: string)
    ensures Terminated(init + [last]) == Terminated(init) + last + "\n"
  {
    assert (init + [last])[..|init|] == init;
  }

  /** Cutting the first line off the buffer moves it, terminator included, to the lines. */
  lemma CutLine(lines: seq<string>, rest: string, lineEnd: nat)
    requires NoNewlines(lines)
    requires FindChar(rest, '\n') == Some(lineEnd)
    ensures NoNewlines(lines + [rest[..lineEnd]])
    ensures Terminated(lines) + rest == Terminated(lines + [rest[..lineEnd]]) + rest[lineEnd + 1..]
  {
    var raw := rest[..lineEnd];
    var after := rest[lineEnd + 1..];
    assert rest == raw + "\n" + after;
    TerminatedSnoc(lines, raw);
    AppendAssoc(Terminated(lines), raw + "\n", after);
    AppendAssoc(Terminated(lines), raw, "\n");
    assert forall i :: 0 <= i < |lines| + 1 ==> (lines + [raw])[i] == if i < |lines| then lines[i] else raw;
  }

  lemma CompleteLinesCons(line: string, s: string)
    requires '\n' !in line
    ensures CompleteLines(line + "\n" + s) == [line] + CompleteLines(s)
  {
    var s' := line + "\n" + s;
    assert s'[..|line|] == line;
    FindCharAt(s', '\n', |line|);
    assert s'[|line| + 1..] == s;
  }

  /** Cutting terminated lines off the front: the complete lines of `Terminated(ls) + s`
      are `ls` followed by the complete lines of `s`. */
  lemma {:induction false} CompleteLinesOfTerminated(ls: seq<string>, s: string)
    requires NoNewlines(ls)
    ensures CompleteLines(Terminated(ls) + s) == ls + CompleteLines(s)
    decreases |ls|
  {
    if ls == [] {
      assert Terminated(ls) + s == s;
    } else {
      var init, last := ls[..|ls| - 1], ls[|ls| - 1];
      SplitLast(ls);
      assert NoNewlines(init) by {
        forall i | 0 <= i < |init| ensures '\n' !in init[i] { assert init[i] == ls[i]; }
      }
      var t := Terminated(init);
      TerminatedSnoc(init, last);
      AppendAssoc(t + last, "\n", s);
      AppendAssoc(t, last, "\n" + s);
      AppendAssoc(last, "\n", s);
      assert Terminated(ls) + s == t + (last + "\n" + s);
      CompleteLinesOfTerminated(init, last + "\n" + s);
      CompleteLinesCons(last, s);
      AppendAssoc(init, [last], CompleteLines(s));
    }
  }

  lemma CompleteLinesAfter(lines: seq<string>, rest: string)
    requires NoNewlines(lines)
    requires '\n' !in rest
    ensures CompleteLines(Terminated(lines) + rest) == lines
  {
    CompleteLinesOfTerminated(lines, rest);
    assert CompleteLines(rest) == [];
    assert lines + [] == lines;
  }

  lemma FinishBroken(d: Dialect, status: nat, reason: Option<string>, body: Option<string>,
                     chunks: seq<Chunk>, i: nat, lines: seq<string>, buffer: string, events: seq<Event>,
                     parse: string -> Result<Json.Value, string>)
    requires IsSuccess(status)
    requires i <= FirstBroken(chunks) && i < |chunks| && chunks[i].Broken?
    requires ConcatData(chunks[..i]) == Terminated(lines) + buffer
    requires '\n' !in buffer && NoNewlines(lines)
    requires Run(d, TrimAll(lines), parse) == Outcome(events, false)
    ensures StreamEvents(d, Response(status, reason, body, chunks), parse) == events + [ApiError(chunks[i].message)]
  {
    assert FirstBroken(chunks) == i;
    CompleteLinesAfter(lines, buffer);
  }

  lemma FinishNormally(d: Dialect, status: nat, reason: Option<string>, body: Option<string>,
                       chunks: seq<Chunk>, lines: seq<string>, buffer: string, events: seq<Event>,
                       parse: string -> Result<Json.Value, string>)
    requires IsSuccess(status)
    requires FirstBroken(chunks) >= |chunks|
    requires ConcatData(chunks[..|chunks|]) == Terminated(lines) + buffer
    requires '\n' !in buffer && NoNewlines(lines)
    requires Run(d, TrimAll(lines), parse) == Outcome(events, false)
    ensures StreamEvents(d, Response(status, reason, body, chunks), parse) == events + [ApiDone]
  {
    assert FirstBroken(chunks) == |chunks|;
    CompleteLinesAfter(lines, buffer);
  }

  /** Once the lines so far stop the stream, no later line or chunk matters. */
  lemma {:induction false} RunStopped(d: Dialect, ls: seq<string>, more: seq<string>, parse: string -> Result<Json.Value, string>)
    requires Run(d, ls, parse).stopped
    ensures Run(d, ls + more, parse) == Run(d, ls, parse)
    decreases |more|
  {
    if more != [] {
      var init, last := more[..|more| - 1], more[|more| - 1];
      RunStopped(d, ls, init, parse);
      assert ls + more == (ls + init) + [last];
      RunStoppedStep(d, ls + init, last, parse);
    } else {
      assert ls + more == ls;
    }
  }

  /** One more line after the stream stopped changes nothing. */
  lemma RunStoppedStep(d: Dialect, ls: seq<string>, line: string, parse: string -> Result<Json.Value, string>)
    requires Run(d, ls, parse).stopped
    ensures Run(d, ls + [line], parse) == Run(d, ls, parse)
  {
    assert (ls + [line])[..|ls|] == ls;
  }

  lemma StopIsFinal(d: Dialect, status: nat, reason: Option<string>, body: Option<string>,
                    chunks: seq<Chunk>, i: nat, lines: seq<string>, buffer: string,
                    parse: string -> Result<Json.Value, string>)
    requires IsSuccess(status)
    requires i < FirstBroken(chunks)
    requires NoNewlines(lines)
    requires ConcatData(chunks[..i + 1]) == Terminated(lines) + buffer
    requires Run(d, TrimAll(lines), parse).stopped
    ensures StreamEvents(d, Response(status, reason, body, chunks), parse) == Run(d, TrimAll(lines), parse).events
  {
    var k := FirstBroken(chunks);
    assert chunks[..k][..i + 1] == chunks[..i + 1];
    StoppedPrefix(d, chunks[..k], i, lines, buffer, parse);
    SuccessStopped(d, status, reason, body, chunks, parse);
  }

  /** Once the lines decoded from the first chunks stop the stream, the later text of the
      unbroken chunks changes nothing. */
  lemma StoppedPrefix(d: Dialect, good: seq<Chunk>, i: nat, lines: seq<string>, buffer: string,
                      parse: string -> Result<Json.Value, string>)
    requires i < |good|
    requires NoNewlines(lines)
    requires ConcatData(good[..i + 1]) == Terminated(lines) + buffer
    requires Run(d, TrimAll(lines), parse).stopped
    ensures Run(d, TrimAll(CompleteLines(ConcatData(good))), parse) == Run(d, TrimAll(lines), parse)
  {
    ConcatDataSplit(good, i + 1);
    var rest := ConcatData(good[i + 1..]);
    AppendAssoc(Terminated(lines), buffer, rest);
    CompleteLinesOfTerminated(lines, buffer + rest);
    var more := CompleteLines(buffer + rest);
    TrimAllAppend(lines, more);
    RunStopped(d, TrimAll(lines), TrimAll(more), parse);
  }

  /** A 2xx response whose decoded lines stop the stream sends just their events. */
  lemma SuccessStopped(d: Dialect, status: nat, reason: Option<string>, body: Option<string>,
                       chunks: seq<Chunk>, parse: string -> Result<Json.Value, string>)
    requires IsSuccess(status)
    ensures var o := Run(d, TrimAll(CompleteLines(ConcatData(chunks[..FirstBroken(chunks)]))), parse);
      o.stopped ==> StreamEvents(d, Response(status, reason, body, chunks), parse) == o.events
  {
  }

  lemma {:induction false} ConcatDataSplit(cs: seq<Chunk>, m: nat)
    requires m <= |cs|
    ensures ConcatData(cs) == ConcatData(cs[..m]) + ConcatData(cs[m..])
    decreases |cs|
  {
    if |cs| > m {
      var init := cs[..|cs| - 1];
      ConcatDataSplit(init, m);
      assert init[..m] == cs[..m];
      assert cs[m..][..|cs[m..]| - 1] == init[m..];
      assert cs[m..][|cs[m..]| - 1] == cs[|cs| - 1];
    } else {
      assert cs[..m] == cs;
      assert cs[m..] == [];
    }
  }

  // ---------------------------------------------------------------------------
  // Properties of the decoded stream
  // ---------------------------------------------------------------------------

  /** A non-2xx status produces exactly one error event and nothing else. */
  lemma FailureStatusSingleError(d: Dialect, status: nat, reason: Option<string>, body: Option<string>,
                                 chunks: seq<Chunk>, parse: string -> Result<Json.Value, string>)
    requires !IsSuccess(status)
    ensures StreamEvents(d, Response(status, reason, body, chunks), parse)
         == [ApiError("API error " + NatToString(status) + " " + reason.GetOr("<unknown status code>")
                      + ": " + body.GetOr(""))]
  {
  }

  /** The shape of the events fed lines produce: only text chunks while the stream runs;
      once stopped, a single `ApiDone` at the very end. */
  lemma {:induction false} RunShape(d: Dialect, ls: seq<string>, parse: string -> Result<Json.Value, string>)
    ensures var o := Run(d, ls, parse);
      && (!o.stopped ==> forall i :: 0 <= i < |o.events| ==> o.events[i].ApiChunk?)
      && (o.stopped ==> |o.events| > 0 && o.events[|o.events| - 1] == ApiDone
                        && forall i :: 0 <= i < |o.events| - 1 ==> o.events[i].ApiChunk?)
  {
    if ls != [] {
      var init := ls[..|ls| - 1];
      RunShape(d, init, parse);
      var o := Run(d, init, parse);
      if !o.stopped {
        var e := LineEffect(d, Trim(ls[|ls| - 1]), parse);
        EffectAppendShape(o.events, e);
      }
    }
  }

  lemma EffectAppendShape(before: seq<Event>, e: Effect)
    requires forall i :: 0 <= i < |before| ==> before[i].ApiChunk?
    requires |e.events| <= 1
    requires e.stop ==> e.events == [ApiDone]
    requires !e.stop ==> forall i :: 0 <= i < |e.events| ==> e.events[i].ApiChunk?
    ensures var all := before + e.events;
      && (!e.stop ==> forall i :: 0 <= i < |all| ==> all[i].ApiChunk?)
      && (e.stop ==> |all| > 0 && all[|all| - 1] == ApiDone && forall i :: 0 <= i < |all| - 1 ==> all[i].ApiChunk?)
  {
  }

  /** Without a transport failure, the events are those of the decoded lines, then
      `ApiDone` unless the stream stopped itself. */
  lemma NoBreakEvents(d: Dialect, status: nat, reason: Option<string>, body: Option<string>,
                      chunks: seq<Chunk>, parse: string -> Result<Json.Value, string>)
    requires IsSuccess(status) && FirstBroken(chunks) == |chunks|
    ensures var o := Run(d, TrimAll(CompleteLines(ConcatData(chunks))), parse);
      StreamEvents(d, Response(status, reason, body, chunks), parse)
        == (if o.stopped then o.events else o.events + [ApiDone])
  {
    assert chunks[..|chunks|] == chunks;
  }

  /** Text chunks, then one `ApiDone` as the last event. */
  predicate EndsInOneDone(es: seq<Event>)
  {
    |es| > 0 && es[|es| - 1] == ApiDone && forall i :: 0 <= i < |es| - 1 ==> es[i].ApiChunk?
  }

  lemma AllDataUnbroken(chunks: seq<Chunk>)
    requires forall j :: 0 <= j < |chunks| ==> chunks[j].Data?
    ensures FirstBroken(chunks) == |chunks|
  {
  }

  /** An outcome of the shape `RunShape` gives ends in exactly one `ApiDone` once the final
      one is added to a stream that did not stop itself. */
  lemma DoneLast(o: Outcome, es: seq<Event>)
    requires es == if o.stopped then o.events else o.events + [ApiDone]
    requires !o.stopped ==> forall i :: 0 <= i < |o.events| ==> o.events[i].ApiChunk?
    requires o.stopped ==> |o.events| > 0 && o.events[|o.events| - 1] == ApiDone
                           && forall i :: 0 <= i < |o.events| - 1 ==> o.events[i].ApiChunk?
    ensures EndsInOneDone(es)
  {
  }

  /** Without a connect or transport failure, a 2xx response yields text chunks followed by
      exactly one `ApiDone`, as the last event. */
  lemma ExactlyOneDone(d: Dialect, status: nat, reason: Option<string>, body: Option<string>,
                       chunks: seq<Chunk>, parse: string -> Result<Json.Value, string>)
    requires IsSuccess(status)
    requires forall j :: 0 <= j < |chunks| ==> chunks[j].Data?
    ensures EndsInOneDone(StreamEvents(d, Response(status, reason, body, chunks), parse))
  {
    AllDataUnbroken(chunks);
    var ls := TrimAll(CompleteLines(ConcatData(chunks)));
    RunShape(d, ls, parse);
    NoBreakEvents(d, status, reason, body, chunks, parse);
    DoneLast(Run(d, ls, parse), StreamEvents(d, Response(status, reason, body, chunks), parse));
  }

  /** A `[DONE]` payload emits `ApiDone` and nothing follows it, whatever the later lines. */
  lemma DoneEndsStream(d: Dialect, before: seq<string>, line: string, after: seq<string>,
                       parse: string -> Result<Json.Value, string>)
    requires !Run(d, before, parse).stopped
    requires line == "data: [DONE]"
    ensures Run(d, before + [line] + after, parse) == Outcome(Run(d, before, parse).events + [ApiDone], true)
  {
    assert (before + [line])[..|before|] == before;
    assert "data: " <= line && line[6..] == "[DONE]";
    RunStopped(d, before + [line], after, parse);
  }

  /** An Anthropic `content_block_delta` event with string `delta.text` emits that text;
      `message_stop` emits `ApiDone` and ends the stream. */
  lemma AnthropicEvents(line: string, ev: Json.Value, parse: string -> Result<Json.Value, string>)
    requires "data: " <= line && line[6..] != "[DONE]" && parse(line[6..]) == Ok(ev)
    ensures Json.Member(ev, "type") == Json.Str("content_block_delta")
            && Json.AsStr(Json.Member(Json.Member(ev, "delta"), "text")).Some? ==>
      LineEffect(Anthropic, line, parse)
        == Effect([ApiChunk(Json.AsStr(Json.Member(Json.Member(ev, "delta"), "text")).value)], false)
    ensures Json.Member(ev, "type") == Json.Str("message_stop") ==>
      LineEffect(Anthropic, line, parse) == Effect([ApiDone], true)
  {
  }

  /** An OpenAI event with a string `choices[0].delta.content` emits exactly that string,
      and an OpenAI event never ends the stream. */
  lemma OpenAiEvents(line: string, ev: Json.Value, parse: string -> Result<Json.Value, string>)
    requires "data: " <= line && line[6..] != "[DONE]" && parse(line[6..]) == Ok(ev)
    ensures var c := Json.AsStr(Json.Member(Json.Member(Json.Element(Json.Member(ev, "choices"), 0), "delta"), "content"));
      LineEffect(OpenAi, line, parse) == Effect(if c.Some? then [ApiChunk(c.value)] else [], false)
  {
  }

  /** A body that arrives as two text chunks gives the same events as the same text in one
      chunk: a line split across the two chunks is decoded whole. */
  lemma ChunkBoundariesIrrelevant(d: Dialect, status: nat, reason: Option<string>, body: Option<string>,
                                  a: string, b: string, parse: string -> Result<Json.Value, string>)
    ensures StreamEvents(d, Response(status, reason, body, [Data(a), Data(b)]), parse)
         == StreamEvents(d, Response(status, reason, body, [Data(a + b)]), parse)
  {
    var two := [Data(a), Data(b)];
    assert FirstBroken(two) == 2 by { assert two[1..] == [Data(b)]; }
    assert two[..2] == two;
    assert two[..1] == [Data(a)];
    assert [Data(a + b)][..1] == [Data(a + b)];
    assert ConcatData([Data(a)]) == a by { assert [Data(a)][..0] == []; }
    assert ConcatData([Data(a + b)]) == a + b by { assert [Data(a + b)][..0] == []; }
  }
}
