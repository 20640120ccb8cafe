/**
  Rebuilding an assistant message from a proxied stream that arrives in arbitrary chunks.

  A line that starts with "data: " carries one event. Trimming and JSON parsing are a parameter, and so
  is the salvage parser for streamed tool arguments.
 */
module ProxyStream {
  import opened Wrappers

  datatype StopReason = Stop | Length | ToolUse | Error | Aborted

  datatype ToolCall = ToolCall(id: string, name: string, arguments: string)

  datatype Event =
    | Start
    | TextStart(index: nat)
    | TextDelta(index: nat, delta: string)
    | TextEnd(index: nat, signature: Option<string>)
    | ThinkingStart(index: nat)
    | ThinkingDelta(index: nat, delta: string)
    | ThinkingEnd(index: nat, signature: Option<string>)
    | CallStart(index: nat, id: string, name: string)
    | CallDelta(index: nat, delta: string)
    | CallEnd(index: nat, call: ToolCall)
    | Done(reason: StopReason, usage: string)
    | Failed(reason: StopReason, message: Option<string>, usage: string)
    | Unknown

  /** What the text after "data: " holds. */
  datatype Payload = Blank | Malformed | Parsed(event: Event)

  datatype Codec = Codec(decode: string -> Payload, salvage: string -> string)

  datatype Block =
    | TextBlock(text: string, signature: Option<string>)
    | ThinkingBlock(thinking: string, signature: Option<string>)
    | CallBlock(call: ToolCall, partialJson: Option<string>)

  /** The error text of the message: the server's, or one written for a thrown error or a dropped response. */
  datatype ErrorText = NoError | FromServer(message: Option<string>) | FromThrow | ConnectionClosed

  /** The message under reconstruction; content positions may be filled in any order. */
  datatype Partial = Partial(content: map<nat, Block>, stop: StopReason, error: ErrorText, usage: string)

  /** `forwarded` are the events pushed to the consumer; `threw` means that processing stopped with an error. */
  datatype State = State(partial: Partial, sawTerminal: bool, forwarded: seq<Event>, threw: bool)

  function Put(s: State, event: Event, index: nat, block: Block): State {
    s.(partial := s.partial.(content := s.partial.content[index := block]), forwarded := s.forwarded + [event])
  }

  /** `processProxyEvent`, and the forwarding of its result. */
  function Process(codec: Codec, s: State, event: Event): State {
    match event
    case Start => s.(forwarded := s.forwarded + [event])
    case TextStart(i) => Put(s, event, i, TextBlock("", None))
    case TextDelta(i, delta) =>
      if i in s.partial.content && s.partial.content[i].TextBlock?
      then Put(s, event, i, s.partial.content[i].(text := s.partial.content[i].text + delta)) else s.(threw := true)
    case TextEnd(i, signature) =>
      if i in s.partial.content && s.partial.content[i].TextBlock?
      then Put(s, event, i, TextBlock(s.partial.content[i].text, signature)) else s.(threw := true)
    case ThinkingStart(i) => Put(s, event, i, ThinkingBlock("", None))
    case ThinkingDelta(i, delta) =>
      if i in s.partial.content && s.partial.content[i].ThinkingBlock?
      then Put(s, event, i, s.partial.content[i].(thinking := s.partial.content[i].thinking + delta))
          else s.(threw := true)
    case ThinkingEnd(i, signature) =>
      if i in s.partial.content && s.partial.content[i].ThinkingBlock?
      then Put(s, event, i, ThinkingBlock(s.partial.content[i].thinking, signature)) else s.(threw := true)
    case CallStart(i, id, name) => Put(s, event, i, CallBlock(ToolCall(id, name, "{}"), Some("")))
    case CallDelta(i, delta) =>
      if i in s.partial.content && s.partial.content[i].CallBlock? then
        // after toolcall_end the accumulator is gone and the source appends to the text "undefined"
        var before := if s.partial.content[i].partialJson.Some? then s.partial.content[i].partialJson.value
            else "undefined";
        var call := s.partial.content[i].call;
        Put(s, event, i, CallBlock(call.(arguments := codec.salvage(before + delta)), Some(before + delta)))
      else s.(threw := true)
    case CallEnd(i, call) =>
      if i in s.partial.content && s.partial.content[i].CallBlock? then Put(s, event, i, CallBlock(call, None)) else s
    case Done(reason, usage) =>
      s.(partial := s.partial.(stop := reason, usage := usage), sawTerminal := true, forwarded := s.forwarded + [event])
    case Failed(reason, message, usage) =>
      s.(partial := s.partial.(stop := reason, error := FromServer(message), usage := usage), sawTerminal := true,
         forwarded := s.forwarded + [event])
    case Unknown => s
  }

  const DATA: string := "data: "

  /** `processLine`; once it threw, no later line is looked at. */
  function ProcessLine(codec: Codec, s: State, line: string): State {
    if s.threw || !(DATA <= line) then s
    else
      match codec.decode(line[|DATA|..])
      case Blank => s
      case Malformed => s.(threw := true)
      case Parsed(event) => Process(codec, s, event)
  }

  function ProcessLines(codec: Codec, s: State, lines: seq<string>): State {
    if lines == [] then s else ProcessLine(codec, ProcessLines(codec, s, lines[..|lines| - 1]), lines[|lines| - 1])
  }

  /** After the last chunk: an error if processing threw or no terminal event was seen. */
  function Conclude(s: State): State {
    if s.threw || !s.sawTerminal
    then s.(partial := s.partial.(stop := Error, error := if s.threw then FromThrow else ConnectionClosed),
            forwarded := s.forwarded + [Failed(Error, None, s.partial.usage)])
    else s
  }

  // ---- Lines -------------------------------------------------------------------------

  /** The pieces between newlines; never empty. */
  function Split(text: string): (lines: seq<string>)
    ensures |lines| > 0
  {
    if text == "" then [""]
    else
      var lines := Split(text[1..]);
      if text[0] == '\n' then [""] + lines else [[text[0]] + lines[0]] + lines[1..]
  }

  function Last(lines: seq<string>): string
    requires |lines| > 0
  {
    lines[|lines| - 1]
  }

  function Front(lines: seq<string>): seq<string>
    requires |lines| > 0
  {
    lines[..|lines| - 1]
  }

  lemma {:induction false} SplitPlain(text: string)
    requires '\n' !in text
    ensures Split(text) == [text]
  {
    if text != "" {
      SplitPlain(text[1..]);
      assert [text[0]] + text[1..] == text;
    }
  }

  lemma {:induction false} SplitHasNoNewline(text: string)
    ensures forall i :: 0 <= i < |Split(text)| ==> '\n' !in Split(text)[i]
  {
    if text != "" { SplitHasNoNewline(text[1..]); }
  }

  lemma SplitCons(c: char, text: string)
    ensures var lines := Split(text);
            Split([c] + text) == if c == '\n' then [""] + lines else [[c] + lines[0]] + lines[1..]
  {
    assert ([c] + text)[1..] == text;
  }

  /** Text that arrives later only continues the last line. */
  ghost predicate Continues(a: string, b: string) {
    Split(a + b) == Front(Split(a)) + Split(Last(Split(a)) + b)
  }

  lemma {:induction false} SplitContinues(a: string, b: string)
    ensures Continues(a, b)
  {
    hide Continues;
    if '\n' !in a {
      PlainContinues(a, b);
    } else {
      var c, rest := a[0], a[1..];
      assert a == [c] + rest;
      SplitContinues(rest, b);
      if c == '\n' {
        NewlineFirst(rest, b);
      } else {
        NewlineSplits(rest);
        CharacterFirst(c, rest, b);
      }
    }
  }

  lemma {:induction false} NewlineSplits(text: string)
    requires '\n' in text
    ensures |Split(text)| > 1
  {
    if text[0] != '\n' { NewlineSplits(text[1..]); }
  }

  lemma PlainContinues(a: string, b: string)
    requires '\n' !in a
    ensures Continues(a, b)
  {
    hide Split;
    SplitPlain(a);
    assert Front([a]) + Split(a + b) == Split(a + b);
  }

  lemma NewlineFirst(rest: string, b: string)
    requires Continues(rest, b)
    ensures Continues(['\n'] + rest, b)
  {
    hide Split, Front, Last;
    SplitCons('\n', rest);
    SplitCons('\n', rest + b);
    assert ['\n'] + rest + b == ['\n'] + (rest + b);
    EmptyLineContinues(Split(rest), Split(Last(Split(rest)) + b));
  }

  lemma CharacterFirst(c: char, rest: string, b: string)
    requires Continues(rest, b) && c != '\n' && |Split(rest)| > 1
    ensures Continues([c] + rest, b)
  {
    hide Split, Front, Last;
    SplitCons(c, rest);
    SplitCons(c, rest + b);
    assert [c] + rest + b == [c] + (rest + b);
    MoreLinesContinue(c, Split(rest), Split(Last(Split(rest)) + b));
  }

  lemma EmptyLineContinues(lines: seq<string>, more: seq<string>)
    requires |lines| > 0
    ensures Front([""] + lines) + more == [""] + (Front(lines) + more) && Last([""] + lines) == Last(lines)
  {
    assert Front([""] + lines) == [""] + Front(lines);
  }

  lemma MoreLinesContinue(c: char, lines: seq<string>, more: seq<string>)
    requires |lines| > 1 && |more| > 0
    ensures var all := [[c] + lines[0]] + lines[1..];
            var joined := Front(lines) + more;
            Last(all) == Last(lines) && [[c] + joined[0]] + joined[1..] == Front(all) + more
  {
    var all := [[c] + lines[0]] + lines[1..];
    var joined := Front(lines) + more;
    assert joined[1..] == Front(lines)[1..] + more;
    assert Front(all) == [[c] + lines[0]] + Front(lines)[1..];
  }

  lemma {:induction false} LinesConcat(codec: Codec, s: State, a: seq<string>, b: seq<string>)
    ensures ProcessLines(codec, s, a + b) == ProcessLines(codec, ProcessLines(codec, s, a), b)
  {
    if b == [] {
      assert a + b == a;
    } else {
      LinesConcat(codec, s, a, b[..|b| - 1]);
      assert (a + b)[..|a + b| - 1] == a + b[..|b| - 1];
    }
  }

  function Text(chunks: seq<string>): string {
    if chunks == [] then "" else Text(chunks[..|chunks| - 1]) + chunks[|chunks| - 1]
  }

  /** What the whole text means, however it is cut. */
  function Meaning(codec: Codec, s: State, text: string): State {
    Conclude(ProcessLines(codec, s, Split(text)))
  }

  // ---- The read loop -----------------------------------------------------------------

  /** What the read loop has processed after some chunks, and the line it is still waiting for. */
  datatype Progress = Progress(state: State, buffer: string)

  function ReadLoop(codec: Codec, s: State, chunks: seq<string>): Progress {
    if chunks == [] then Progress(s, "")
    else
      var before := ReadLoop(codec, s, chunks[..|chunks| - 1]);
      var lines := Split(before.buffer + chunks[|chunks| - 1]);
      Progress(ProcessLines(codec, before.state, Front(lines)), Last(lines))
  }

  /** The flush of the decoder's tail and of the unterminated last line, then the verdict. */
  function Flush(codec: Codec, p: Progress, tail: string): State {
    Conclude(if p.buffer + tail == "" then p.state else ProcessLine(codec, p.state, p.buffer + tail))
  }

  lemma {:induction false} LoopMeaning(codec: Codec, s: State, chunks: seq<string>)
    ensures var p := ReadLoop(codec, s, chunks);
            && p.state == ProcessLines(codec, s, Front(Split(Text(chunks))))
            && p.buffer == Last(Split(Text(chunks)))
  {
    hide Split, ProcessLine;
    if chunks == [] {
      SplitPlain("");
      assert ProcessLines(codec, s, []) == s;
    } else {
      var n := |chunks| - 1;
      LoopMeaning(codec, s, chunks[..n]);
      var seen := Text(chunks[..n]);
      var lines := Split(Last(Split(seen)) + chunks[n]);
      SplitContinues(seen, chunks[n]);
      LinesConcat(codec, s, Front(Split(seen)), Front(lines));
      assert Front(Split(seen + chunks[n])) == Front(Split(seen)) + Front(lines);
    }
  }

  /**
    For every way of cutting the text into chunks, the loop processes exactly the newline-split lines of
    the whole text, so the rebuilt message does not depend on the cuts.
   */
  lemma ChunkingDoesNotMatter(codec: Codec, s: State, chunks: seq<string>, tail: string)
    requires '\n' !in tail
    ensures Flush(codec, ReadLoop(codec, s, chunks), tail) == Meaning(codec, s, Text(chunks) + tail)
  {
    hide Split, ProcessLine, ReadLoop;
    LoopMeaning(codec, s, chunks);
    var text := Text(chunks);
    var p := ReadLoop(codec, s, chunks);
    SplitHasNoNewline(text);
    SplitContinues(text, tail);
    SplitPlain(p.buffer + tail);
    LinesConcat(codec, s, Front(Split(text)), [p.buffer + tail]);
    OneLine(codec, p.state, p.buffer + tail);
    if p.buffer + tail == "" {
      EmptyLine(codec, p.state);
    }
  }

  lemma OneLine(codec: Codec, s: State, line: string)
    ensures ProcessLines(codec, s, [line]) == ProcessLine(codec, s, line)
  {
    assert [line][..0] == [];
    assert ProcessLines(codec, s, []) == s;
  }

  lemma EmptyLine(codec: Codec, s: State)
    ensures ProcessLine(codec, s, "") == s
  {
    assert |DATA| > 0;
  }

  class Reader {
    var partial: Partial
    var sawTerminalEvent: bool
    var forwarded: seq<Event>
    var threw: bool
    var buffer: string

    constructor (usage: string)
      ensures Model() == State(Partial(map[], Stop, NoError, usage), false, [], false) && buffer == ""
    {
      partial := Partial(map[], Stop, NoError, usage);
      sawTerminalEvent, forwarded, threw, buffer := false, [], false, "";
    }

    ghost function Model(): State
      reads this
    {
      State(partial, sawTerminalEvent, forwarded, threw)
    }

    method HandleLine(codec: Codec, line: string)
      requires !threw
      modifies this`partial, this`sawTerminalEvent, this`forwarded, this`threw
      ensures Model() == ProcessLine(codec, old(Model()), line)
    {
      if !(DATA <= line) {
        return;
      }
      var payload := codec.decode(line[|DATA|..]);
      match payload
      case Blank =>
      case Malformed => threw := true;
      case Parsed(event) => HandleEvent(codec, event);
    }

    /** `processProxyEvent` on the message under reconstruction. */
    method HandleEvent(codec: Codec, event: Event)
      requires !threw
      modifies this`partial, this`sawTerminalEvent, this`forwarded, this`threw
      ensures Model() == Process(codec, old(Model()), event)
    {
      var content := partial.content;
      match event
      case Start => forwarded := forwarded + [event];
      case TextStart(i) => SetBlock(event, i, TextBlock("", None));
      case TextDelta(i, delta) =>
        if i in content && content[i].TextBlock? {
          SetBlock(event, i, content[i].(text := content[i].text + delta));
        } else {
          threw := true;
        }
      case TextEnd(i, signature) =>
        if i in content && content[i].TextBlock? {
          SetBlock(event, i, TextBlock(content[i].text, signature));
        } else {
          threw := true;
        }
      case ThinkingStart(i) => SetBlock(event, i, ThinkingBlock("", None));
      case ThinkingDelta(i, delta) =>
        if i in content && content[i].ThinkingBlock? {
          SetBlock(event, i, content[i].(thinking := content[i].thinking + delta));
        } else {
          threw := true;
        }
      case ThinkingEnd(i, signature) =>
        if i in content && content[i].ThinkingBlock? {
          SetBlock(event, i, ThinkingBlock(content[i].thinking, signature));
        } else {
          threw := true;
        }
      case CallStart(i, id, name) => SetBlock(event, i, CallBlock(ToolCall(id, name, "{}"), Some("")));
      case CallDelta(i, delta) =>
        if i in content && content[i].CallBlock? {
          var json := (if content[i].partialJson.Some? then content[i].partialJson.value else "undefined") + delta;
          SetBlock(event, i, CallBlock(content[i].call.(arguments := codec.salvage(json)), Some(json)));
        } else {
          threw := true;
        }
      case CallEnd(i, call) =>
        if i in content && content[i].CallBlock? {
          SetBlock(event, i, CallBlock(call, None));
        }
      case Done(reason, usage) =>
        partial := partial.(stop := reason, usage := usage);
        sawTerminalEvent := true;
        forwarded := forwarded + [event];
      case Failed(reason, message, usage) =>
        partial := partial.(stop := reason, error := FromServer(message), usage := usage);
        sawTerminalEvent := true;
        forwarded := forwarded + [event];
      case Unknown =>
    }

    method SetBlock(event: Event, index: nat, block: Block)
      modifies this`partial, this`forwarded
      ensures Model() == Put(old(Model()), event, index, block)
    {
      partial := partial.(content := partial.content[index := block]);
      forwarded := forwarded + [event];
    }

    /** Process lines until one throws. */
    method HandleLines(codec: Codec, lines: seq<string>)
      modifies this`partial, this`sawTerminalEvent, this`forwarded, this`threw
      ensures Model() == ProcessLines(codec, old(Model()), lines)
    {
      for i := 0 to |lines|
        modifies this`partial, this`sawTerminalEvent, this`forwarded, this`threw
        invariant Model() == ProcessLines(codec, old(Model()), lines[..i])
      {
        assert lines[..i + 1][..i] == lines[..i];
        if !threw {
          HandleLine(codec, lines[i]);
        }
      }
      assert lines[..|lines|] == lines;
    }

    /**
      The read loop and the final flush. `tail` is what the text decoder still held at the end; it never
      contains a newline. Whatever the chunks, the result is the meaning of the whole text.
     */
    method Read(codec: Codec, chunks: seq<string>, tail: string)
      requires buffer == "" && '\n' !in tail
      modifies this
      ensures Model() == Meaning(codec, old(Model()), Text(chunks) + tail)
    {
      hide Process, ProcessLine, ProcessLines, Split;
      ghost var before := Model();
      for i := 0 to |chunks|
        modifies this
        invariant Progress(Model(), buffer) == ReadLoop(codec, before, chunks[..i])
      {
        assert chunks[..i + 1][..i] == chunks[..i];
        buffer := buffer + chunks[i];
        var lines := Split(buffer);
        buffer := Last(lines);
        HandleLines(codec, Front(lines));
      }
      assert chunks[..|chunks|] == chunks;
      ChunkingDoesNotMatter(codec, before, chunks, tail);
      buffer := buffer + tail;
      if buffer != "" {
        OneLine(codec, Model(), buffer);
        HandleLines(codec, [buffer]);
      }
      if threw || !sawTerminalEvent {
        partial := partial.(stop := Error, error := if threw then FromThrow else ConnectionClosed);
        forwarded := forwarded + [Failed(Error, None, partial.usage)];
      }
    }
  }

  // ---- Blocks ------------------------------------------------------------------------

  /** A start event opens a new block at its index. */
  predicate Starts(event: Event, index: nat) {
    (event.TextStart? || event.ThinkingStart? || event.CallStart?) && event.index == index
  }

  /** The position behind the last start event at `index`, or 0. */
  function Since(events: seq<Event>, index: nat): (n: nat)
    ensures n <= |events|
    ensures n > 0 ==> Starts(events[n - 1], index)
    ensures forall i :: n <= i < |events| ==> !Starts(events[i], index)
  {
    if events == [] then 0
    else if Starts(events[|events| - 1], index) then |events|
    else Since(events[..|events| - 1], index)
  }

  /** The events since that start, which are those of the block at `index` and of others. */
  function Own(events: seq<Event>, index: nat): seq<Event> {
    events[Since(events, index)..]
  }

  /** The concatenation of the text and thinking deltas at `index`. */
  function Deltas(events: seq<Event>, index: nat): string {
    if events == [] then ""
    else
      var last := events[|events| - 1];
      Deltas(events[..|events| - 1], index)
      + (if (last.TextDelta? || last.ThinkingDelta?) && last.index == index then last.delta else "")
  }

  predicate IsCallDelta(event: Event, index: nat) {
    event.CallDelta? && event.index == index
  }

  /** The concatenation of the tool call deltas at `index`. */
  function CallDeltas(events: seq<Event>, index: nat): string {
    if events == [] then ""
    else
      var last := events[|events| - 1];
      CallDeltas(events[..|events| - 1], index) + (if IsCallDelta(last, index) then last.delta else "")
  }

  predicate HasCallDelta(events: seq<Event>, index: nat) {
    exists i :: 0 <= i < |events| && IsCallDelta(events[i], index)
  }

  predicate IsCallEnd(event: Event, index: nat) {
    event.CallEnd? && event.index == index
  }

  /** The position behind the last end of a tool call at `index`, or 0. */
  function AfterEnd(events: seq<Event>, index: nat): (n: nat)
    ensures n <= |events|
    ensures n > 0 ==> IsCallEnd(events[n - 1], index)
    ensures forall i :: n <= i < |events| ==> !IsCallEnd(events[i], index)
  {
    if events == [] then 0
    else if IsCallEnd(events[|events| - 1], index) then |events|
    else AfterEnd(events[..|events| - 1], index)
  }

  function ProcessAll(codec: Codec, s: State, events: seq<Event>): State {
    if events == [] then s else
      var before := ProcessAll(codec, s, events[..|events| - 1]);
      if before.threw then before else Process(codec, before, events[|events| - 1])
  }

  /**
    The tool call that `start` opened, after the events `own`. Up to its end it is the started call with the
    accumulated deltas; the end replaces it and drops the accumulator; a later delta begins a new
    accumulator that starts with the text "undefined".
   */
  ghost predicate CallMatches(codec: Codec, block: Block, start: Event, own: seq<Event>, index: nat)
    requires start.CallStart?
  {
    var end := AfterEnd(own, index);
    var base := if end == 0 then ToolCall(start.id, start.name, "{}") else own[end - 1].call;
    var text := (if end == 0 then "" else "undefined") + CallDeltas(own[end..], index);
    if HasCallDelta(own[end..], index) then block == CallBlock(base.(arguments := codec.salvage(text)), Some(text))
    else block == CallBlock(base, if end == 0 then Some("") else None)
  }

  /** The block at `index` is of the kind last started there and holds the deltas since then. */
  ghost predicate BlockMatches(codec: Codec, content: map<nat, Block>, events: seq<Event>, index: nat) {
    var n := Since(events, index);
    if n == 0 then index !in content
    else
      && index in content
      && match events[n - 1]
         case TextStart(_) => content[index].TextBlock? && content[index].text == Deltas(Own(events, index), index)
         case ThinkingStart(_) =>
           content[index].ThinkingBlock? && content[index].thinking == Deltas(Own(events, index), index)
         case _ => CallMatches(codec, content[index], events[n - 1], Own(events, index), index)
  }

  /** One more event either opens a new block at `index` or is one more of the block's own. */
  lemma AppendOwn(front: seq<Event>, last: Event, index: nat)
    ensures var events := front + [last];
            if Starts(last, index)
            then Since(events, index) == |events| && Own(events, index) == []
            else Since(events, index) == Since(front, index) && Own(events, index) == Own(front, index) + [last]
  {
    assert (front + [last])[..|front|] == front;
  }

  lemma AppendDelta(own: seq<Event>, last: Event, index: nat)
    ensures Deltas(own + [last], index)
         == Deltas(own, index) + if (last.TextDelta? || last.ThinkingDelta?) && last.index == index then last.delta
             else ""
  {
    assert (own + [last])[..|own|] == own;
  }

  lemma AppendCallDelta(own: seq<Event>, last: Event, index: nat)
    ensures CallDeltas(own + [last], index) == CallDeltas(own, index) + if IsCallDelta(last, index) then last.delta
        else ""
    ensures HasCallDelta(own + [last], index) <==> HasCallDelta(own, index) || IsCallDelta(last, index)
  {
    var more := own + [last];
    assert more[..|own|] == own && more[|own|] == last;
    if i :| 0 <= i < |own| && IsCallDelta(own[i], index) {
      assert more[i] == own[i];
    }
  }

  lemma AppendEnd(own: seq<Event>, last: Event, index: nat)
    ensures var more := own + [last];
            if IsCallEnd(last, index)
            then AfterEnd(more, index) == |more| && more[|more|..] == []
            else AfterEnd(more, index) == AfterEnd(own, index)
                 && more[AfterEnd(own, index)..] == own[AfterEnd(own, index)..] + [last]
  {
    assert (own + [last])[..|own|] == own;
  }

  lemma NoEvents(index: nat)
    ensures Deltas([], index) == "" && CallDeltas([], index) == "" && !HasCallDelta([], index)
        && AfterEnd([], index) == 0
  {
  }

  /** What one event does to a tool call block. */
  lemma CallStep(codec: Codec, before: State, start: Event, own: seq<Event>, last: Event, index: nat)
    requires start.CallStart? && index in before.partial.content && before.partial.content[index].CallBlock?
    requires CallMatches(codec, before.partial.content[index], start, own, index)
    requires !Starts(last, index) && !Process(codec, before, last).threw
    ensures var content := Process(codec, before, last).partial.content;
            index in content && CallMatches(codec, content[index], start, own + [last], index)
  {
    hide CallMatches;
    var block := before.partial.content[index];
    if IsCallEnd(last, index) {
      EndedCall(codec, start, own, last, index);
    } else if IsCallDelta(last, index) {
      ExtendedCall(codec, block, start, own, last, index);
    } else {
      UntouchedCall(codec, block, start, own, last, index);
    }
  }

  lemma EndedCall(codec: Codec, start: Event, own: seq<Event>, last: Event, index: nat)
    requires start.CallStart? && IsCallEnd(last, index)
    ensures CallMatches(codec, CallBlock(last.call, None), start, own + [last], index)
  {
    hide CallDeltas, HasCallDelta, AfterEnd;
    AppendEnd(own, last, index);
    NoEvents(index);
  }

  /** The accumulator that a delta extends. */
  function Accumulated(block: Block): string
    requires block.CallBlock?
  {
    if block.partialJson.Some? then block.partialJson.value else "undefined"
  }

  lemma AccumulatedText(codec: Codec, block: Block, start: Event, own: seq<Event>, index: nat)
    requires start.CallStart? && block.CallBlock? && CallMatches(codec, block, start, own, index)
    ensures var end := AfterEnd(own, index);
            Accumulated(block) == (if end == 0 then "" else "undefined") + CallDeltas(own[end..], index)
  {
    hide CallDeltas, HasCallDelta, AfterEnd;
    var end := AfterEnd(own, index);
    if !HasCallDelta(own[end..], index) {
      DeltasNeedEvents(own[end..], index);
      assert (if end == 0 then "" else "undefined") + "" == if end == 0 then "" else "undefined";
    }
  }

  lemma ExtendedCall(codec: Codec, block: Block, start: Event, own: seq<Event>, last: Event, index: nat)
    requires start.CallStart? && block.CallBlock? && CallMatches(codec, block, start, own, index)
    requires IsCallDelta(last, index)
    ensures var text := Accumulated(block) + last.delta;
            var extended := CallBlock(block.call.(arguments := codec.salvage(text)), Some(text));
            CallMatches(codec, extended, start, own + [last], index)
  {
    hide CallDeltas, HasCallDelta, AfterEnd, Accumulated;
    var end := AfterEnd(own, index);
    AccumulatedText(codec, block, start, own, index);
    AppendEnd(own, last, index);
    AppendCallDelta(own[end..], last, index);
    var head := if end == 0 then "" else "undefined";
    assert head + CallDeltas(own[end..], index) + last.delta == head + (CallDeltas(own[end..], index) + last.delta);
    assert end > 0 ==> (own + [last])[end - 1] == own[end - 1];
  }

  lemma UntouchedCall(codec: Codec, block: Block, start: Event, own: seq<Event>, last: Event, index: nat)
    requires start.CallStart? && CallMatches(codec, block, start, own, index)
    requires !IsCallEnd(last, index) && !IsCallDelta(last, index)
    ensures CallMatches(codec, block, start, own + [last], index)
  {
    hide CallDeltas, HasCallDelta, AfterEnd;
    var end := AfterEnd(own, index);
    AppendEnd(own, last, index);
    AppendCallDelta(own[end..], last, index);
    assert CallDeltas(own[end..], index) + "" == CallDeltas(own[end..], index);
    assert end > 0 ==> (own + [last])[end - 1] == own[end - 1];
  }

  lemma {:induction false} DeltasNeedEvents(events: seq<Event>, index: nat)
    requires !HasCallDelta(events, index)
    ensures CallDeltas(events, index) == ""
  {
    if events != [] {
      var n := |events| - 1;
      assert !IsCallDelta(events[n], index);
      assert forall i :: 0 <= i < n ==> events[..n][i] == events[i];
      DeltasNeedEvents(events[..n], index);
    }
  }

  lemma NewCall(codec: Codec, start: Event, index: nat)
    requires start.CallStart?
    ensures CallMatches(codec, CallBlock(ToolCall(start.id, start.name, "{}"), Some("")), start, [], index)
  {
    NoEvents(index);
  }

  /** One event changes the block at its own index only, and appends its own delta. */
  lemma BlockStep(codec: Codec, before: State, front: seq<Event>, last: Event, index: nat)
    requires BlockMatches(codec, before.partial.content, front, index)
    requires !Process(codec, before, last).threw
    ensures BlockMatches(codec, Process(codec, before, last).partial.content, front + [last], index)
  {
    hide Since, Own, Deltas, CallMatches;
    AppendOwn(front, last, index);
    AppendDelta(Own(front, index), last, index);
    if Starts(last, index) {
      NoEvents(index);
      if last.CallStart? { NewCall(codec, last, index); }
    } else {
      var n := Since(front, index);
      if n > 0 && front[n - 1].CallStart? {
        MatchIsCall(codec, before.partial.content[index], front[n - 1], Own(front, index), index);
        CallStep(codec, before, front[n - 1], Own(front, index), last, index);
      }
    }
  }

  lemma MatchIsCall(codec: Codec, block: Block, start: Event, own: seq<Event>, index: nat)
    requires start.CallStart? && CallMatches(codec, block, start, own, index)
    ensures block.CallBlock?
  {
  }

  /** How many events are processed: all, or those before the first that throws. */
  function Completed(codec: Codec, s: State, events: seq<Event>): (n: nat)
    ensures n <= |events|
  {
    if events == [] then 0
    else if ProcessAll(codec, s, events).threw then Completed(codec, s, events[..|events| - 1])
    else |events|
  }

  lemma ThrowingChangesNothing(codec: Codec, s: State, event: Event)
    requires !s.threw && Process(codec, s, event).threw
    ensures Process(codec, s, event) == s.(threw := true)
  {
  }

  lemma {:induction false} CompletedMeaning(codec: Codec, s: State, events: seq<Event>)
    requires !s.threw
    ensures var n := Completed(codec, s, events);
            && !ProcessAll(codec, s, events[..n]).threw
            && ProcessAll(codec, s, events).partial == ProcessAll(codec, s, events[..n]).partial
            && (n < |events| ==> ProcessAll(codec, s, events[..n + 1]).threw)
            && (n < |events| <==> ProcessAll(codec, s, events).threw)
  {
    hide Process;
    assert events[..|events|] == events;
    if events != [] && ProcessAll(codec, s, events).threw {
      var front := events[..|events| - 1];
      var n := Completed(codec, s, front);
      CompletedMeaning(codec, s, front);
      assert front[..n] == events[..n] && (n < |front| ==> front[..n + 1] == events[..n + 1]);
      if !ProcessAll(codec, s, front).threw {
        assert front[..n] == front;
        ThrowingChangesNothing(codec, ProcessAll(codec, s, front), events[|events| - 1]);
      }
    }
  }

  /** Over any events without an exception, every block matches. */
  lemma {:induction false} BlocksMatch(codec: Codec, s: State, events: seq<Event>, index: nat)
    requires s.partial.content == map[] && !ProcessAll(codec, s, events).threw
    ensures BlockMatches(codec, ProcessAll(codec, s, events).partial.content, events, index)
  {
    hide BlockMatches, Process;
    if events == [] {
      NothingStarted(codec, index);
    } else {
      var n := |events| - 1;
      var front := events[..n];
      assert front + [events[n]] == events;
      BlocksMatch(codec, s, front, index);
      BlockStep(codec, ProcessAll(codec, s, front), front, events[n], index);
    }
  }

  lemma NothingStarted(codec: Codec, index: nat)
    ensures BlockMatches(codec, map[], [], index)
  {
  }

  /**
    Under any interleaving of blocks, every text or thinking block equals the concatenation of its own deltas
    since its start, and every tool call is what its own deltas and ends make of it. A stream that throws
    leaves the blocks of the events before the one that threw.
   */
  lemma BlocksAreTheirDeltas(codec: Codec, s: State, events: seq<Event>, index: nat)
    requires s.partial.content == map[] && !s.threw
    ensures BlockMatches(codec, ProcessAll(codec, s, events).partial.content, events[..Completed(codec, s, events)],
        index)
  {
    hide BlockMatches, ProcessAll;
    CompletedMeaning(codec, s, events);
    BlocksMatch(codec, s, events[..Completed(codec, s, events)], index);
  }

  // ---- Tool calls --------------------------------------------------------------------

  /** A delta behind the end of its tool call is appended to the text "undefined". */
  lemma LateDeltaSaysUndefined(codec: Codec, s: State, start: Event, call: ToolCall, delta: string)
    requires !s.threw && start.CallStart?
    ensures var i := start.index;
            var r := ProcessAll(codec, s, [start, CallEnd(i, call), CallDelta(i, delta)]);
            && !r.threw && i in r.partial.content
            && r.partial.content[i] == CallBlock(call.(arguments := codec.salvage("undefined" + delta)),
                Some("undefined" + delta))
  {
    var i := start.index;
    var none: seq<Event> := [];
    assert [start][..0] == none;
    assert ProcessAll(codec, s, none) == s;
    assert ProcessAll(codec, s, [start]) == Process(codec, s, start);
    assert [start, CallEnd(i, call)][..1] == [start];
    assert [start, CallEnd(i, call), CallDelta(i, delta)][..2] == [start, CallEnd(i, call)];
  }

  lemma {:induction false} CallDeltasConcat(a: seq<Event>, b: seq<Event>, index: nat)
    ensures CallDeltas(a + b, index) == CallDeltas(a, index) + CallDeltas(b, index)
  {
    if b == [] {
      assert a + b == a;
    } else {
      CallDeltasConcat(a, b[..|b| - 1], index);
      assert (a + b)[..|a + b| - 1] == a + b[..|b| - 1];
    }
  }

  /**
    The accumulator of a tool call is the concatenation of its own deltas if and only if the call has not
    ended since its start. The one exception: the deltas before its last end spell "undefined", and there is
    a delta behind that end.
   */
  lemma AccumulatorIffOpen(codec: Codec, block: Block, start: Event, own: seq<Event>, index: nat)
    requires start.CallStart? && CallMatches(codec, block, start, own, index)
    ensures var end := AfterEnd(own, index);
            block.partialJson == Some(CallDeltas(own, index))
            <==> || (forall i :: 0 <= i < |own| ==> !IsCallEnd(own[i], index))
                 || (HasCallDelta(own[end..], index) && CallDeltas(own[..end], index) == "undefined")
  {
    hide CallDeltas, HasCallDelta;
    var end := AfterEnd(own, index);
    assert own == own[..end] + own[end..];
    CallDeltasConcat(own[..end], own[end..], index);
    if end == 0 {
      assert own[0..] == own;
      if !HasCallDelta(own, index) { DeltasNeedEvents(own, index); }
    } else {
      assert IsCallEnd(own[end - 1], index);
      SameHead("undefined", CallDeltas(own[..end], index), CallDeltas(own[end..], index));
    }
  }

  lemma SameHead(a: string, b: string, rest: string)
    ensures a + rest == b + rest <==> a == b
  {
    if a + rest == b + rest {
      assert |a + rest| == |a| + |rest| == |b| + |rest|;
      assert (a + rest)[..|a|] == a && (b + rest)[..|a|] == b;
    }
  }

  /** An ended tool call is the one that its last end carries, without accumulator, if and only if no delta follows. */
  lemma EndedCallIffNoDelta(codec: Codec, block: Block, start: Event, own: seq<Event>, index: nat)
    requires start.CallStart? && CallMatches(codec, block, start, own, index) && AfterEnd(own, index) > 0
    ensures var end := AfterEnd(own, index);
            && (block == CallBlock(own[end - 1].call, None) <==> !HasCallDelta(own[end..], index))
            && block.call.id == own[end - 1].call.id && block.call.name == own[end - 1].call.name
  {
    hide CallDeltas, HasCallDelta, AfterEnd;
  }

  /** Both for every stream, whatever else it interleaves and whether or not it throws. */
  lemma StreamedCalls(codec: Codec, s: State, events: seq<Event>, index: nat)
    requires s.partial.content == map[] && !s.threw
    requires var done := events[..Completed(codec, s, events)];
             Since(done, index) > 0 && done[Since(done, index) - 1].CallStart?
    ensures var own := Own(events[..Completed(codec, s, events)], index);
            var end := AfterEnd(own, index);
            var content := ProcessAll(codec, s, events).partial.content;
            && index in content && content[index].CallBlock?
            && (content[index].partialJson == Some(CallDeltas(own, index))
                <==> || (forall i :: 0 <= i < |own| ==> !IsCallEnd(own[i], index))
                     || (HasCallDelta(own[end..], index) && CallDeltas(own[..end], index) == "undefined"))
            && (end > 0 ==> (content[index] == CallBlock(own[end - 1].call, None)
                <==> !HasCallDelta(own[end..], index)))
  {
    hide ProcessAll, CallDeltas, HasCallDelta, AfterEnd, Since, Own, CallMatches;
    BlocksAreTheirDeltas(codec, s, events, index);
    var done := events[..Completed(codec, s, events)];
    var start, own := done[Since(done, index) - 1], Own(done, index);
    var block := ProcessAll(codec, s, events).partial.content[index];
    MatchIsCall(codec, block, start, own, index);
    AccumulatorIffOpen(codec, block, start, own, index);
    if AfterEnd(own, index) > 0 {
      EndedCallIffNoDelta(codec, block, start, own, index);
    }
  }

  // ---- From text to blocks -----------------------------------------------------------

  /** The events carried by lines, in order. */
  function EventsOf(codec: Codec, lines: seq<string>): seq<Event> {
    if lines == [] then []
    else
      var line := lines[|lines| - 1];
      EventsOf(codec, lines[..|lines| - 1])
      + (if DATA <= line && codec.decode(line[|DATA|..]).Parsed? then [codec.decode(line[|DATA|..]).event] else [])
  }

  /** How many lines are processed: all, or those before the first that throws. */
  function CompletedLines(codec: Codec, s: State, lines: seq<string>): (n: nat)
    ensures n <= |lines|
  {
    if lines == [] then 0
    else if ProcessLines(codec, s, lines).threw then CompletedLines(codec, s, lines[..|lines| - 1])
    else |lines|
  }

  lemma ThrowingLineChangesNothing(codec: Codec, s: State, line: string)
    requires !s.threw && ProcessLine(codec, s, line).threw
    ensures ProcessLine(codec, s, line) == s.(threw := true)
  {
    hide Process;
    if DATA <= line && codec.decode(line[|DATA|..]).Parsed? {
      ThrowingChangesNothing(codec, s, codec.decode(line[|DATA|..]).event);
    }
  }

  lemma {:induction false} CompletedLinesMeaning(codec: Codec, s: State, lines: seq<string>)
    requires !s.threw
    ensures var n := CompletedLines(codec, s, lines);
            && !ProcessLines(codec, s, lines[..n]).threw
            && ProcessLines(codec, s, lines).partial == ProcessLines(codec, s, lines[..n]).partial
            && (n < |lines| ==> ProcessLines(codec, s, lines[..n + 1]).threw)
            && (n < |lines| <==> ProcessLines(codec, s, lines).threw)
  {
    hide ProcessLine;
    assert lines[..|lines|] == lines;
    if lines != [] && ProcessLines(codec, s, lines).threw {
      var front := lines[..|lines| - 1];
      var n := CompletedLines(codec, s, front);
      CompletedLinesMeaning(codec, s, front);
      assert front[..n] == lines[..n] && (n < |front| ==> front[..n + 1] == lines[..n + 1]);
      if !ProcessLines(codec, s, front).threw {
        assert front[..n] == front;
        ThrowingLineChangesNothing(codec, ProcessLines(codec, s, front), lines[|lines| - 1]);
      } else {
        ThrownStays(codec, ProcessLines(codec, s, front), lines[|lines| - 1]);
      }
    }
  }

  lemma ThrownStays(codec: Codec, s: State, line: string)
    requires s.threw
    ensures ProcessLine(codec, s, line) == s
  {
  }

  lemma {:induction false} GoodLinesAreEvents(codec: Codec, s: State, lines: seq<string>)
    requires !ProcessLines(codec, s, lines).threw
    ensures ProcessLines(codec, s, lines) == ProcessAll(codec, s, EventsOf(codec, lines))
  {
    hide Process;
    if lines != [] {
      var n := |lines| - 1;
      GoodLinesAreEvents(codec, s, lines[..n]);
      var front := EventsOf(codec, lines[..n]);
      if DATA <= lines[n] && codec.decode(lines[n][|DATA|..]).Parsed? {
        var event := codec.decode(lines[n][|DATA|..]).event;
        assert EventsOf(codec, lines)[..|front|] == front;
      } else {
        assert EventsOf(codec, lines) == front;
      }
    }
  }

  /**
    Processing lines builds what processing the events before the first line that throws builds: an event
    that does not fit, or text that does not parse.
   */
  lemma LinesAreEvents(codec: Codec, s: State, lines: seq<string>)
    requires !s.threw
    ensures var n := CompletedLines(codec, s, lines);
            var r := ProcessAll(codec, s, EventsOf(codec, lines[..n]));
            && !r.threw && ProcessLines(codec, s, lines).partial == r.partial
            && (n == |lines| ==> ProcessLines(codec, s, lines) == r)
  {
    hide ProcessLines, ProcessAll, EventsOf, CompletedLines;
    CompletedLinesMeaning(codec, s, lines);
    var n := CompletedLines(codec, s, lines);
    assert n == |lines| ==> lines[..n] == lines;
    GoodLinesAreEvents(codec, s, lines[..n]);
  }

  /**
    Whatever the chunks, the blocks handed out are those of the events in the lines of the text, up to the
    first line that throws.
   */
  lemma TextRebuildsBlocks(codec: Codec, s: State, chunks: seq<string>, tail: string, index: nat)
    requires '\n' !in tail && s.partial.content == map[] && !s.threw
    ensures var lines := Split(Text(chunks) + tail);
            BlockMatches(codec, Flush(codec, ReadLoop(codec, s, chunks), tail).partial.content,
                         EventsOf(codec, lines[..CompletedLines(codec, s, lines)]), index)
  {
    hide Split, ProcessLines, ProcessAll, BlockMatches, EventsOf, ReadLoop, Flush;
    ChunkingDoesNotMatter(codec, s, chunks, tail);
    var lines := Split(Text(chunks) + tail);
    LinesAreEvents(codec, s, lines);
    BlocksMatch(codec, s, EventsOf(codec, lines[..CompletedLines(codec, s, lines)]), index);
  }
}
