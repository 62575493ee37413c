/** The transducer from an OpenRouter event stream to Ollama's newline-delimited JSON. The
    line format is the part of section 9.2.6 of the WHATWG HTML Standard that the daemon
    understands; parsing a payload as JSON is a parameter. */
module OllamaStream {
  import opened WalletTypes

  newtype Byte = x: int | 0 <= x < 256

  type Bytes = seq<Byte>

  const NEWLINE: Byte := 10
  const RETURN: Byte := 13
  const DATA: Bytes := [100, 97, 116, 97, 58]
  const SPACE: Bytes := [32]
  const DONE: Bytes := [91, 68, 79, 78, 69, 93]

  type Tools = nat

  /** What the transducer looks at in a parsed event; absent members are None. */
  datatype Event = Event(prompt: Option<nat>, completion: Option<nat>, error: Option<string>, reason: Option<string>,
                         content: Option<string>, thinking: Option<string>, tools: Option<Tools>)

  /** One emitted item. All but the first kind end the stream. */
  datatype Item =
    | Message(content: string, thinking: Option<string>, tools: Option<Tools>)
    | Done(reason: string, prompt: nat, completion: nat)
    | Failure(message: string)
    | BadEvent
    | Broken

  /** One upstream item: bytes, or an I/O error. */
  datatype Chunk = Data(bytes: Bytes) | Failed

  datatype Core = Core(prompt: nat, completion: nat, reason: string, finished: bool)

  const START := Core(0, 0, "stop", false)

  type Parser = Bytes -> Option<Event>

  function Or<T>(a: Option<T>, default: T): T {
    if a.Some? then a.value else default
  }

  function NonEmpty(s: Option<string>): Option<string> {
    if s == Some("") then None else s
  }

  // --- One line -------------------------------------------------------------------------------

  predicate Starts(prefix: Bytes, line: Bytes) {
    |prefix| <= |line| && line[..|prefix|] == prefix
  }

  function Payload(line: Bytes): Bytes
    requires Starts(DATA, line)
  {
    var p := line[|DATA|..];
    if Starts(SPACE, p) then p[1..] else p
  }

  function DoneItem(c: Core): Item {
    Done(c.reason, c.prompt, c.completion)
  }

  function Usage(c: Core, e: Event): Core {
    c.(prompt := Or(e.prompt, c.prompt), completion := Or(e.completion, c.completion))
  }

  /** What an event without an error emits, if anything. */
  function Delta(e: Event): seq<Item> {
    var content, thinking := NonEmpty(e.content), NonEmpty(e.thinking);
    if content.None? && thinking.None? && e.tools.None? then []
    else [Message(Or(content, ""), thinking, e.tools)]
  }

  /** consume_sse_line, on a stream that is not finished. */
  function Line(parse: Parser, c: Core, line: Bytes): (Core, seq<Item>) {
    if !Starts(DATA, line) || Payload(line) == [] then (c, [])
    else if Payload(line) == DONE then (c.(finished := true), [DoneItem(c)])
    else
      var e := parse(Payload(line));
      if e.None? then (c.(finished := true), [BadEvent])
      else
        var u := Usage(c, e.value);
        if e.value.error.Some? then (u.(finished := true), [Failure(e.value.error.value)])
        else (u.(reason := Or(e.value.reason, u.reason)), Delta(e.value))
  }

  // --- The buffer -----------------------------------------------------------------------------

  /** The position of the first newline, or the length. */
  function Newline(s: Bytes): (k: nat)
    ensures k <= |s| && (k < |s| ==> s[k] == NEWLINE)
    ensures forall i :: 0 <= i < k ==> s[i] != NEWLINE
  {
    if s == [] || s[0] == NEWLINE then 0 else 1 + Newline(s[1..])
  }

  function Stripped(line: Bytes): Bytes {
    if line != [] && line[|line| - 1] == RETURN then line[..|line| - 1] else line
  }

  /** consume_complete_lines: state, emitted items and what stays in the buffer. */
  function Lines(parse: Parser, c: Core, input: Bytes): (Core, seq<Item>, Bytes)
    decreases |input|
  {
    var k := Newline(input);
    if c.finished || k == |input| then (c, [], input)
    else
      var l := Line(parse, c, Stripped(input[..k]));
      var r := Lines(parse, l.0, input[k + 1..]);
      (r.0, l.1 + r.1, r.2)
  }

  /** The end of the upstream: an unterminated line is read as it stands. */
  function Finish(parse: Parser, c: Core, input: Bytes): seq<Item> {
    var l := if input == [] then (c, []) else Line(parse, c, input);
    l.1 + if l.0.finished then [] else [DoneItem(l.0)]
  }

  /** Everything an unfinished stream will still emit. */
  function Future(parse: Parser, c: Core, input: Bytes, upstream: seq<Chunk>): seq<Item>
    decreases |upstream|
  {
    if upstream == [] then Finish(parse, c, input)
    else if upstream[0].Failed? then [Broken]
    else
      var l := Lines(parse, c, input + upstream[0].bytes);
      l.1 + if l.0.finished then [] else Future(parse, l.0, l.2, upstream[1..])
  }

  lemma TailOf<T>(s: seq<T>, rest: seq<T>)
    requires s != []
    ensures s + rest != [] && (s + rest)[0] == s[0] && (s + rest)[1..] == s[1..] + rest
  {
  }

  lemma FutureBroken(parse: Parser, c: Core, input: Bytes, upstream: seq<Chunk>)
    requires upstream != [] && upstream[0].Failed?
    ensures Future(parse, c, input, upstream) == [Broken]
    ensures [] + Future(parse, c, input, upstream) == [Broken] && [Broken][1..] == []
  {
  }

  lemma FutureStep(parse: Parser, c: Core, input: Bytes, upstream: seq<Chunk>, l: (Core, seq<Item>, Bytes))
    requires upstream != [] && upstream[0].Data? && l == Lines(parse, c, input + upstream[0].bytes)
    ensures Future(parse, c, input, upstream) == l.1
            + if l.0.finished then [] else Future(parse, l.0, l.2, upstream[1..])
  {
  }

  lemma LinesEnd(parse: Parser, c: Core, input: Bytes)
    requires c.finished || Newline(input) == |input|
    ensures Lines(parse, c, input) == (c, [], input)
  {
  }

  // --- The stream object ------------------------------------------------------------------------

  class StreamState {
    const parse: Parser
    var upstream: seq<Chunk>
    var input: Bytes
    var output: seq<Item>
    var core: Core

    /** What all further pulls will return, in order. */
    function Remaining(): seq<Item>
      reads this
    {
      output + if core.finished then [] else Future(parse, core, input, upstream)
    }

    constructor (p: Parser, chunks: seq<Chunk>)
      ensures parse == p && Remaining() == Future(p, START, [], chunks)
    {
      parse, upstream, input, output, core := p, chunks, [], [], START;
    }

    method ConsumeLine(line: Bytes)
      requires !core.finished
      modifies this`output, this`core
      ensures core == Line(parse, old(core), line).0 && output == old(output) + Line(parse, old(core), line).1
    {
      if !Starts(DATA, line) { return; }
      var payload := line[|DATA|..];
      if Starts(SPACE, payload) { payload := payload[1..]; }
      if payload == [] { return; }
      if payload == DONE {
        EnqueueDone();
        return;
      }
      var chunk := parse(payload);
      if chunk.None? {
        output := output + [BadEvent];
        core := core.(finished := true);
        return;
      }
      var e := chunk.value;
      core := core.(prompt := Or(e.prompt, core.prompt), completion := Or(e.completion, core.completion));
      if e.error.Some? {
        output := output + [Failure(e.error.value)];
        core := core.(finished := true);
        return;
      }
      if e.reason.Some? { core := core.(reason := e.reason.value); }
      var content, thinking := NonEmpty(e.content), NonEmpty(e.thinking);
      if content.None? && thinking.None? && e.tools.None? { return; }
      output := output + [Message(Or(content, ""), thinking, e.tools)];
    }

    method EnqueueDone()
      modifies this`output, this`core
      ensures core == old(core).(finished := true)
      ensures output == old(output) + if old(core).finished then [] else [DoneItem(old(core))]
    {
      if core.finished { return; }
      output := output + [DoneItem(core)];
      core := core.(finished := true);
    }

    method ConsumeCompleteLines()
      modifies this`input, this`output, this`core
      ensures core == Lines(parse, old(core), old(input)).0
      ensures output == old(output) + Lines(parse, old(core), old(input)).1
      ensures input == Lines(parse, old(core), old(input)).2
    {
      ghost var all := Lines(parse, core, input);
      Assoc(output, all.1, []);
      while !core.finished
        invariant Lines(parse, core, input).0 == all.0 && Lines(parse, core, input).2 == all.2
        invariant output + Lines(parse, core, input).1 == old(output) + all.1
        decreases |input|
      {
        var newline := Newline(input);
        if newline == |input| { break; }
        var line := input[..newline];
        LinesStep(parse, core, input, newline);
        ghost var first := Line(parse, core, Stripped(line));
        Assoc(output, first.1, Lines(parse, first.0, input[newline + 1..]).1);
        input := input[newline + 1..];
        if line != [] && line[|line| - 1] == RETURN { line := line[..|line| - 1]; }
        ConsumeLine(line);
      }
      LinesEnd(parse, core, input);
      Assoc(output, [], []);
    }

    /** The body of the unfold loop: the next item, or the end of the stream. */
    method Pull() returns (item: Option<Item>)
      modifies this
      ensures old(Remaining()) == [] ==> item == None && Remaining() == []
      ensures old(Remaining()) != [] ==> item == Some(old(Remaining())[0]) && Remaining() == old(Remaining())[1..]
    {
      while true
        invariant Remaining() == old(Remaining())
        decreases if core.finished then 0 else 1, |upstream|
      {
        if output != [] {
          TailOf(output, if core.finished then [] else Future(parse, core, input, upstream));
          item := Some(output[0]);
          output := output[1..];
          return;
        }
        if core.finished { return None; }
        if upstream == [] {
          EndOfUpstream();
        } else {
          var chunk := upstream[0];
          if chunk.Failed? {
            FutureBroken(parse, core, input, upstream);
            core := core.(finished := true);
            return Some(Broken);
          }
          TakeChunk();
        }
      }
    }

    /** The upstream has ended: the buffer is read as a last line. */
    method EndOfUpstream()
      requires output == [] && !core.finished && upstream == []
      modifies this
      ensures core.finished && Remaining() == old(Remaining())
    {
      if input != [] {
        var line := input;
        input := [];
        ConsumeLine(line);
      }
      EnqueueDone();
    }

    method TakeChunk()
      requires output == [] && !core.finished && upstream != [] && upstream[0].Data?
      modifies this
      ensures upstream == old(upstream)[1..] && Remaining() == old(Remaining())
    {
      var chunk := upstream[0];
      ghost var l := Lines(parse, core, input + chunk.bytes);
      FutureStep(parse, core, input, upstream, l);
      upstream := upstream[1..];
      input := input + chunk.bytes;
      ConsumeCompleteLines();
      Assoc(l.1, [], []);
      Assoc(if core.finished then [] else Future(parse, core, input, upstream), [], []);
    }
  }

  // --- Splitting does not matter ------------------------------------------------------------------

  lemma Assoc<T>(a: seq<T>, b: seq<T>, c: seq<T>)
    ensures (a + b) + c == a + (b + c)
    ensures [] + a == a && a + [] == a
  {
  }

  lemma NewlineOfConcat(a: Bytes, b: Bytes, k: nat)
    requires k == Newline(a) < |a|
    ensures Newline(a + b) == k && (a + b)[..k] == a[..k] && (a + b)[k + 1..] == a[k + 1..] + b
  {
    assert (a + b)[k] == NEWLINE && forall i :: 0 <= i < k ==> (a + b)[i] == a[i] != NEWLINE;
  }

  /** The first complete line is consumed first. */
  lemma LinesStep(parse: Parser, c: Core, input: Bytes, k: nat)
    requires !c.finished && k == Newline(input) < |input|
    ensures var first := Line(parse, c, Stripped(input[..k]));
            var r := Lines(parse, first.0, input[k + 1..]);
            Lines(parse, c, input) == (r.0, first.1 + r.1, r.2)
  {
  }

  /** Consuming a first part and then the rest is consuming both at once. */
  lemma {:induction false} LinesSplit(parse: Parser, c: Core, a: Bytes, b: Bytes)
    ensures Lines(parse, c, a + b) == Twice(parse, c, a, b)
    decreases |a|
  {
    var k := Newline(a);
    if c.finished || k == |a| {
      Assoc(Lines(parse, c, a + b).1, [], []);
    } else {
      NewlineOfConcat(a, b, k);
      var first := Line(parse, c, Stripped(a[..k]));
      LinesStep(parse, c, a, k);
      LinesStep(parse, c, a + b, k);
      LinesSplit(parse, first.0, a[k + 1..], b);
      PrependToTwice(parse, c, first, a, k, b);
    }
  }

  function Twice(parse: Parser, c: Core, a: Bytes, b: Bytes): (Core, seq<Item>, Bytes) {
    var l := Lines(parse, c, a);
    var r := Lines(parse, l.0, l.2 + b);
    (r.0, l.1 + r.1, r.2)
  }

  lemma PrependToTwice(parse: Parser, c: Core, first: (Core, seq<Item>), a: Bytes, k: nat, b: Bytes)
    requires k < |a| && Lines(parse, c, a) ==
             (Lines(parse, first.0, a[k + 1..]).0, first.1 + Lines(parse, first.0, a[k + 1..]).1,
              Lines(parse, first.0, a[k + 1..]).2)
    ensures var t := Twice(parse, first.0, a[k + 1..], b);
            Twice(parse, c, a, b) == (t.0, first.1 + t.1, t.2)
  {
    var l := Lines(parse, first.0, a[k + 1..]);
    var r := Lines(parse, l.0, l.2 + b);
    Assoc(first.1, l.1, r.1);
  }

  function Joined(upstream: seq<Chunk>): Bytes {
    if upstream == [] then []
    else (if upstream[0].Data? then upstream[0].bytes else []) + Joined(upstream[1..])
  }

  ghost predicate ErrorFree(upstream: seq<Chunk>) {
    forall i :: 0 <= i < |upstream| ==> upstream[i].Data?
  }

  /** The items of an unsplit stream. */
  function Whole(parse: Parser, c: Core, bytes: Bytes): seq<Item> {
    var l := Lines(parse, c, bytes);
    l.1 + if l.0.finished then [] else Finish(parse, l.0, l.2)
  }

  lemma WholeOfOpen(parse: Parser, c: Core, input: Bytes)
    requires !c.finished && Newline(input) == |input|
    ensures Whole(parse, c, input) == Finish(parse, c, input)
  {
    assert [] + Finish(parse, c, input) == Finish(parse, c, input);
  }

  lemma WholeOfConcat(parse: Parser, c: Core, a: Bytes, b: Bytes)
    ensures var l := Lines(parse, c, a);
            Whole(parse, c, a + b) == l.1 + if l.0.finished then [] else Whole(parse, l.0, l.2 + b)
  {
    LinesSplit(parse, c, a, b);
    var l := Lines(parse, c, a);
    var r := Lines(parse, l.0, l.2 + b);
    Assoc(l.1, r.1, if r.0.finished then [] else Finish(parse, r.0, r.2));
  }

  lemma {:induction false} JoinedFuture(parse: Parser, c: Core, input: Bytes, upstream: seq<Chunk>)
    requires ErrorFree(upstream) && !c.finished && Newline(input) == |input|
    ensures Future(parse, c, input, upstream) == Whole(parse, c, input + Joined(upstream))
    decreases |upstream|
  {
    if upstream == [] {
      assert input + Joined(upstream) == input;
      WholeOfOpen(parse, c, input);
    } else {
      var now := input + upstream[0].bytes;
      assert now + Joined(upstream[1..]) == input + Joined(upstream);
      WholeOfConcat(parse, c, now, Joined(upstream[1..]));
      RestIsOpen(parse, c, now);
      var l := Lines(parse, c, now);
      if !l.0.finished { JoinedFuture(parse, l.0, l.2, upstream[1..]); }
    }
  }

  lemma {:induction false} RestIsOpen(parse: Parser, c: Core, input: Bytes)
    ensures var l := Lines(parse, c, input); !l.0.finished ==> Newline(l.2) == |l.2|
    decreases |input|
  {
    var k := Newline(input);
    if c.finished || k == |input| {
      LinesEnd(parse, c, input);
    } else {
      LinesStep(parse, c, input, k);
      RestIsOpen(parse, Line(parse, c, Stripped(input[..k])).0, input[k + 1..]);
    }
  }

  /** The stream as the unfold loop receives it, from any state. */
  lemma StreamIsWhole(parse: Parser, c: Core, upstream: seq<Chunk>)
    requires ErrorFree(upstream)
    ensures Future(parse, c, [], upstream) == Whole(parse, c, Joined(upstream))
  {
    assert [] + Joined(upstream) == Joined(upstream);
    if c.finished {
      if upstream != [] { FutureStep(parse, c, [], upstream, Lines(parse, c, [] + upstream[0].bytes)); }
    } else {
      JoinedFuture(parse, c, [], upstream);
    }
  }

  /** However an error-free byte stream is cut into chunks, the same items come out. */
  lemma SplittingDoesNotMatter(parse: Parser, chunks: seq<Chunk>, others: seq<Chunk>)
    requires ErrorFree(chunks) && ErrorFree(others) && Joined(chunks) == Joined(others)
    ensures Future(parse, START, [], chunks) == Future(parse, START, [], others)
  {
    StreamIsWhole(parse, START, chunks);
    StreamIsWhole(parse, START, others);
  }

  // --- Exactly one terminal item ------------------------------------------------------------------

  predicate IsTerminal(i: Item) {
    !i.Message?
  }

  /** Only messages, then one terminal item. */
  predicate EndsOnce(items: seq<Item>) {
    && items != [] && IsTerminal(items[|items| - 1])
    && forall i :: 0 <= i < |items| - 1 ==> items[i].Message?
  }

  predicate AllMessages(items: seq<Item>) {
    forall i :: 0 <= i < |items| ==> items[i].Message?
  }

  lemma LineEnds(parse: Parser, c: Core, line: Bytes)
    requires !c.finished
    ensures var l := Line(parse, c, line); if l.0.finished then EndsOnce(l.1) else AllMessages(l.1)
  {
  }

  lemma {:induction false} LinesEndOnce(parse: Parser, c: Core, input: Bytes)
    requires !c.finished
    ensures var l := Lines(parse, c, input); if l.0.finished then EndsOnce(l.1) else AllMessages(l.1)
    decreases |input|
  {
    var k := Newline(input);
    if k < |input| {
      LineEnds(parse, c, Stripped(input[..k]));
      LinesStep(parse, c, input, k);
      var first := Line(parse, c, Stripped(input[..k]));
      if !first.0.finished { LinesEndOnce(parse, first.0, input[k + 1..]); }
    }
  }

  /** Whatever arrives, and even if the upstream breaks off, the stream ends with exactly
      one terminal item, in last place. */
  lemma {:induction false} OneTerminalItem(parse: Parser, c: Core, input: Bytes, upstream: seq<Chunk>)
    requires !c.finished
    ensures EndsOnce(Future(parse, c, input, upstream))
    decreases |upstream|
  {
    if upstream == [] {
      FinishEndsOnce(parse, c, input);
    } else if upstream[0].Failed? {
      FutureBroken(parse, c, input, upstream);
    } else {
      var l := Lines(parse, c, input + upstream[0].bytes);
      LinesEndOnce(parse, c, input + upstream[0].bytes);
      FutureStep(parse, c, input, upstream, l);
      if l.0.finished {
        Assoc(l.1, [], []);
      } else {
        OneTerminalItem(parse, l.0, l.2, upstream[1..]);
        MessagesThenEnd(l.1, Future(parse, l.0, l.2, upstream[1..]));
      }
    }
  }

  lemma MessagesThenEnd(a: seq<Item>, b: seq<Item>)
    requires AllMessages(a) && EndsOnce(b)
    ensures EndsOnce(a + b)
  {
  }

  lemma FinishEndsOnce(parse: Parser, c: Core, input: Bytes)
    requires !c.finished
    ensures EndsOnce(Finish(parse, c, input))
  {
    if input != [] { LineEnds(parse, c, input); }
  }

  // --- The meaning of a stream, line by line ----------------------------------------------------------

  /** The lines of a whole stream: terminated ones without their ending, then the rest. */
  function LinesOf(bytes: Bytes): seq<Bytes>
    decreases |bytes|
  {
    var k := Newline(bytes);
    if k < |bytes| then [Stripped(bytes[..k])] + LinesOf(bytes[k + 1..])
    else if bytes == [] then [] else [bytes]
  }

  /** What a line says. */
  datatype Saying = Nothing | EndMark | Garbage | Says(event: Event)

  function Read(parse: Parser, line: Bytes): Saying {
    if !Starts(DATA, line) || Payload(line) == [] then Nothing
    else if Payload(line) == DONE then EndMark
    else
      var e := parse(Payload(line));
      if e.None? then Garbage else Says(e.value)
  }

  /** The events before the end of the conversation: the first end mark, unreadable
      event or reported error. */
  function Events(parse: Parser, lines: seq<Bytes>): seq<Event>
    decreases |lines|
  {
    if lines == [] then []
    else
      match Read(parse, lines[0])
      case Nothing => Events(parse, lines[1..])
      case Says(e) => if e.error.Some? then [] else [e] + Events(parse, lines[1..])
      case _ => []
  }

  /** How the conversation ends, with the last finish reason and the last token counts. */
  function Ending(parse: Parser, c: Core, lines: seq<Bytes>): Item
    decreases |lines|
  {
    if lines == [] then DoneItem(c)
    else
      match Read(parse, lines[0])
      case Nothing => Ending(parse, c, lines[1..])
      case EndMark => DoneItem(c)
      case Garbage => BadEvent
      case Says(e) =>
        if e.error.Some? then Failure(e.error.value)
        else Ending(parse, Heard(c, e), lines[1..])
  }

  function Deltas(events: seq<Event>): seq<Item> {
    if events == [] then [] else Delta(events[0]) + Deltas(events[1..])
  }

  /** The items of the stream: one message for each event that says something, then the ending. */
  function Meaning(parse: Parser, c: Core, lines: seq<Bytes>): seq<Item> {
    Deltas(Events(parse, lines)) + [Ending(parse, c, lines)]
  }

  lemma MeaningStep(parse: Parser, c: Core, lines: seq<Bytes>)
    requires lines != [] && !c.finished
    ensures var l := Line(parse, c, lines[0]);
            Meaning(parse, c, lines) == l.1 + if l.0.finished then [] else Meaning(parse, l.0, lines[1..])
  {
    var rest := lines[1..];
    match Read(parse, lines[0])
    case Says(e) =>
      if e.error.None? {
        assert Events(parse, lines) == [e] + Events(parse, rest);
        assert ([e] + Events(parse, rest))[1..] == Events(parse, rest);
        var next := Line(parse, c, lines[0]).0;
        Assoc(Delta(e), Deltas(Events(parse, rest)), [Ending(parse, next, rest)]);
      }
    case Nothing => Assoc(Meaning(parse, c, rest), [], []);
    case _ => Assoc([Ending(parse, c, lines)], [], []);
  }

  lemma WholeStep(parse: Parser, c: Core, bytes: Bytes, k: nat)
    requires !c.finished && k == Newline(bytes) < |bytes|
    ensures var first := Line(parse, c, Stripped(bytes[..k]));
            Whole(parse, c, bytes) == first.1 + if first.0.finished then [] else Whole(parse, first.0, bytes[k + 1..])
  {
    LinesStep(parse, c, bytes, k);
    var first := Line(parse, c, Stripped(bytes[..k]));
    var r := Lines(parse, first.0, bytes[k + 1..]);
    if first.0.finished { LinesEnd(parse, first.0, bytes[k + 1..]); }
    Assoc(first.1, r.1, if r.0.finished then [] else Finish(parse, r.0, r.2));
    Assoc(first.1, [], []);
  }

  lemma LinesOfStep(bytes: Bytes, k: nat)
    requires k == Newline(bytes) < |bytes|
    ensures LinesOf(bytes) == [Stripped(bytes[..k])] + LinesOf(bytes[k + 1..])
    ensures LinesOf(bytes)[0] == Stripped(bytes[..k]) && LinesOf(bytes)[1..] == LinesOf(bytes[k + 1..])
  {
  }

  /** One more line in front of a stream that is read right. */
  lemma MeaningGrows(parse: Parser, c: Core, bytes: Bytes, k: nat)
    requires !c.finished && k == Newline(bytes) < |bytes|
    requires var first := Line(parse, c, Stripped(bytes[..k]));
             !first.0.finished ==>
                   Whole(parse, first.0, bytes[k + 1..]) == Meaning(parse, first.0, LinesOf(bytes[k + 1..]))
    ensures Whole(parse, c, bytes) == Meaning(parse, c, LinesOf(bytes))
  {
    LinesOfStep(bytes, k);
    WholeStep(parse, c, bytes, k);
    MeaningStep(parse, c, LinesOf(bytes));
  }

  lemma {:induction false} WholeIsMeaning(parse: Parser, c: Core, bytes: Bytes)
    requires !c.finished
    ensures Whole(parse, c, bytes) == Meaning(parse, c, LinesOf(bytes))
    decreases |bytes|
  {
    var k := Newline(bytes);
    if k < |bytes| {
      var first := Line(parse, c, Stripped(bytes[..k]));
      if !first.0.finished { WholeIsMeaning(parse, first.0, bytes[k + 1..]); }
      MeaningGrows(parse, c, bytes, k);
    } else if bytes != [] {
      WholeOfOpen(parse, c, bytes);
      LastLine(parse, c, bytes);
    } else {
      WholeOfOpen(parse, c, bytes);
      MeaningOfNone(parse, c);
    }
  }

  lemma LastLine(parse: Parser, c: Core, bytes: Bytes)
    requires !c.finished && bytes != [] && Newline(bytes) == |bytes|
    ensures Finish(parse, c, bytes) == Meaning(parse, c, LinesOf(bytes))
  {
    LinesOfOpen(bytes);
    MeaningOfOne(parse, c, bytes);
  }

  lemma LinesOfOpen(bytes: Bytes)
    requires bytes != [] && Newline(bytes) == |bytes|
    ensures LinesOf(bytes) == [bytes]
  {
  }

  lemma LinesOfClosed(line: Bytes)
    requires Newline(line) == |line|
    ensures LinesOf(line + [NEWLINE]) == [Stripped(line)]
  {
    NewlineAtEnd(line);
    assert (line + [NEWLINE])[..|line|] == line && (line + [NEWLINE])[|line| + 1..] == [];
    assert LinesOf([]) == [];
    Assoc([Stripped(line)], [], []);
  }

  lemma MeaningOfOne(parse: Parser, c: Core, line: Bytes)
    requires !c.finished && line != []
    ensures Meaning(parse, c, [line]) == Finish(parse, c, line)
  {
    var l := Line(parse, c, line);
    MeaningStep(parse, c, [line]);
    assert [line][1..] == [];
    MeaningOfNone(parse, l.0);
  }

  lemma MeaningOfNone(parse: Parser, c: Core)
    ensures Meaning(parse, c, []) == [DoneItem(c)]
  {
    assert Deltas(Events(parse, [])) == [];
  }

  /** The transducer is right: on any error-free upstream it emits exactly the meaning of
      the lines of the joined bytes. */
  lemma StreamMeansItsLines(parse: Parser, chunks: seq<Chunk>)
    requires ErrorFree(chunks)
    ensures Future(parse, START, [], chunks) == Meaning(parse, START, LinesOf(Joined(chunks)))
  {
    JoinedFuture(parse, START, [], chunks);
    assert [] + Joined(chunks) == Joined(chunks);
    WholeIsMeaning(parse, START, Joined(chunks));
  }

  // --- What the lines and items say ---------------------------------------------------------------

  /** A line ends at its newline, or at the carriage return before it; what follows is read on
      its own. */
  lemma LinesMean(line: Bytes, rest: Bytes)
    requires forall i :: 0 <= i < |line| ==> line[i] != 10
    ensures LinesOf(line + [13, 10] + rest) == [line] + LinesOf(rest)
    ensures line == [] || line[|line| - 1] != 13 ==> LinesOf(line + [10] + rest) == [line] + LinesOf(rest)
  {
    NewlineAt(line, rest);
    NewlineAt(line + [13], rest);
    StrippedReturn(line + [13]);
    EndOfLine(line, rest);
  }

  lemma EndOfLine(line: Bytes, rest: Bytes)
    ensures line + [13, 10] + rest == line + [13] + [10] + rest
  {
    assert [13, 10] == [13] + [10];
  }

  lemma NewlineAt(line: Bytes, rest: Bytes)
    requires forall i :: 0 <= i < |line| ==> line[i] != 10
    ensures LinesOf(line + [10] + rest) == [Stripped(line)] + LinesOf(rest)
  {
    var all := line + [10] + rest;
    assert all[|line|] == 10 && forall i :: 0 <= i < |line| ==> all[i] == line[i];
    assert Newline(all) == |line| && all[..|line|] == line && all[|line| + 1..] == rest;
  }

  /** A line says something only behind `data:`, with or without one space. */
  lemma ReadMeans(parse: Parser, line: Bytes, p: Bytes)
    ensures !([100, 97, 116, 97, 58] <= line) ==> Read(parse, line) == Nothing
    ensures line == [100, 97, 116, 97, 58, 32] + p || (line == [100, 97, 116, 97, 58] + p && !([32] <= p)) ==>
              Read(parse, line) == if p == [] then Nothing
                                   else if p == [91, 68, 79, 78, 69, 93] then EndMark
                                   else if parse(p).None? then Garbage else Says(parse(p).value)
  {
    if line == [100, 97, 116, 97, 58, 32] + p {
      assert line[..5] == DATA && line[5..] == SPACE + p && (SPACE + p)[1..] == p;
    } else if line == [100, 97, 116, 97, 58] + p {
      assert line[..5] == DATA && line[5..] == p;
    }
  }

  /** An event is passed on as one message with its own content, thinking and tool calls, unless
      it has none of them; empty texts count as none. */
  lemma DeltaSays(e: Event)
    ensures Delta(e) == [] <==>
            (e.content.None? || e.content.value == "") && (e.thinking.None? || e.thinking.value == "") && e.tools.None?
    ensures Delta(e) != [] ==>
              && |Delta(e)| == 1 && Delta(e)[0].Message? && Delta(e)[0].tools == e.tools
              && Delta(e)[0].content == (if e.content.Some? then e.content.value else "")
              && Delta(e)[0].thinking == (if e.thinking.Some? && e.thinking.value != "" then e.thinking else None)
  {
  }

  /** The line at position k is the first that ends the conversation. */
  ghost predicate StopsAt(parse: Parser, lines: seq<Bytes>, k: nat) {
    && k < |lines| && Stops(Read(parse, lines[k]))
    && forall i :: 0 <= i < k ==> !Stops(Read(parse, lines[i]))
  }

  predicate Stops(s: Saying) {
    s.EndMark? || s.Garbage? || (s.Says? && s.event.error.Some?)
  }

  /** The last value that an event reports, or else the one before the events. */
  function LastPrompt(events: seq<Event>, before: nat): nat {
    if events == [] then before
    else if events[|events| - 1].prompt.Some? then events[|events| - 1].prompt.value
    else LastPrompt(events[..|events| - 1], before)
  }

  function LastCompletion(events: seq<Event>, before: nat): nat {
    if events == [] then before
    else if events[|events| - 1].completion.Some? then events[|events| - 1].completion.value
    else LastCompletion(events[..|events| - 1], before)
  }

  function LastReason(events: seq<Event>, before: string): string {
    if events == [] then before
    else if events[|events| - 1].reason.Some? then events[|events| - 1].reason.value
    else LastReason(events[..|events| - 1], before)
  }

  lemma {:induction false} LastOfCons(e: Event, events: seq<Event>, p: nat, c: nat, r: string)
    ensures LastPrompt([e] + events, p) == LastPrompt(events, if e.prompt.Some? then e.prompt.value else p)
    ensures LastCompletion([e] + events, c) ==
            LastCompletion(events, if e.completion.Some? then e.completion.value else c)
    ensures LastReason([e] + events, r) == LastReason(events, if e.reason.Some? then e.reason.value else r)
  {
    if events == [] {
      assert [e] + events == [e] && [e][..0] == [];
    } else {
      assert ([e] + events)[..|events|] == [e] + events[..|events| - 1];
      LastOfCons(e, events[..|events| - 1], p, c, r);
    }
  }

  lemma StopsLater(parse: Parser, lines: seq<Bytes>, k: nat)
    requires lines != [] && !Stops(Read(parse, lines[0])) && k > 0
    ensures StopsAt(parse, lines, k) <==> StopsAt(parse, lines[1..], k - 1)
  {
    if StopsAt(parse, lines[1..], k - 1) {
      forall i | 0 <= i < k ensures !Stops(Read(parse, lines[i])) {
        if i > 0 { assert lines[i] == lines[1..][i - 1]; }
      }
    }
    if StopsAt(parse, lines, k) {
      forall i | 0 <= i < k - 1 ensures !Stops(Read(parse, lines[1..][i])) { assert lines[1..][i] == lines[i + 1]; }
    }
  }

  /** The last item: an unreadable event ends in a parse error, a reported error in a failure
      with its own message; the end mark and the end of the lines in the last finish reason and
      the last token counts that an event reported, else those before. */
  lemma {:induction false} EndingSays(parse: Parser, c: Core, lines: seq<Bytes>, k: nat)
    requires StopsAt(parse, lines, k)
    ensures match Read(parse, lines[k])
            case Garbage => Ending(parse, c, lines) == BadEvent
            case Says(e) => Ending(parse, c, lines) == Failure(e.error.value)
            case _ => Ending(parse, c, lines) == LastSaid(parse, c, lines)
    decreases |lines|
  {
    if k > 0 {
      StopsLater(parse, lines, k);
      match Read(parse, lines[0])
      case Nothing => EndingSays(parse, c, lines[1..], k - 1);
      case Says(e) =>
        LastOfCons(e, Events(parse, lines[1..]), c.prompt, c.completion, c.reason);
        EndingSays(parse, Heard(c, e), lines[1..], k - 1);
    } else {
      assert !Read(parse, lines[0]).Says? ==> Events(parse, lines) == [];
    }
  }

  function LastSaid(parse: Parser, c: Core, lines: seq<Bytes>): Item {
    Done(LastReason(Events(parse, lines), c.reason), LastPrompt(Events(parse, lines), c.prompt),
         LastCompletion(Events(parse, lines), c.completion))
  }

  /** The same for lines that nothing ends. */
  lemma {:induction false} UnstoppedSays(parse: Parser, c: Core, lines: seq<Bytes>)
    requires NothingStops(parse, lines)
    ensures Ending(parse, c, lines) == LastSaid(parse, c, lines)
    decreases |lines|
  {
    if lines != [] {
      assert forall i :: 0 <= i < |lines| - 1 ==> lines[1..][i] == lines[i + 1];
      match Read(parse, lines[0])
      case Nothing => UnstoppedSays(parse, c, lines[1..]);
      case Says(e) =>
        LastOfCons(e, Events(parse, lines[1..]), c.prompt, c.completion, c.reason);
        UnstoppedSays(parse, Heard(c, e), lines[1..]);
    }
  }

  ghost predicate NothingStops(parse: Parser, lines: seq<Bytes>) {
    forall i :: 0 <= i < |lines| ==> !Stops(Read(parse, lines[i]))
  }

  /** How a new stream ends, however it is cut. Unless an unreadable event or a reported error
      ends it, the closing item carries the finish reason, prompt count and completion count
      that were reported last, or `stop` and zero. */
  lemma StreamEndsAs(parse: Parser, chunks: seq<Chunk>, k: nat)
    requires ErrorFree(chunks)
    ensures var lines, items := LinesOf(Joined(chunks)), Future(parse, START, [], chunks);
            var events := Events(parse, lines);
            && items != []
            && (NothingStops(parse, lines) || (StopsAt(parse, lines, k) && Read(parse, lines[k]).EndMark?) ==>
                items[|items| - 1]
                == Done(LastReason(events, "stop"), LastPrompt(events, 0), LastCompletion(events, 0)))
            && (StopsAt(parse, lines, k) && Read(parse, lines[k]).Garbage? ==> items[|items| - 1] == BadEvent)
            && (StopsAt(parse, lines, k) && Read(parse, lines[k]).Says? ==>
                items[|items| - 1] == Failure(Read(parse, lines[k]).event.error.value))
  {
    var lines := LinesOf(Joined(chunks));
    StreamMeansItsLines(parse, chunks);
    if NothingStops(parse, lines) { UnstoppedSays(parse, START, lines); }
    if StopsAt(parse, lines, k) { EndingSays(parse, START, lines, k); }
  }

  /** The state after an event without an error. */
  function Heard(c: Core, e: Event): Core {
    Usage(c, e).(reason := Or(e.reason, c.reason))
  }

  function Text(items: seq<Item>): string {
    if items == [] then ""
    else Text(items[..|items| - 1]) + if items[|items| - 1].Message? then items[|items| - 1].content else ""
  }

  function Said(events: seq<Event>): string {
    if events == [] then "" else Or(events[0].content, "") + Said(events[1..])
  }

  lemma {:induction false} TextOfConcat(a: seq<Item>, b: seq<Item>)
    ensures Text(a + b) == Text(a) + Text(b)
  {
    if b == [] {
      Assoc(a, [], []);
    } else {
      assert (a + b)[..|a + b| - 1] == a + b[..|b| - 1];
      TextOfConcat(a, b[..|b| - 1]);
      Assoc(Text(a), Text(b[..|b| - 1]), if b[|b| - 1].Message? then b[|b| - 1].content else "");
    }
  }

  lemma {:induction false} TextOfDeltas(events: seq<Event>)
    ensures Text(Deltas(events)) == Said(events)
  {
    if events != [] {
      TextOfConcat(Delta(events[0]), Deltas(events[1..]));
      TextOfDeltas(events[1..]);
      assert Text(Delta(events[0])) == Or(events[0].content, "");
    }
  }

  /** No text is lost, repeated or reordered: the content fields of the emitted items
      concatenate to the content deltas of the events before the end. */
  lemma ContentIsPreserved(parse: Parser, chunks: seq<Chunk>)
    requires ErrorFree(chunks)
    ensures Text(Future(parse, START, [], chunks)) == Said(Events(parse, LinesOf(Joined(chunks))))
  {
    StreamMeansItsLines(parse, chunks);
    TextOfMeaning(parse, START, LinesOf(Joined(chunks)));
  }

  lemma EndingIsTerminal(parse: Parser, c: Core, lines: seq<Bytes>)
    ensures IsTerminal(Ending(parse, c, lines))
    decreases |lines|
  {
  }

  lemma TextOfMeaning(parse: Parser, c: Core, lines: seq<Bytes>)
    ensures Text(Meaning(parse, c, lines)) == Said(Events(parse, lines))
  {
    EndingIsTerminal(parse, c, lines);
    TextOfConcat(Deltas(Events(parse, lines)), [Ending(parse, c, lines)]);
    assert Text([Ending(parse, c, lines)]) == "";
    TextOfDeltas(Events(parse, lines));
  }

  // --- The unterminated last line ----------------------------------------------------------------------

  /** The JSON parser skips a carriage return behind a value, and takes neither a lone one
      nor the end mark with one for a value. */
  ghost predicate SkipsReturn(parse: Parser) {
    && parse([RETURN]) == None && parse(DONE + [RETURN]) == None
    && forall p :: p != [] && p != DONE ==> parse(p + [RETURN]) == parse(p)
  }

  /** A line of the event stream that was cut inside its CRLF and reads differently for it:
      an empty event or the end mark, with or without the space. */
  predicate CutShort(line: Bytes) {
    line != [] && line[|line| - 1] == RETURN && EmptyOrEnd(line[..|line| - 1])
  }

  predicate EmptyOrEnd(x: Bytes) {
    x == DATA || x == DATA + SPACE || x == DATA + DONE || x == DATA + SPACE + DONE
  }

  lemma NewlineAtEnd(line: Bytes)
    requires Newline(line) == |line|
    ensures Newline(line + [NEWLINE]) == |line|
  {
    var all := line + [NEWLINE];
    assert all[|line|] == NEWLINE && forall i :: 0 <= i < |line| ==> all[i] == line[i] != NEWLINE;
  }

  lemma PayloadOfReturn(x: Bytes)
    ensures Starts(DATA, x + [RETURN]) <==> Starts(DATA, x)
    ensures Starts(DATA, x) ==> Payload(x + [RETURN]) == Payload(x) + [RETURN]
  {
    var y := x + [RETURN];
    if |x| == |DATA| - 1 { assert y[|DATA| - 1] == RETURN && DATA[|DATA| - 1] != RETURN; }
    if |x| >= |DATA| {
      assert y[..|DATA|] == x[..|DATA|] && y[|DATA|..] == x[|DATA|..] + [RETURN];
      SpaceOfReturn(x[|DATA|..]);
    }
  }

  lemma SpaceOfReturn(p: Bytes)
    ensures Starts(SPACE, p + [RETURN]) <==> Starts(SPACE, p)
    ensures Starts(SPACE, p) ==> (p + [RETURN])[1..] == p[1..] + [RETURN]
  {
    if p == [] {
      assert (p + [RETURN])[..1] == [RETURN];
    } else {
      assert (p + [RETURN])[..1] == p[..1];
    }
  }

  lemma CutShortIff(x: Bytes)
    ensures CutShort(x + [RETURN]) <==> EmptyOrEnd(x)
  {
    assert (x + [RETURN])[..|x|] == x;
  }

  lemma NotSpaced()
    ensures !Starts(SPACE, DONE) && !Starts(SPACE, []) && Starts(SPACE, SPACE) && Starts(SPACE, SPACE + DONE)
    ensures (SPACE + DONE)[1..] == DONE && SPACE[1..] == []
  {
    assert DONE[..1][0] == 91 && SPACE[0] == 32;
  }

  /** Exactly these lines have an empty payload or the end mark. */
  lemma EmptyOrEndIff(x: Bytes)
    ensures EmptyOrEnd(x) <==> Starts(DATA, x) && (Payload(x) == [] || Payload(x) == DONE)
  {
    NotSpaced();
    if EmptyOrEnd(x) {
      assert DATA[|DATA|..] == [] && (DATA + SPACE)[|DATA|..] == SPACE;
      assert (DATA + DONE)[|DATA|..] == DONE && (DATA + SPACE + DONE)[|DATA|..] == SPACE + DONE;
      assert x[..|DATA|] == DATA;
    } else if Starts(DATA, x) {
      var rest := x[|DATA|..];
      assert x == DATA + rest;
      if Starts(SPACE, rest) {
        assert rest == SPACE + rest[1..];
        Assoc(DATA, SPACE, rest[1..]);
      }
      Assoc(DATA, [], []);
      Assoc(DATA + SPACE, [], []);
    }
  }

  /** The same line with and without the carriage return. */
  lemma ReturnMatters(parse: Parser, c: Core, x: Bytes)
    requires SkipsReturn(parse) && !c.finished
    ensures Finish(parse, c, x + [RETURN]) != Finish(parse, c, x) <==> CutShort(x + [RETURN])
  {
    PayloadOfReturn(x);
    CutShortIff(x);
    EmptyOrEndIff(x);
    if Starts(DATA, x) {
      var p := Payload(x);
      if p == [] {
        assert [] + [RETURN] == [RETURN];
        assert Finish(parse, c, x + [RETURN]) == [BadEvent] && Finish(parse, c, x) == [DoneItem(c)];
      } else if p == DONE {
        assert Finish(parse, c, x + [RETURN]) == [BadEvent] && Finish(parse, c, x) == [DoneItem(c)];
      } else {
        assert (p + [RETURN])[|p|] == RETURN && DONE[|DONE| - 1] != RETURN;
        assert Line(parse, c, x + [RETURN]) == Line(parse, c, x);
      }
    }
  }

  /** A closed line reads as its stripped form would at the end of the stream. */
  lemma WholeOfClosed(parse: Parser, c: Core, line: Bytes)
    requires !c.finished && Newline(line) == |line|
    ensures Whole(parse, c, line + [NEWLINE]) == Finish(parse, c, Stripped(line))
  {
    LinesOfClosed(line);
    WholeIsMeaning(parse, c, line + [NEWLINE]);
    if Stripped(line) != [] {
      MeaningOfOne(parse, c, Stripped(line));
    } else {
      var empty: Bytes := [];
      MeaningStep(parse, c, [empty]);
      assert [empty][1..] == [] && Line(parse, c, empty) == (c, []);
      MeaningOfNone(parse, c);
    }
  }

  lemma LastNewlineMatters(parse: Parser, c: Core, line: Bytes)
    requires SkipsReturn(parse) && !c.finished && Newline(line) == |line|
    ensures Whole(parse, c, line) != Whole(parse, c, line + [NEWLINE]) <==> CutShort(line)
  {
    WholeOfOpen(parse, c, line);
    WholeOfClosed(parse, c, line);
    if line != [] && line[|line| - 1] == RETURN {
      StrippedReturn(line);
      ReturnMatters(parse, c, line[..|line| - 1]);
    }
  }

  lemma StrippedReturn(line: Bytes)
    requires line != [] && line[|line| - 1] == RETURN
    ensures Stripped(line) == line[..|line| - 1] && line == line[..|line| - 1] + [RETURN]
  {
  }

  lemma WholeNewlineIff(parse: Parser, c: Core, before: Bytes, line: Bytes)
    requires SkipsReturn(parse) && Newline(line) == |line|
    requires before == [] || before[|before| - 1] == NEWLINE
    ensures Whole(parse, c, before + line) != Whole(parse, c, before + line + [NEWLINE])
       <==> !Lines(parse, c, before).0.finished && CutShort(line)
  {
    var l := Lines(parse, c, before);
    WholeOfConcat(parse, c, before, line);
    WholeOfConcat(parse, c, before, line + [NEWLINE]);
    Assoc(before, line, [NEWLINE]);
    if !l.0.finished {
      NothingLeft(parse, c, before);
      Assoc(line, [], []);
      Assoc(line + [NEWLINE], [], []);
      LastNewlineMatters(parse, l.0, line);
      SamePrefix(l.1, Whole(parse, l.0, line), Whole(parse, l.0, line + [NEWLINE]));
    }
  }

  /** Whether the newline behind the last line of a stream is missing changes what is emitted
      if and only if the conversation has not ended before that line and the line is cut
      short: `data:` with nothing or the end mark behind it, and then a carriage return.
      This holds after any bytes before the line, from any state, and however the two byte
      streams are cut into chunks. */
  lemma MissingNewlineIff(parse: Parser, c: Core, before: Bytes, line: Bytes, cut: seq<Chunk>, closed: seq<Chunk>)
    requires SkipsReturn(parse) && Newline(line) == |line|
    requires before == [] || before[|before| - 1] == NEWLINE
    requires ErrorFree(cut) && Joined(cut) == before + line
    requires ErrorFree(closed) && Joined(closed) == before + line + [NEWLINE]
    ensures Future(parse, c, [], cut) != Future(parse, c, [], closed)
       <==> !Lines(parse, c, before).0.finished && CutShort(line)
  {
    StreamIsWhole(parse, c, cut);
    StreamIsWhole(parse, c, closed);
    WholeNewlineIff(parse, c, before, line);
  }

  lemma SamePrefix(a: seq<Item>, b: seq<Item>, c: seq<Item>)
    ensures a + b == a + c <==> b == c
  {
    if a + b == a + c { assert b == (a + b)[|a|..] && c == (a + c)[|a|..]; }
  }

  /** Bytes that end in a newline leave nothing in the buffer. */
  lemma {:induction false} NothingLeft(parse: Parser, c: Core, input: Bytes)
    requires input == [] || input[|input| - 1] == NEWLINE
    requires !Lines(parse, c, input).0.finished
    ensures Lines(parse, c, input).2 == []
    decreases |input|
  {
    var k := Newline(input);
    if c.finished || k == |input| {
      LinesEnd(parse, c, input);
    } else {
      LinesStep(parse, c, input, k);
      var rest := input[k + 1..];
      assert rest == [] || rest[|rest| - 1] == input[|input| - 1];
      NothingLeft(parse, Line(parse, c, Stripped(input[..k])).0, rest);
    }
  }

  /** Such streams: an end mark or an empty event that is cut inside its CRLF, in whatever
      chunks it arrives, ends the conversation in an error. */
  lemma CutEndMark(parse: Parser, upstream: seq<Chunk>)
    requires SkipsReturn(parse) && ErrorFree(upstream)
    requires Joined(upstream) in {DATA + SPACE + DONE + [RETURN], DATA + SPACE + [RETURN]}
    ensures Future(parse, START, [], upstream) == [BadEvent]
  {
    StreamIsWhole(parse, START, upstream);
    if Joined(upstream) == DATA + SPACE + [RETURN] {
      CutIsBad(parse, DATA + SPACE);
    } else {
      CutIsBad(parse, DATA + SPACE + DONE);
    }
  }

  lemma CutIsBad(parse: Parser, x: Bytes)
    requires SkipsReturn(parse) && CutShort(x + [RETURN])
    ensures Whole(parse, START, x + [RETURN]) == [BadEvent]
  {
    var line := x + [RETURN];
    assert forall i :: 0 <= i < |line| ==> line[i] != NEWLINE;
    assert Newline(line) == |line|;
    WholeOfOpen(parse, START, line);
    PayloadOfReturn(x);
    CutShortIff(x);
    EmptyOrEndIff(x);
    assert [] + [RETURN] == [RETURN];
  }
}
