/** The parser of the router's event stream (src/runtime/ndjson.ts). It is fed decoded text in
    chunks that may be cut anywhere. */
module Ndjson {
  import opened Wrappers
  import opened Text

  const MAX_LINE_BYTES: nat := 1_048_576
  const MAX_EVENTS: nat := 8_192
  const MAX_TOOL_CALLS: nat := 128
  const MAX_TOOL_ARGUMENT_BYTES: nat := 1_048_576

  /** A parsed event. The identity fields of a tool call may be missing or empty; `arguments` is
      its argument value as JSON text. */
  datatype Event = ToolCall(id: Option<string>, name: Option<string>, arguments: string) | OtherEvent(text: string)

  const DONE: Event := OtherEvent("done")

  datatype Parsed = Valid(event: Event) | Malformed(message: string)

  datatype Output = Output(events: seq<Event>, errors: seq<string>)

  datatype Signature = Signature(name: string, arguments: string)

  datatype Accounts = Accounts(eventCount: nat, argumentBytes: nat, toolCalls: map<string, Signature>)

  datatype Result<T> = Ok(value: T) | LimitError

  // ----- text

  predicate IsSpace(c: char) {
    || c == ' ' || c == '\t' || c == '\n' || c == '\r' || c == '\U{000B}' || c == '\U{000C}' || c == '\U{00A0}'
    || c == '\U{1680}' || '\U{2000}' <= c <= '\U{200A}' || c == '\U{2028}' || c == '\U{2029}'
    || c == '\U{202F}' || c == '\U{205F}' || c == '\U{3000}' || c == '\U{FEFF}'
  }

  function TrimStart(s: string): string {
    if s != "" && IsSpace(s[0]) then TrimStart(s[1..]) else s
  }

  function TrimEnd(s: string): string {
    if s != "" && IsSpace(s[|s| - 1]) then TrimEnd(s[..|s| - 1]) else s
  }

  function Trim(s: string): string {
    TrimEnd(TrimStart(s))
  }

  /** A line without the carriage return that `\r?\n` takes along. */
  function Chomp(s: string): string {
    if s != "" && s[|s| - 1] == '\r' then s[..|s| - 1] else s
  }

  /** What splitting at `\r?\n` gives: the complete lines, and the rest behind the last newline. */
  datatype Split = Split(lines: seq<string>, rest: string)

  function Extended(split: Split, c: char): Split {
    if c == '\n' then Split(split.lines + [Chomp(split.rest)], "") else Split(split.lines, split.rest + [c])
  }

  function SplitLines(text: string): Split {
    if text == "" then Split([], "")
    else
      Extended(SplitLines(text[..|text| - 1]), text[|text| - 1])
  }

  lemma {:induction false} SplitSnoc(text: string, c: char)
    ensures SplitLines(text + [c]) == Extended(SplitLines(text), c)
  {
    assert (text + [c])[..|text|] == text;
  }

  function After(lines: seq<string>, split: Split): Split {
    Split(lines + split.lines, split.rest)
  }

  lemma {:induction false} AfterExtended(lines: seq<string>, split: Split, c: char)
    ensures Extended(After(lines, split), c) == After(lines, Extended(split, c))
  {
  }

  /** Splitting goes on behind a chunk from the rest of what came before it. */
  lemma {:induction false} SplitConcat(before: string, after: string)
    ensures SplitLines(before + after) == After(SplitLines(before).lines, SplitLines(SplitLines(before).rest + after))
    decreases |after|
  {
    var split := SplitLines(before);
    if after == "" {
      assert before + after == before && split.rest + after == split.rest;
      RestHasNoNewline(before);
      NoNewlineNoLines(split.rest);
    } else {
      var front, c := after[..|after| - 1], after[|after| - 1];
      SplitConcat(before, front);
      assert before + after == before + front + [c] && split.rest + after == split.rest + front + [c];
      SplitSnoc(before + front, c);
      SplitSnoc(split.rest + front, c);
      AfterExtended(split.lines, SplitLines(split.rest + front), c);
    }
  }

  lemma {:induction false} RestHasNoNewline(text: string)
    ensures '\n' !in SplitLines(text).rest
  {
    if text != "" {
      RestHasNoNewline(text[..|text| - 1]);
    }
  }

  lemma {:induction false} NoNewlineNoLines(text: string)
    requires '\n' !in text
    ensures SplitLines(text) == Split([], text)
  {
    if text != "" {
      var front, c := text[..|text| - 1], text[|text| - 1];
      assert c in text;
      NoNewlineNoLines(front);
      SplitSnoc(front, c);
      assert front + [c] == text;
    }
  }

  // ----- accounting

  predicate Identified(event: Event) {
    event.ToolCall? && event.id.Some? && event.id.value != "" && event.name.Some? && event.name.value != ""
  }

  function SignatureOf(event: Event): Signature
    requires Identified(event)
  {
    Signature(event.name.value, event.arguments)
  }

  function Account(accounts: Accounts, event: Event): Result<Accounts> {
    if !event.ToolCall? then Ok(accounts)
    else if !Identified(event) then LimitError
    else if event.id.value in accounts.toolCalls then
      if accounts.toolCalls[event.id.value] != SignatureOf(event) then LimitError else Ok(accounts)
    else if |accounts.toolCalls| >= MAX_TOOL_CALLS then LimitError
    else
      var bytes := accounts.argumentBytes + ByteLength(event.arguments);
      if bytes > MAX_TOOL_ARGUMENT_BYTES then LimitError
      else Ok(accounts.(argumentBytes := bytes, toolCalls := accounts.toolCalls[event.id.value := SignatureOf(event)]))
  }

  function Payload(line: string): string {
    if "data:" <= line then Trim(line[5..]) else line
  }

  /** One complete line: what it does to the accounts, and what it puts out. */
  function Line(parse: string -> Parsed, accounts: Accounts, rawLine: string): Result<(Accounts, Output)> {
    var line := Trim(rawLine);
    if line == "" then Ok((accounts, Output([], [])))
    else if ByteLength(rawLine) > MAX_LINE_BYTES then LimitError
    else if accounts.eventCount + 1 > MAX_EVENTS then LimitError
    else
      var counted := accounts.(eventCount := accounts.eventCount + 1);
      if Payload(line) == "[DONE]" then Ok((counted, Output([DONE], [])))
      else
        match parse(Payload(line))
        case Malformed(message) => Ok((counted, Output([], ["Malformed router event: " + message])))
        case Valid(event) =>
          var accounted := Account(counted, event);
          if accounted.LimitError? then LimitError else Ok((accounted.value, Output([event], [])))
  }

  function Plus(left: Output, right: Output): Output {
    Output(left.events + right.events, left.errors + right.errors)
  }

  /** All lines of one drain, from the first on. */
  function Drained(parse: string -> Parsed, accounts: Accounts, lines: seq<string>): Result<(Accounts, Output)>
    decreases |lines|
  {
    if lines == [] then Ok((accounts, Output([], [])))
    else
      var first := Line(parse, accounts, lines[0]);
      if first.LimitError? then LimitError
      else
        var rest := Drained(parse, first.value.0, lines[1..]);
        if rest.LimitError? then LimitError
        else Ok((rest.value.0, Plus(first.value.1, rest.value.1)))
  }

  datatype State = State(remainder: string, accounts: Accounts)

  const FRESH: State := State("", Accounts(0, 0, map[]))

  function Pushed(parse: string -> Parsed, s: State, chunk: string): Result<(State, Output)> {
    var split := SplitLines(s.remainder + chunk);
    if ByteLength(split.rest) > MAX_LINE_BYTES then LimitError
    else
      var drained := Drained(parse, s.accounts, split.lines);
      if drained.LimitError? then LimitError
      else Ok((State(split.rest, drained.value.0), drained.value.1))
  }

  /** The last drain takes the remainder as a line, even an empty one. */
  function Finished(parse: string -> Parsed, s: State): Result<(State, Output)> {
    var split := SplitLines(s.remainder);
    var drained := Drained(parse, s.accounts, split.lines + [split.rest]);
    if drained.LimitError? then LimitError
    else Ok((State("", drained.value.0), drained.value.1))
  }

  // ----- the class

  class NdjsonParser {
    const parse: string -> Parsed
    var remainder: string
    var eventCount: nat
    var toolArgumentBytes: nat
    var toolCalls: map<string, Signature>

    function View(): State
      reads this
    {
      State(remainder, Accounts(eventCount, toolArgumentBytes, toolCalls))
    }

    constructor (parse: string -> Parsed)
      ensures this.parse == parse && View() == FRESH
    {
      this.parse := parse;
      remainder, eventCount, toolArgumentBytes, toolCalls := "", 0, 0, map[];
    }

    method Push(chunk: string) returns (result: Result<Output>)
      modifies this
      ensures var expected := Pushed(parse, old(View()), chunk);
              if expected.LimitError? then result.LimitError?
              else View() == expected.value.0 && result == Ok(expected.value.1)
    {
      remainder := remainder + chunk;
      result := Drain(false);
    }

    method Finish() returns (result: Result<Output>)
      modifies this
      ensures var expected := Finished(parse, old(View()));
              if expected.LimitError? then result.LimitError?
              else View() == expected.value.0 && result == Ok(expected.value.1)
    {
      result := Drain(true);
    }

    method Drain(flush: bool) returns (result: Result<Output>)
      modifies this
      ensures var split := SplitLines(old(remainder));
              var lines := if flush then split.lines + [split.rest] else split.lines;
              var drained := Drained(parse, old(View()).accounts, lines);
              if (!flush && ByteLength(split.rest) > MAX_LINE_BYTES) || drained.LimitError? then result.LimitError?
              else View() == State(if flush then "" else split.rest, drained.value.0) && result == Ok(drained.value.1)
    {
      var split := SplitLines(remainder);
      var lines := if flush then split.lines + [split.rest] else split.lines;
      remainder := if flush then "" else split.rest;
      if !flush && ByteLength(remainder) > MAX_LINE_BYTES {
        return LimitError;
      }
      ghost var whole := Drained(parse, View().accounts, lines);
      var output := Output([], []);
      assert lines[0..] == lines;
      if whole.Ok? {
        PlusNothing(whole.value.1);
      }
      for k := 0 to |lines|
        invariant remainder == if flush then "" else split.rest
        invariant var rest := Drained(parse, View().accounts, lines[k..]);
                  whole == if rest.LimitError? then LimitError else Ok((rest.value.0, Plus(output, rest.value.1)))
      {
        assert lines[k..][0] == lines[k] && lines[k..][1..] == lines[k + 1..];
        ghost var before := output;
        var done := DrainLine(lines[k]);
        if done.LimitError? {
          return LimitError;
        }
        output := Plus(output, done.value);
        PlusAssociates(before, done.value, Drained(parse, View().accounts, lines[k + 1..]));
      }
      assert lines[|lines|..] == [];
      PlusNothing(output);
      result := Ok(output);
    }

    method DrainLine(rawLine: string) returns (result: Result<Output>)
      modifies this`eventCount, this`toolArgumentBytes, this`toolCalls
      ensures var expected := Line(parse, old(View()).accounts, rawLine);
              if expected.LimitError? then result.LimitError?
              else View().accounts == expected.value.0 && result == Ok(expected.value.1)
    {
      var line := Trim(rawLine);
      if line == "" {
        return Ok(Output([], []));
      }
      if ByteLength(rawLine) > MAX_LINE_BYTES {
        return LimitError;
      }
      eventCount := eventCount + 1;
      if eventCount > MAX_EVENTS {
        return LimitError;
      }
      var payload := if "data:" <= line then Trim(line[5..]) else line;
      if payload == "[DONE]" {
        return Ok(Output([DONE], []));
      }
      var parsed := parse(payload);
      if parsed.Malformed? {
        return Ok(Output([], ["Malformed router event: " + parsed.message]));
      }
      var ok := AccountToolCall(parsed.event);
      if !ok {
        return LimitError;
      }
      result := Ok(Output([parsed.event], []));
    }

    method AccountToolCall(event: Event) returns (ok: bool)
      modifies this`toolArgumentBytes, this`toolCalls
      ensures var expected := Account(old(View()).accounts, event);
              ok == expected.Ok? && (ok ==> View().accounts == expected.value)
    {
      if !event.ToolCall? {
        return true;
      }
      if event.id.None? || event.id.value == "" || event.name.None? || event.name.value == "" {
        return false;
      }
      var signature := Signature(event.name.value, event.arguments);
      if event.id.value in toolCalls {
        return toolCalls[event.id.value] == signature;
      }
      if |toolCalls| >= MAX_TOOL_CALLS {
        return false;
      }
      toolArgumentBytes := toolArgumentBytes + ByteLength(event.arguments);
      if toolArgumentBytes > MAX_TOOL_ARGUMENT_BYTES {
        return false;
      }
      toolCalls := toolCalls[event.id.value := signature];
      ok := true;
    }
  }

  lemma {:induction false} PlusAssociates(output: Output, more: Output, rest: Result<(Accounts, Output)>)
    ensures rest.Ok? ==> Plus(Plus(output, more), rest.value.1) == Plus(output, Plus(more, rest.value.1))
  {
    if rest.Ok? {
      assert output.events + more.events + rest.value.1.events == output.events + (more.events + rest.value.1.events);
      assert output.errors + more.errors + rest.value.1.errors == output.errors + (more.errors + rest.value.1.errors);
    }
  }

  lemma {:induction false} PlusNothing(output: Output)
    ensures Plus(output, Output([], [])) == output && Plus(Output([], []), output) == output
  {
  }

  // ----- chunk independence

  lemma {:induction false} DrainedConcat(parse: string -> Parsed, accounts: Accounts, left: seq<string>,
                                         right: seq<string>)
    ensures var first := Drained(parse, accounts, left);
            Drained(parse, accounts, left + right)
            == if first.LimitError? then LimitError
               else
                 var second := Drained(parse, first.value.0, right);
                 if second.LimitError? then LimitError else Ok((second.value.0, Plus(first.value.1, second.value.1)))
    decreases |left|
  {
    if left == [] {
      assert left + right == right;
      var all := Drained(parse, accounts, right);
      if all.Ok? {
        PlusNothing(all.value.1);
      }
    } else {
      assert (left + right)[1..] == left[1..] + right;
      var head := Line(parse, accounts, left[0]);
      if head.Ok? {
        DrainedConcat(parse, head.value.0, left[1..], right);
        var tail := Drained(parse, head.value.0, left[1..]);
        if tail.Ok? {
          PlusAssociates(head.value.1, tail.value.1, Drained(parse, tail.value.0, right));
        }
      }
    }
  }

  function Joined(chunks: seq<string>): string {
    if chunks == [] then "" else Joined(chunks[..|chunks| - 1]) + chunks[|chunks| - 1]
  }

  /** The chunks pushed in order; the outputs put together. */
  function PushAll(parse: string -> Parsed, chunks: seq<string>): Result<(State, Output)> {
    if chunks == [] then Ok((FRESH, Output([], [])))
    else
      var before := PushAll(parse, chunks[..|chunks| - 1]);
      if before.LimitError? then LimitError
      else
        var after := Pushed(parse, before.value.0, chunks[|chunks| - 1]);
        if after.LimitError? then LimitError
        else Ok((after.value.0, Plus(before.value.1, after.value.1)))
  }

  /** A whole run: all chunks, then the end of the stream. */
  function Stream(parse: string -> Parsed, chunks: seq<string>): Result<(State, Output)> {
    var before := PushAll(parse, chunks);
    if before.LimitError? then LimitError
    else
      var after := Finished(parse, before.value.0);
      if after.LimitError? then LimitError
      else Ok((after.value.0, Plus(before.value.1, after.value.1)))
  }

  /** After some chunks the parser stands where one push of their text would have brought it,
      provided no remainder on the way was too long. */
  lemma {:induction false} PushAllExactly(parse: string -> Parsed, chunks: seq<string>)
    ensures var split := SplitLines(Joined(chunks));
            var drained := Drained(parse, FRESH.accounts, split.lines);
            PushAll(parse, chunks)
            == if drained.LimitError? || !AllFit(chunks) then LimitError
               else Ok((State(split.rest, drained.value.0), drained.value.1))
  {
    if chunks != [] {
      var front, chunk := chunks[..|chunks| - 1], chunks[|chunks| - 1];
      PushAllExactly(parse, front);
      SplitConcat(Joined(front), chunk);
      var split := SplitLines(Joined(front));
      DrainedConcat(parse, FRESH.accounts, split.lines, SplitLines(split.rest + chunk).lines);
    }
  }

  predicate AllFit(chunks: seq<string>) {
    chunks == []
    || (AllFit(chunks[..|chunks| - 1]) && ByteLength(SplitLines(Joined(chunks)).rest) <= MAX_LINE_BYTES)
  }

  /** Chunk independence, with its exact limit: a run over chunks gives what one push of the whole
      text and the end give, if and only if no chunk left an unfinished line over the limit on the
      way; otherwise it stops with a limit error, whatever the single push does. */
  lemma {:induction false} ChunkingExactly(parse: string -> Parsed, chunks: seq<string>)
    requires chunks != []
    ensures Stream(parse, chunks) == if AllFit(chunks) then Stream(parse, [Joined(chunks)]) else LimitError
  {
    var one := [Joined(chunks)];
    PushAllExactly(parse, chunks);
    PushAllExactly(parse, one);
    assert one[..0] == [] && Joined(one) == "" + Joined(chunks) == Joined(chunks);
    assert AllFit(one) <==> ByteLength(SplitLines(Joined(chunks)).rest) <= MAX_LINE_BYTES;
  }

  /** So a run that throws no limit error does not depend on the cutting: same events, same errors,
      same accounting. */
  lemma {:induction false} ChunkIndependence(parse: string -> Parsed, left: seq<string>, right: seq<string>)
    requires left != [] && right != [] && Joined(left) == Joined(right)
    requires Stream(parse, left).Ok? && Stream(parse, right).Ok?
    ensures Stream(parse, left) == Stream(parse, right)
  {
    ChunkingExactly(parse, left);
    ChunkingExactly(parse, right);
  }

  // ----- what the accounts say about the events put out

  /** The signature under which each id came first. */
  function Calls(events: seq<Event>): map<string, Signature> {
    if events == [] then map[]
    else
      var before, last := Calls(events[..|events| - 1]), events[|events| - 1];
      if Identified(last) && last.id.value !in before then before[last.id.value := SignatureOf(last)] else before
  }

  /** The argument bytes, each id counted once, where it came first. */
  function FirstBytes(events: seq<Event>): nat {
    if events == [] then 0
    else
      var front, last := events[..|events| - 1], events[|events| - 1];
      FirstBytes(front) + if Identified(last) && last.id.value !in Calls(front) then ByteLength(last.arguments) else 0
  }

  predicate Stands(calls: map<string, Signature>, event: Event) {
    event.ToolCall? ==>
      Identified(event) && event.id.value in calls && calls[event.id.value] == SignatureOf(event)
  }

  ghost predicate Balanced(accounts: Accounts, events: seq<Event>) {
    && accounts.eventCount <= MAX_EVENTS
    && accounts.toolCalls == Calls(events) && |accounts.toolCalls| <= MAX_TOOL_CALLS
    && accounts.argumentBytes == FirstBytes(events) <= MAX_TOOL_ARGUMENT_BYTES
    && forall k | 0 <= k < |events| :: Stands(accounts.toolCalls, events[k])
  }

  lemma {:induction false} CallsSnoc(events: seq<Event>, event: Event)
    ensures Calls(events + [event])
         == if Identified(event) && event.id.value !in Calls(events)
             then Calls(events)[event.id.value := SignatureOf(event)]
            else Calls(events)
    ensures FirstBytes(events + [event])
         == FirstBytes(events)
            + if Identified(event) && event.id.value !in Calls(events) then ByteLength(event.arguments) else 0
  {
    assert (events + [event])[..|events|] == events;
  }

  lemma {:induction false} StandsLonger(calls: map<string, Signature>, calls': map<string, Signature>,
                                        events: seq<Event>, event: Event)
    requires forall k | 0 <= k < |events| :: Stands(calls, events[k])
    requires forall id | id in calls :: id in calls' && calls'[id] == calls[id]
    requires Stands(calls', event)
    ensures forall k | 0 <= k < |events + [event]| :: Stands(calls', (events + [event])[k])
  {
    forall k | 0 <= k < |events|
      ensures Stands(calls', events[k])
    {
      assert Stands(calls, events[k]);
    }
  }

  lemma {:induction false} AccountBalances(accounts: Accounts, events: seq<Event>, event: Event)
    requires Balanced(accounts, events) && Account(accounts, event).Ok?
    ensures Balanced(Account(accounts, event).value, events + [event])
  {
    CallsSnoc(events, event);
    StandsLonger(accounts.toolCalls, Account(accounts, event).value.toolCalls, events, event);
  }

  lemma {:induction false} LineBalances(parse: string -> Parsed, accounts: Accounts, events: seq<Event>,
                                        rawLine: string)
    requires Balanced(accounts, events) && Line(parse, accounts, rawLine).Ok?
    ensures Balanced(Line(parse, accounts, rawLine).value.0, events + Line(parse, accounts, rawLine).value.1.events)
  {
    var line := Trim(rawLine);
    if line == "" {
      assert events + [] == events;
    } else {
      var counted := accounts.(eventCount := accounts.eventCount + 1);
      if Payload(line) == "[DONE]" {
        AccountBalances(counted, events, DONE);
      } else {
        match parse(Payload(line))
        case Malformed(_) => assert events + [] == events;
        case Valid(event) => AccountBalances(counted, events, event);
      }
    }
  }

  lemma {:induction false} DrainedStep(parse: string -> Parsed, accounts: Accounts, lines: seq<string>)
    requires lines != [] && Drained(parse, accounts, lines).Ok?
    ensures Line(parse, accounts, lines[0]).Ok?
    ensures var (accounts1, first) := Line(parse, accounts, lines[0]).value;
            var rest := Drained(parse, accounts1, lines[1..]);
            rest.Ok? && Drained(parse, accounts, lines).value == (rest.value.0, Plus(first, rest.value.1))
  {
  }

  lemma {:induction false} BalancedConcat(accounts: Accounts, a: seq<Event>, b: seq<Event>, c: seq<Event>)
    requires Balanced(accounts, a + b + c)
    ensures Balanced(accounts, a + (b + c))
  {
    assert a + b + c == a + (b + c);
  }

  lemma {:induction false} DrainedBalances(parse: string -> Parsed, accounts: Accounts, events: seq<Event>,
                                           lines: seq<string>)
    requires Balanced(accounts, events) && Drained(parse, accounts, lines).Ok?
    ensures Balanced(Drained(parse, accounts, lines).value.0, events + Drained(parse, accounts, lines).value.1.events)
    decreases |lines|
  {
    if lines == [] {
      assert events + [] == events;
    } else {
      DrainedStep(parse, accounts, lines);
      var (accounts1, first) := Line(parse, accounts, lines[0]).value;
      var rest := Drained(parse, accounts1, lines[1..]).value;
      LineBalances(parse, accounts, events, lines[0]);
      DrainedBalances(parse, accounts1, events + first.events, lines[1..]);
      BalancedConcat(rest.0, events, first.events, rest.1.events);
    }
  }

  /** In every run that throws no limit error, each tool id stands for one name and argument value,
      and the argument bytes are summed once per id and within the cap. */
  lemma {:induction false} StreamBalances(parse: string -> Parsed, chunks: seq<string>)
    requires chunks != [] && Stream(parse, chunks).Ok?
    ensures var (s, output) := Stream(parse, chunks).value; Balanced(s.accounts, output.events)
  {
    PushAllExactly(parse, chunks);
    var split := SplitLines(Joined(chunks));
    var (accounts, output) := Drained(parse, FRESH.accounts, split.lines).value;
    DrainedBalances(parse, FRESH.accounts, [], split.lines);
    assert [] + output.events == output.events;
    RestHasNoNewline(Joined(chunks));
    NoNewlineNoLines(split.rest);
    DrainedBalances(parse, accounts, output.events, [] + [split.rest]);
  }

  /** Two calls put out with one id have the same name and arguments. */
  lemma {:induction false} SameIdSameCall(parse: string -> Parsed, chunks: seq<string>, i: nat, j: nat)
    requires chunks != [] && Stream(parse, chunks).Ok?
    requires var events := Stream(parse, chunks).value.1.events;
             i < |events| && j < |events| && events[i].ToolCall? && events[j].ToolCall? && events[i].id == events[j].id
    ensures var events := Stream(parse, chunks).value.1.events; events[i] == events[j]
  {
    StreamBalances(parse, chunks);
  }
}
