/**
 Agent-runtime event streams (backend/agent_runtimes/{pi,miniflow,bbx,opentabs}_adapter.py) and
 the edge that forwards them (backend/agent_server.py:298-397). The contract of every adapter
 is exactly one terminal event, last. Runs are finite and not cancelled from outside.
 */
module RuntimeEvents {
  import opened Common
  import opened MiniflowRunner

  datatype Payload =
    | Nothing
    | Raw(tag: string)
    | TextOf(text: string)
    | StepArgs(attempt: int, outcome: AuditOutcome)
    | StepEntry(entry: AuditEntry)
    | Report(success: bool, audit: seq<AuditEntry>)

  /** A text event whose delta was not a string carries None. */
  datatype Event =
    | Started
    | Text(text: Option<string>)
    | ToolCall(name: string, args: Payload)
    | ToolResult(name: string, result: Payload, isError: bool)
    | StateChanged(state: Payload)
    | Done(result: Payload)
    | Error(message: string, kind: string)

  /**
   Cancelled: the adapter's own deadline passed while its last event was being forwarded, and
   cancelled the task that forwards it.
   */
  datatype End = Returned | Threw(kind: string) | Cancelled

  /** What an adapter yields, and how it ends. */
  datatype Stream = Stream(events: seq<Event>, end: End)

  predicate Terminal(e: Event) {
    e.Done? || e.Error?
  }

  ghost predicate NoTerminal(es: seq<Event>) {
    forall i :: 0 <= i < |es| ==> !Terminal(es[i])
  }

  /** Exactly one terminal event, and it is the last. */
  ghost predicate WellFormed(es: seq<Event>) {
    es != [] && Terminal(es[|es| - 1]) && NoTerminal(es[..|es| - 1])
  }

  lemma TerminalLast(es: seq<Event>, e: Event)
    requires NoTerminal(es) && Terminal(e)
    ensures WellFormed(es + [e])
  {}

  // ---------------------------------------------------------------------------
  // pi: JSON lines on a pipe
  // ---------------------------------------------------------------------------

  /** The longest line that the reader of the pipe accepts. */
  const LINE_LIMIT := 65536

  /** The assistantMessageEvent of a message: missing or empty, a value without fields, or an object. */
  datatype Update = NoUpdate | NotAnObject | OtherUpdate | TextDelta(text: Option<string>)

  datatype Native =
    | Response(failed: bool, message: string)
    | MessageUpdate(update: Update)
    | ToolStart(tool: string)
    | ToolEnd(tool: string, failed: bool)
    | Unmapped

  /** ParserFails is json.loads raising something else than JSONDecodeError (nesting too deep, a number too long). */
  datatype Content = Blank | NotJson | ParserFails(kind: string) | NotObject | Object(native: Native)

  /** A line of pi's output; its length does not count the newline. */
  datatype Line = Line(length: nat, content: Content)

  /**
   What happens before `started`. NotSpawned carries the kind of an operating system error,
   SetupRaises that of any other exception.
   */
  datatype Setup = ConfigRejected | NotSpawned(kind: string) | SetupRaises(kind: string) | Spawned

  /**
   Whether the deadline passed after the lines read: while the event of the last of them was
   being forwarded, if it has one, or else in the reading, and what stopping the process raised then.
   */
  datatype Deadline = InTime | Passed(forwarding: bool, raised: Option<string>)

  /**
   `opening` is the exception of anything between `started` and the first read, other than a
   closed pipe: writing the request, or a timeout that is no finite number of seconds. `lines`
   are those read before the output ended or the deadline passed.
   */
  datatype PiRun = PiRun(
    setup: Setup, opening: Option<string>, lines: seq<Line>, deadline: Deadline, exitCode: int
  )

  /** What readline, json.loads and the translation raise on a line. */
  function RaisedBy(line: Line): Option<string> {
    if line.length > LINE_LIMIT then Some("ValueError")
    else
      match line.content
      case ParserFails(kind) => Some(kind)
      case NotObject => Some("AttributeError")
      case Object(MessageUpdate(NotAnObject)) => Some("AttributeError")
      case _ => None
  }

  /** A failed response ends the run. */
  function FailureIn(line: Line): Option<string> {
    match line.content
    case Object(Response(true, message)) => Some(message)
    case _ => None
  }

  function TextsOf(line: Line): seq<Option<string>> {
    match line.content
    case Object(MessageUpdate(TextDelta(text))) => [text]
    case _ => []
  }

  function Translate(line: Line): seq<Event> {
    match line.content
    case Object(MessageUpdate(TextDelta(text))) => [Text(text)]
    case Object(ToolStart(tool)) => [ToolCall(tool, Nothing)]
    case Object(ToolEnd(tool, failed)) => [ToolResult(tool, Nothing, failed)]
    case _ => []
  }

  function TranslateAll(lines: seq<Line>): seq<Event> {
    if lines == [] then [] else TranslateAll(lines[..|lines| - 1]) + Translate(lines[|lines| - 1])
  }

  /** Which lines raise, and what: one over 65536 bytes a ValueError, whatever is in it. */
  lemma RaisesIff(line: Line)
    ensures var fits := line.length <= 65536;
      && (RaisedBy(line).None? <==>
            && fits && !line.content.ParserFails? && !line.content.NotObject?
            && line.content != Object(MessageUpdate(NotAnObject)))
      && (!fits ==> RaisedBy(line) == Some("ValueError"))
      && (fits && line.content.ParserFails? ==> RaisedBy(line) == Some(line.content.kind))
      && (fits && RaisedBy(line).Some? && !line.content.ParserFails? ==> RaisedBy(line) == Some("AttributeError"))
  {}

  /** A line ends the run as failed exactly if it is a response that says so; a line has at most one event. */
  lemma LineMeans(line: Line, message: string)
    ensures FailureIn(line) == Some(message) <==> line.content == Object(Response(true, message))
    ensures Translate(line) != [] <==>
      line.content.Object? && (line.content.native.ToolStart? || line.content.native.ToolEnd?
        || (line.content.native.MessageUpdate? && line.content.native.update.TextDelta?))
    ensures |Translate(line)| <= 1
  {}

  predicate Stops(line: Line) {
    RaisedBy(line).Some? || FailureIn(line).Some?
  }

  /** The first line that ends the reading, the length if none does. */
  function FirstStop(lines: seq<Line>): (n: nat)
    ensures n <= |lines| && (n < |lines| ==> Stops(lines[n]))
    ensures forall i :: 0 <= i < n ==> !Stops(lines[i])
  {
    if lines == [] || Stops(lines[0]) then 0 else 1 + FirstStop(lines[1..])
  }

  lemma FirstStopUnique(lines: seq<Line>, n: nat)
    requires n <= |lines| && (n < |lines| ==> Stops(lines[n])) && forall i :: 0 <= i < n ==> !Stops(lines[i])
    ensures FirstStop(lines) == n
  {}

  function TextsIn(es: seq<Event>): seq<Option<string>> {
    if es == [] then []
    else TextsIn(es[..|es| - 1]) + if es[|es| - 1].Text? then [es[|es| - 1].text] else []
  }

  /** "".join: None if an item is not a string. */
  function Join(texts: seq<Option<string>>): Option<string> {
    if texts == [] then Some("")
    else
      var front, last := Join(texts[..|texts| - 1]), texts[|texts| - 1];
      if front.None? || last.None? then None else Some(front.value + last.value)
  }

  /** The deadline passes while the event of the last line is being forwarded. */
  predicate CutInForwarding(run: PiRun) {
    run.deadline.Passed? && run.deadline.forwarding && run.lines != [] && Translate(run.lines[|run.lines| - 1]) != []
  }

  lemma CutInForwardingIff(run: PiRun)
    ensures CutInForwarding(run) <==>
      && run.deadline.Passed? && run.deadline.forwarding && |run.lines| > 0
      && |Translate(run.lines[|run.lines| - 1])| == 1
  {
    if run.lines != [] {
      LineMeans(run.lines[|run.lines| - 1], "");
    }
  }

  /** How a run is closed whose lines were all read without a stop. */
  function PiClose(run: PiRun, events: seq<Event>): Stream {
    if CutInForwarding(run) then Stream(events, Cancelled)
    else if run.deadline.Passed? then
      if run.deadline.raised.Some? then Stream(events, Threw(run.deadline.raised.value))
      else Stream(events + [Error("timed out", "TimeoutError")], Returned)
    else if run.exitCode != 0 then Stream(events + [Error("exited", "ProcessExitError")], Returned)
    else
      var text := Join(TextsIn(events));
      if text.None? then Stream(events, Threw("TypeError"))
      else Stream(events + [Done(TextOf(text.value))], Returned)
  }

  function PiStream(run: PiRun): Stream {
    match run.setup
    case ConfigRejected => Stream([Error("config", "ConfigError")], Returned)
    case NotSpawned(kind) => Stream([Error("spawn", kind)], Returned)
    case SetupRaises(kind) => Stream([], Threw(kind))
    case Spawned =>
      if run.opening.Some? then Stream([Started], Threw(run.opening.value))
      else
        var n := FirstStop(run.lines);
        var events := [Started] + TranslateAll(run.lines[..n]);
        if n == |run.lines| then PiClose(run, events)
        else if RaisedBy(run.lines[n]).Some? then Stream(events, Threw(RaisedBy(run.lines[n]).value))
        else Stream(events + [Error(FailureIn(run.lines[n]).value, "RuntimeInvocationError")], Returned)
  }

  lemma TextsAppend(es: seq<Event>, more: seq<Event>)
    requires |more| <= 1
    ensures TextsIn(es + more) == TextsIn(es) + TextsIn(more)
  {
    if |more| == 1 {
      assert (es + more)[..|es|] == es;
      assert more[..0] == [];
    } else {
      assert es + more == es;
    }
  }

  function DeltaTexts(lines: seq<Line>): seq<Option<string>> {
    if lines == [] then []
    else
      var last := lines[|lines| - 1];
      DeltaTexts(lines[..|lines| - 1]) + TextsOf(last)
  }

  lemma TextOfLine(line: Line)
    ensures TextsIn(Translate(line)) == TextsOf(line)
  {}

  /** The texts collected while reading are those of the events yielded. */
  lemma {:induction false} DeltasAreTheTexts(lines: seq<Line>)
    ensures TextsIn(TranslateAll(lines)) == DeltaTexts(lines)
    ensures TextsIn([Started] + TranslateAll(lines)) == DeltaTexts(lines)
  {
    if lines == [] {
      assert [Started] + TranslateAll(lines) == [Started];
      assert [Started][..0] == [];
    } else {
      var front, last := TranslateAll(lines[..|lines| - 1]), lines[|lines| - 1];
      DeltasAreTheTexts(lines[..|lines| - 1]);
      ConcatAssociative([Started], front, Translate(last));
      TextsAppend([Started] + front, Translate(last));
      TextsAppend(front, Translate(last));
      TextOfLine(last);
    }
  }

  /** The reading loop: the events yielded, the texts collected, and where it stopped. */
  method PiRead(lines: seq<Line>) returns (events: seq<Event>, texts: seq<Option<string>>, stop: nat)
    ensures stop == FirstStop(lines)
    ensures events == [Started] + TranslateAll(lines[..stop])
    ensures texts == DeltaTexts(lines[..stop])
  {
    var translated: seq<Event> := [];
    texts, stop := [], 0;
    while stop < |lines| && !Stops(lines[stop])
      invariant stop <= |lines| && forall j :: 0 <= j < stop ==> !Stops(lines[j])
      invariant translated == TranslateAll(lines[..stop])
      invariant texts == DeltaTexts(lines[..stop])
    {
      var line := lines[stop];
      assert lines[..stop + 1][..stop] == lines[..stop];
      texts := texts + TextsOf(line);
      translated := translated + Translate(line);
      stop := stop + 1;
    }
    FirstStopUnique(lines, stop);
    events := [Started] + translated;
  }

  /** PiAdapter.invoke */
  method PiInvoke(run: PiRun) returns (s: Stream)
    ensures s == PiStream(run)
  {
    match run.setup {
      case ConfigRejected => return Stream([Error("config", "ConfigError")], Returned);
      case NotSpawned(kind) => return Stream([Error("spawn", kind)], Returned);
      case SetupRaises(kind) => return Stream([], Threw(kind));
      case Spawned =>
    }
    if run.opening.Some? {
      return Stream([Started], Threw(run.opening.value));
    }
    var events, accumulated, stop := PiRead(run.lines);
    DeltasAreTheTexts(run.lines[..stop]);
    if stop < |run.lines| {
      var raised := RaisedBy(run.lines[stop]);
      if raised.Some? {
        return Stream(events, Threw(raised.value));
      }
      return Stream(events + [Error(FailureIn(run.lines[stop]).value, "RuntimeInvocationError")], Returned);
    }
    if run.deadline.Passed? {
      if CutInForwarding(run) {
        return Stream(events, Cancelled);
      }
      if run.deadline.raised.Some? {
        return Stream(events, Threw(run.deadline.raised.value));
      }
      return Stream(events + [Error("timed out", "TimeoutError")], Returned);
    }
    if run.exitCode != 0 {
      return Stream(events + [Error("exited", "ProcessExitError")], Returned);
    }
    var text := Join(accumulated);
    if text.None? {
      return Stream(events, Threw("TypeError"));
    }
    return Stream(events + [Done(TextOf(text.value))], Returned);
  }

  lemma {:induction false} TranslationsAreNotTerminal(lines: seq<Line>)
    ensures NoTerminal(TranslateAll(lines))
  {
    if lines != [] {
      TranslationsAreNotTerminal(lines[..|lines| - 1]);
    }
  }

  /** The line raises nothing and its text, if any, is a string. */
  predicate Harmless(line: Line) {
    RaisedBy(line).None? && None !in TextsOf(line)
  }

  /**
   The adapter gets through. Nothing may raise before the first read, and no line before a
   failed response ends the run; without such a response the deadline may pass in the reading
   only, where stopping the process must not raise, and a run that exits well must have only
   strings to join.
   */
  ghost predicate PiReadable(run: PiRun) {
    match run.setup
    case SetupRaises(_) => false
    case Spawned =>
      var n := FirstStop(run.lines);
      && run.opening.None?
      && (n < |run.lines| ==> RaisedBy(run.lines[n]).None?)
      && (n == |run.lines| && run.deadline.Passed? ==> !CutInForwarding(run) && run.deadline.raised.None?)
      && (n == |run.lines| && run.deadline.InTime? && run.exitCode == 0 ==> forall line <- run.lines :: Harmless(line))
    case _ => true
  }

  /** Either the stream is closed by one terminal event, or it was broken off and has none. */
  ghost predicate ClosedOrBroken(s: Stream) {
    if s.end.Returned? then WellFormed(s.events) else NoTerminal(s.events)
  }

  lemma JoinAppend(texts: seq<Option<string>>, text: Option<string>)
    ensures Join(texts + [text]).Some? <==> Join(texts).Some? && text.Some?
  {
    assert (texts + [text])[..|texts|] == texts;
  }

  lemma {:induction false} JoinsIff(lines: seq<Line>)
    ensures Join(DeltaTexts(lines)).Some? <==> forall line <- lines :: None !in TextsOf(line)
  {
    if lines != [] {
      var front, last := lines[..|lines| - 1], lines[|lines| - 1];
      JoinsIff(front);
      assert lines == front + [last];
      assert forall line :: line in lines <==> line in front || line == last;
      if TextsOf(last) == [] {
        assert DeltaTexts(lines) == DeltaTexts(front);
      } else {
        JoinAppend(DeltaTexts(front), TextsOf(last)[0]);
        assert TextsOf(last) == [TextsOf(last)[0]];
      }
    }
  }

  lemma PiCloseContract(run: PiRun, events: seq<Event>)
    requires NoTerminal(events)
    ensures ClosedOrBroken(PiClose(run, events))
  {}

  /** A run whose lines were all read. */
  lemma PiReadThrough(run: PiRun)
    requires run.setup.Spawned? && run.opening.None? && FirstStop(run.lines) == |run.lines|
    ensures PiStream(run) == PiClose(run, [Started] + TranslateAll(run.lines))
    ensures Join(TextsIn([Started] + TranslateAll(run.lines))).Some? <==> forall line <- run.lines :: Harmless(line)
  {
    assert run.lines[..|run.lines|] == run.lines;
    DeltasAreTheTexts(run.lines);
    JoinsIff(run.lines);
    forall line <- run.lines
      ensures RaisedBy(line).None?
    {
      var i :| 0 <= i < |run.lines| && run.lines[i] == line;
      assert !Stops(run.lines[i]);
    }
  }

  lemma PiEventsOpen(lines: seq<Line>)
    ensures NoTerminal([Started] + TranslateAll(lines))
  {
    TranslationsAreNotTerminal(lines);
  }

  /**
   "Exactly one terminal event, last" is not true of every finite pi run: it holds exactly
   when the run is readable. Otherwise the adapter raises, or is cancelled by its own deadline,
   without any terminal event.
   */
  lemma PiContractIff(run: PiRun)
    ensures PiStream(run).end.Returned? <==> PiReadable(run)
    ensures ClosedOrBroken(PiStream(run))
  {
    if run.setup.Spawned? && run.opening.None? {
      var n := FirstStop(run.lines);
      var events := [Started] + TranslateAll(run.lines[..n]);
      PiEventsOpen(run.lines[..n]);
      if n == |run.lines| {
        assert run.lines[..n] == run.lines;
        PiReadThrough(run);
        PiCloseContract(run, events);
      } else if RaisedBy(run.lines[n]).None? {
        TerminalLast(events, Error(FailureIn(run.lines[n]).value, "RuntimeInvocationError"));
      }
    }
  }

  /**
   The first line that readline, the parser or the translation raises on makes the adapter
   raise the same exception, after the events of the lines before it and without closing.
   */
  lemma PiUnreadableLine(run: PiRun, n: nat)
    requires run.setup.Spawned? && run.opening.None? && n < |run.lines| && RaisedBy(run.lines[n]).Some?
    requires forall i :: 0 <= i < n ==> !Stops(run.lines[i])
    ensures PiStream(run) == Stream([Started] + TranslateAll(run.lines[..n]), Threw(RaisedBy(run.lines[n]).value))
    ensures !WellFormed(PiStream(run).events)
  {
    FirstStopUnique(run.lines, n);
    PiContractIff(run);
  }

  /** How a run ends that gets through: by the first failed response, the deadline, the exit code, or well. */
  lemma PiEndsWith(run: PiRun)
    requires PiReadable(run)
    ensures var es := PiStream(run).events;
      var last := es[|es| - 1];
      var readThrough := run.setup.Spawned? && FirstStop(run.lines) == |run.lines|;
      && (last.Done? <==> readThrough && run.deadline.InTime? && run.exitCode == 0)
      && (run.setup.ConfigRejected? ==> last.Error? && last.kind == "ConfigError")
      && (run.setup.NotSpawned? ==> last.Error? && last.kind == run.setup.kind)
      && (run.setup.Spawned? && !readThrough ==>
            last == Error(FailureIn(run.lines[FirstStop(run.lines)]).value, "RuntimeInvocationError"))
      && (readThrough && run.deadline.Passed? ==> last.Error? && last.kind == "TimeoutError")
      && (readThrough && run.deadline.InTime? && run.exitCode != 0 ==>
            last.Error? && last.kind == "ProcessExitError")
  {
    PiContractIff(run);
  }

  lemma DoneShape(run: PiRun, text: string)
    requires PiStream(run).events != [] && PiStream(run).events[|PiStream(run).events| - 1] == Done(TextOf(text))
    ensures var before := [Started] + TranslateAll(run.lines[..FirstStop(run.lines)]);
      PiStream(run).events == before + [Done(TextOf(text))] && Join(TextsIn(before)) == Some(text)
  {
    PiEventsOpen(run.lines[..FirstStop(run.lines)]);
    PiContractIff(run);
  }

  /** The text of `done` is the concatenation of the run's text events. */
  lemma PiDoneIsTheText(run: PiRun, text: string)
    requires PiStream(run).events != [] && PiStream(run).events[|PiStream(run).events| - 1] == Done(TextOf(text))
    ensures Join(TextsIn(PiStream(run).events)) == Some(text)
  {
    DoneShape(run, text);
    var before := [Started] + TranslateAll(run.lines[..FirstStop(run.lines)]);
    TextsAppend(before, [Done(TextOf(text))]);
    assert [Done(TextOf(text))][..0] == [];
    assert TextsIn([Done(TextOf(text))]) == [];
    assert TextsIn(before) + [] == TextsIn(before);
  }

  // ---------------------------------------------------------------------------
  // MiniFlow: audit entries to event pairs
  // ---------------------------------------------------------------------------

  datatype RunEnd = Finished(success: bool) | Failed(message: string, kind: string)

  function Pair(e: AuditEntry): seq<Event> {
    [ToolCall(e.step, StepArgs(e.attempt, e.outcome)), ToolResult(e.step, StepEntry(e), e.outcome != AuditSuccess)]
  }

  function Pairs(entries: seq<AuditEntry>): seq<Event> {
    if entries == [] then [] else Pairs(entries[..|entries| - 1]) + Pair(entries[|entries| - 1])
  }

  function Flatten(batches: seq<seq<AuditEntry>>): seq<AuditEntry> {
    if batches == [] then [] else Flatten(batches[..|batches| - 1]) + batches[|batches| - 1]
  }

  /** Building the request raises nothing, a TypeError or ValueError, or something else. */
  datatype Request = Built | Malformed(kind: string) | Unbuildable(kind: string)

  function MiniflowEvents(entries: seq<AuditEntry>, end: RunEnd): seq<Event> {
    match end
    case Failed(message, kind) => [Started] + Pairs(entries) + [Error(message, kind)]
    case Finished(success) =>
      var report := Report(success, entries);
      var last := if success then Done(report) else Error("failed", "MiniFlowRunFailed");
      [Started] + Pairs(entries) + [StateChanged(report)] + [last]
  }

  function MiniflowStream(configFits: bool, request: Request, entries: seq<AuditEntry>, end: RunEnd): Stream {
    if !configFits then Stream([Error("config", "ValueError")], Returned)
    else
      match request
      case Malformed(kind) => Stream([Error("request", kind)], Returned)
      case Unbuildable(kind) => Stream([], Threw(kind))
      case Built => Stream(MiniflowEvents(entries, end), Returned)
  }

  /**
   MiniFlowAdapter.invoke: the run's thread hands over its audit entries in batches of any
   size while the adapter polls its queue; the batching leaves no trace in the events.
   */
  method MiniflowInvoke(configFits: bool, request: Request, batches: seq<seq<AuditEntry>>, end: RunEnd)
    returns (s: Stream)
    ensures s == MiniflowStream(configFits, request, Flatten(batches), end)
  {
    if !configFits {
      return Stream([Error("config", "ValueError")], Returned);
    }
    match request {
      case Malformed(kind) => return Stream([Error("request", kind)], Returned);
      case Unbuildable(kind) => return Stream([], Threw(kind));
      case Built =>
    }
    var events := [Started];
    var queue: seq<AuditEntry>, audit: seq<AuditEntry>, arrived := [], [], 0;
    while arrived < |batches| || queue != []
      invariant arrived <= |batches|
      invariant audit + queue == Flatten(batches[..arrived])
      invariant events == [Started] + Pairs(audit)
      decreases |batches| - arrived, |queue|
    {
      if queue == [] {
        assert batches[..arrived + 1][..arrived] == batches[..arrived];
        assert audit + queue == audit;
        queue := batches[arrived];
        arrived := arrived + 1;
        continue;
      }
      var entry := queue[0];
      assert audit + queue == (audit + [entry]) + queue[1..];
      assert (audit + [entry])[..|audit|] == audit;
      ConcatAssociative([Started], Pairs(audit), Pair(entry));
      audit, queue := audit + [entry], queue[1..];
      events := events + Pair(entry);
    }
    assert batches[..|batches|] == batches;
    assert audit + queue == audit;
    if end.Failed? {
      return Stream(events + [Error(end.message, end.kind)], Returned);
    }
    events := events + [StateChanged(Report(end.success, audit))];
    var last := if end.success then Done(Report(end.success, audit)) else Error("failed", "MiniFlowRunFailed");
    return Stream(events + [last], Returned);
  }

  lemma {:induction false} PairsAt(entries: seq<AuditEntry>)
    ensures |Pairs(entries)| == 2 * |entries|
    ensures forall i :: 0 <= i < |entries| ==>
      Pairs(entries)[2 * i] == Pair(entries[i])[0] && Pairs(entries)[2 * i + 1] == Pair(entries[i])[1]
    ensures NoTerminal(Pairs(entries))
  {
    if entries != [] {
      PairsAt(entries[..|entries| - 1]);
    }
  }

  /**
   For every run of a request that was built: started, then for each audit entry in order its call and its
   result, which is an error unless the entry is a success, then one terminal event, last.
   */
  lemma MiniflowFollowsTheAudit(entries: seq<AuditEntry>, end: RunEnd)
    ensures var es := MiniflowEvents(entries, end);
      && WellFormed(es) && es[0] == Started
      && |es| == 2 * |entries| + (if end.Failed? then 2 else 3)
      && (es[|es| - 1].Done? <==> end == Finished(true))
      && (forall i :: 0 <= i < |entries| ==>
            && es[1 + 2 * i] == ToolCall(entries[i].step, StepArgs(entries[i].attempt, entries[i].outcome))
            && es[2 + 2 * i] == ToolResult(entries[i].step, StepEntry(entries[i]), entries[i].outcome != AuditSuccess))
  {
    var es := MiniflowEvents(entries, end);
    PairsAt(entries);
    assert NoTerminal([Started] + Pairs(entries));
    forall i | 0 <= i < |entries|
      ensures es[1 + 2 * i] == Pairs(entries)[2 * i] && es[2 + 2 * i] == Pairs(entries)[2 * i + 1]
    {}
    match end
    case Failed(message, kind) => TerminalLast([Started] + Pairs(entries), Error(message, kind));
    case Finished(success) =>
      var report := Report(success, entries);
      TerminalLast([Started] + Pairs(entries) + [StateChanged(report)],
                   if success then Done(report) else Error("failed", "MiniFlowRunFailed"));
  }

  /** A run ends with an error exactly if it was not built, raised or did not succeed, of the matching kind. */
  lemma MiniflowEndsWith(configFits: bool, request: Request, entries: seq<AuditEntry>, end: RunEnd)
    requires !configFits || !request.Unbuildable?
    ensures var es := MiniflowStream(configFits, request, entries, end).events;
      && es != [] && var last := es[|es| - 1];
      && (last.Done? <==> configFits && request.Built? && end == Finished(true))
      && (last.Done? ==> last.result == Report(true, entries))
      && (last.Error? ==> last.kind == MiniflowErrorKind(configFits, request, end))
      && (configFits && request.Built? && end.Failed? ==> last.message == end.message)
  {}

  function MiniflowErrorKind(configFits: bool, request: Request, end: RunEnd): string {
    if !configFits then "ValueError"
    else if !request.Built? then request.kind
    else if end.Failed? then end.kind
    else "MiniFlowRunFailed"
  }

  /**
   The adapter keeps the contract if and only if building its request raises nothing but the two
   exceptions that it catches. Otherwise it raises without any event.
   */
  lemma MiniflowContractIff(configFits: bool, request: Request, entries: seq<AuditEntry>, end: RunEnd)
    ensures MiniflowStream(configFits, request, entries, end).end.Returned? <==> !configFits || !request.Unbuildable?
    ensures ClosedOrBroken(MiniflowStream(configFits, request, entries, end))
  {
    MiniflowFollowsTheAudit(entries, end);
  }

  // ---------------------------------------------------------------------------
  // BBX and OpenTabs: one request, one reply
  // ---------------------------------------------------------------------------

  datatype Workflow = ListTools | Health | CallTool(tool: Option<string>)

  /** A reply, an exception before or while asking, a reply of the wrong shape, or one that reports failure. */
  datatype Reply =
    | Good(body: string)
    | NotAsked(kind: string)
    | Raised(kind: string)
    | Misshapen
    | Negative(body: string, message: string)

  function BbxBody(w: Workflow, r: Reply): seq<Event>
    requires !r.NotAsked?
  {
    match w
    case ListTools =>
      [ToolCall("bbx_list_tools", Nothing)]
      + (match r
         case Raised(kind) => [Error("failed", kind)]
         case Misshapen => [Error("no methods", "ValueError")]
         case Good(body) => [ToolResult("bbx_list_tools", Raw(body), false), Done(Raw(body))]
         case Negative(body, _) => [ToolResult("bbx_list_tools", Raw(body), false), Done(Raw(body))])
    case Health =>
      [ToolCall("bbx_health", Nothing)]
      + (match r
         case Raised(kind) => [Error("failed", kind)]
         case Good(body) => [ToolResult("bbx_health", Raw(body), false), Done(Raw(body))]
         case Misshapen => [ToolResult("bbx_health", Nothing, true), Error("not ready", "BbxHealthError")]
         case Negative(body, message) => [ToolResult("bbx_health", Raw(body), true), Error(message, "BbxHealthError")])
    case CallTool(tool) =>
      if tool.None? then [Error("no tool", "ValueError")]
      else
        [ToolCall(tool.value, Nothing)]
        + (match r
           case Raised(kind) => [Error("failed", kind)]
           case Good(body) => [ToolResult(tool.value, Raw(body), false), Done(Raw(body))]
           case Misshapen => [ToolResult(tool.value, Nothing, false), Done(Nothing)]
           case Negative(body, message) => [ToolResult(tool.value, Raw(body), true), Error(message, "BbxToolError")])
  }

  function OpenTabsBody(w: Workflow, r: Reply): seq<Event>
    requires !r.NotAsked?
  {
    match w
    case ListTools =>
      [ToolCall("opentabs_list_tools", Nothing)]
      + (match r
         case Raised(kind) => [Error("failed", kind)]
         case Misshapen => [Error("not a list", "ValueError")]
         case Good(body) => [ToolResult("opentabs_list_tools", Raw(body), false), Done(Raw(body))]
         case Negative(body, _) => [ToolResult("opentabs_list_tools", Raw(body), false), Done(Raw(body))])
    case Health =>
      [ToolCall("opentabs_health", Nothing)]
      + (match r
         case Raised(kind) => [Error("failed", kind)]
         case Misshapen => [Error("not an object", "ValueError")]
         case Good(body) => [StateChanged(Raw(body)), Done(Raw(body))]
         case Negative(body, _) => [StateChanged(Raw(body)), Done(Raw(body))])
    case CallTool(tool) =>
      if tool.None? then [Error("no tool", "ValueError")]
      else
        [ToolCall(tool.value, Nothing)]
        + (match r
           case Raised(kind) => [Error("failed", kind)]
           case Misshapen => [Error("not an object", "ValueError")]
           case Good(body) => [ToolResult(tool.value, Raw(body), false), Done(Raw(body))]
           case Negative(body, message) =>
             [ToolResult(tool.value, Raw(body), true), Error(message, "OpenTabsToolError")])
  }

  datatype Tool = Bbx | OpenTabs

  function ToolEvents(t: Tool, configFits: bool, w: Workflow, r: Reply): seq<Event> {
    if !configFits then [Error("config", "ValueError")]
    else if r.NotAsked? then [Started, Error("failed", r.kind)]
    else [Started] + if t == Bbx then BbxBody(w, r) else OpenTabsBody(w, r)
  }

  /** BbxAdapter.invoke, event by event */
  method BbxInvoke(configFits: bool, w: Workflow, r: Reply) returns (events: seq<Event>)
    ensures events == ToolEvents(Bbx, configFits, w, r)
  {
    if !configFits {
      return [Error("config", "ValueError")];
    }
    events := [Started];
    if r.NotAsked? {
      return events + [Error("failed", r.kind)];
    }
    if w == CallTool(None) {
      return events + [Error("no tool", "ValueError")];
    }
    var name := match w
      case ListTools => "bbx_list_tools"
      case Health => "bbx_health"
      case CallTool(tool) => tool.value;
    events := events + [ToolCall(name, Nothing)];
    if r.Raised? {
      return events + [Error("failed", r.kind)];
    }
    if w.ListTools? && r.Misshapen? {
      return events + [Error("no methods", "ValueError")];
    }
    var body := if r.Misshapen? then Nothing else Raw(r.body);
    var bad := (r.Negative? && !w.ListTools?) || (r.Misshapen? && w.Health?);
    events := events + [ToolResult(name, body, bad)];
    if bad {
      var message := if r.Misshapen? then "not ready" else r.message;
      return events + [Error(message, if w.Health? then "BbxHealthError" else "BbxToolError")];
    }
    events := events + [Done(body)];
  }

  /** OpenTabsAdapter.invoke, event by event */
  method OpenTabsInvoke(configFits: bool, w: Workflow, r: Reply) returns (events: seq<Event>)
    ensures events == ToolEvents(OpenTabs, configFits, w, r)
  {
    if !configFits {
      return [Error("config", "ValueError")];
    }
    events := [Started];
    if r.NotAsked? {
      return events + [Error("failed", r.kind)];
    }
    if w == CallTool(None) {
      return events + [Error("no tool", "ValueError")];
    }
    var name := match w
      case ListTools => "opentabs_list_tools"
      case Health => "opentabs_health"
      case CallTool(tool) => tool.value;
    events := events + [ToolCall(name, Nothing)];
    if r.Raised? {
      return events + [Error("failed", r.kind)];
    }
    if r.Misshapen? {
      return events + [Error(if w.ListTools? then "not a list" else "not an object", "ValueError")];
    }
    if w.Health? {
      return events + [StateChanged(Raw(r.body)), Done(Raw(r.body))];
    }
    var bad := r.Negative? && w.CallTool?;
    events := events + [ToolResult(name, Raw(r.body), bad)];
    if bad {
      return events + [Error(r.message, "OpenTabsToolError")];
    }
    events := events + [Done(Raw(r.body))];
  }

  /** For every request and reply both tool adapters emit exactly one terminal event, last, and never raise. */
  lemma ToolAdaptersWellFormed(t: Tool, configFits: bool, w: Workflow, r: Reply)
    ensures WellFormed(ToolEvents(t, configFits, w, r))
  {
    if !r.NotAsked? {
      BodiesWellFormed(w, r);
      StartedFirst(if t == Bbx then BbxBody(w, r) else OpenTabsBody(w, r));
    }
  }

  lemma StartedFirst(body: seq<Event>)
    requires WellFormed(body)
    ensures WellFormed([Started] + body)
  {
    assert ([Started] + body)[..|body|] == [Started] + body[..|body| - 1];
  }

  lemma BodiesWellFormed(w: Workflow, r: Reply)
    requires !r.NotAsked?
    ensures WellFormed(BbxBody(w, r)) && WellFormed(OpenTabsBody(w, r))
  {}

  /** The tool a workflow calls, under the adapter's own name for it. */
  function ToolName(t: Tool, w: Workflow): Option<string> {
    match w
    case ListTools => Some(if t == Bbx then "bbx_list_tools" else "opentabs_list_tools")
    case Health => Some(if t == Bbx then "bbx_health" else "opentabs_health")
    case CallTool(tool) => tool
  }

  /** A reply with content that does not report failure, or whose report the workflow does not look at. */
  predicate Accepts(t: Tool, w: Workflow, r: Reply) {
    || r.Good?
    || (r.Negative? && (w.ListTools? || (t == OpenTabs && w.Health?)))
    || (r.Misshapen? && t == Bbx && w.CallTool?)
  }

  /** The kind of the error that keeps a run from being done. */
  function ErrorKind(t: Tool, configFits: bool, w: Workflow, r: Reply): string {
    if !configFits then "ValueError"
    else if r.NotAsked? then r.kind
    else if ToolName(t, w).None? then "ValueError"
    else if r.Raised? then r.kind
    else if w.Health? && t == Bbx then "BbxHealthError"
    else if r.Misshapen? then "ValueError"
    else if t == Bbx then "BbxToolError" else "OpenTabsToolError"
  }

  /**
   A run of either adapter is done if and only if its configuration fits, the tool is named and
   the reply is accepted, and then with the reply's body. Otherwise it ends with an error of the
   kind of what went wrong.
   */
  lemma ToolEndsWith(t: Tool, configFits: bool, w: Workflow, r: Reply)
    ensures var es := ToolEvents(t, configFits, w, r);
      var last := es[|es| - 1];
      var asked := configFits && !r.NotAsked? && ToolName(t, w).Some?;
      && (last.Done? <==> asked && Accepts(t, w, r))
      && (last.Done? ==> last.result == if r.Misshapen? then Nothing else Raw(r.body))
      && (last.Error? ==> last.kind == ErrorKind(t, configFits, w, r))
      && (last.Error? && asked && r.Negative? ==> last.message == r.message)
  {}

  /** Once the tool is named the run says so first, and a reply that is looked at is reported before the end. */
  lemma ToolReports(t: Tool, w: Workflow, r: Reply)
    requires !r.NotAsked? && ToolName(t, w).Some?
    ensures var es := ToolEvents(t, true, w, r);
      && es[..2] == [Started, ToolCall(ToolName(t, w).value, Nothing)]
      && (|es| == 3 <==> r.Raised? || (r.Misshapen? && (t == OpenTabs || w.ListTools?)))
      && (|es| != 3 ==> |es| == 4)
      && (|es| == 4 && t == OpenTabs && w.Health? ==> es[2] == StateChanged(Raw(r.body)))
      && (|es| == 4 && !(t == OpenTabs && w.Health?) ==>
            var body := if r.Misshapen? then Nothing else Raw(r.body);
            es[2] == ToolResult(ToolName(t, w).value, body, es[3].Error?))
  {}

  // ---------------------------------------------------------------------------
  // The edge
  // ---------------------------------------------------------------------------

  datatype Frame = AgentEvent(event: Event) | AgentResult(result: Event)

  function Frames(es: seq<Event>): seq<Frame> {
    if es == [] then [] else Frames(es[..|es| - 1]) + [AgentEvent(es[|es| - 1])]
  }

  /** The terminal event that the edge reports for a stream; none if it was itself cancelled. */
  function ResultOf(s: Stream): Option<Event> {
    match s.end
    case Cancelled => None
    case Threw(kind) => Some(Error("raised", kind))
    case Returned =>
      if s.events == [] then Some(Error("adapter yielded no events", "RuntimeInvocationError"))
      else Some(s.events[|s.events| - 1])
  }

  function FramesOf(s: Stream): seq<Frame> {
    Frames(s.events) + if ResultOf(s).Some? then [AgentResult(ResultOf(s).value)] else []
  }

  /** _handle_ws_agent_task: the frames it attempts to send, for any adapter whatsoever. */
  method HandleAgentTask(known: bool, configFits: bool, s: Stream) returns (frames: seq<Frame>)
    ensures !known || !configFits ==> |frames| == 1 && frames[0].AgentResult? && frames[0].result.Error?
    ensures known && configFits ==> frames == FramesOf(s)
  {
    if !known {
      return [AgentResult(Error("unknown runtime", "ValueError"))];
    }
    if !configFits {
      return [AgentResult(Error("config", "ConfigError"))];
    }
    frames := [];
    var terminal: Option<Event> := None;
    for i := 0 to |s.events|
      invariant frames == Frames(s.events[..i])
      invariant terminal == if i == 0 then None else Some(s.events[i - 1])
    {
      assert s.events[..i + 1][..i] == s.events[..i];
      terminal := Some(s.events[i]);
      frames := frames + [AgentEvent(s.events[i])];
    }
    assert s.events[..|s.events|] == s.events;
    match s.end {
      case Cancelled => return;
      case Threw(kind) => frames := frames + [AgentResult(Error("raised", kind))];
      case Returned =>
        if terminal.None? {
          terminal := Some(Error("adapter yielded no events", "RuntimeInvocationError"));
        }
        frames := frames + [AgentResult(terminal.value)];
    }
  }

  lemma {:induction false} FramesAt(es: seq<Event>)
    ensures |Frames(es)| == |es| && forall i :: 0 <= i < |es| ==> Frames(es)[i] == AgentEvent(es[i])
  {
    if es != [] {
      FramesAt(es[..|es| - 1]);
    }
  }

  /**
   Whatever the adapter does, the edge attempts one agent_result, last, if and only if the
   adapter's deadline did not cancel it. If the stream keeps the contract the result is its
   terminal event, which was also its last agent_event; if the adapter raised without a
   terminal event, the result is the only terminal one sent.
   */
  lemma OneResultPerTask(s: Stream)
    ensures var frames := FramesOf(s);
      && (forall i :: 0 <= i < |frames| && frames[i].AgentResult? ==> i == |frames| - 1)
      && (frames != [] && frames[|frames| - 1].AgentResult? <==> s.end != Cancelled)
      && (s.end == Returned && s.events == [] ==>
            frames == [AgentResult(Error("adapter yielded no events", "RuntimeInvocationError"))])
      && (s.end == Returned && WellFormed(s.events) ==>
            && frames[|frames| - 1] == AgentResult(s.events[|s.events| - 1])
            && frames[|frames| - 2] == AgentEvent(s.events[|s.events| - 1]))
      && (s.end.Threw? && NoTerminal(s.events) ==>
            && frames[|frames| - 1] == AgentResult(Error("raised", s.end.kind))
            && forall i :: 0 <= i < |frames| - 1 ==> !Terminal(frames[i].event))
  {
    FramesAt(s.events);
  }

  /**
   Put together: a finite pi run is answered by one terminal result if and only if its deadline
   does not pass while an event of it is being forwarded. Otherwise the centre is sent no
   terminal event at all and waits for its own timeout.
   */
  lemma PiAnsweredIff(run: PiRun)
    ensures var unanswered := run.setup.Spawned? && run.opening.None?
        && FirstStop(run.lines) == |run.lines| && CutInForwarding(run);
      && (ResultOf(PiStream(run)).Some? <==> !unanswered)
      && (!unanswered ==> Terminal(ResultOf(PiStream(run)).value))
      && (unanswered ==> forall frame <- FramesOf(PiStream(run)) :: frame.AgentEvent? && !Terminal(frame.event))
    ensures PiReadable(run) ==>
      ResultOf(PiStream(run)) == Some(PiStream(run).events[|PiStream(run).events| - 1])
  {
    PiContractIff(run);
    FramesAt(PiStream(run).events);
  }
}
