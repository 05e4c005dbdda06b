/**
The incremental scan of a session's event file. Whatever the sizes of the writer's appends and however
often the scanner wakes, it ends up where one scan of the whole file would.
*/
module TurnScan {
  import opened Basics

  newtype byte = x: int | 0 <= x < 256

  const NEWLINE: byte := 10
  const READY_TEXT: string := "HARNESS_SESSION_READY"
  const STILL_RUNNING: string := "is still running"
  const KEEP_GOING: string := "Continue and complete every requested task."

  /** What a line means to the scanner, once decoded; `reason` is only read of a blocking stop. */
  datatype Entry =
    | Message(content: string)
    | ToolStart(tool: string, call: Option<string>, shell: Option<string>)
    | ToolEnd(finished: string, outcome: string)
    | AgentStop(blocking: bool, reason: Option<string>)
    | SubagentStop
    | SessionError(text: string)

  datatype TurnStop = Allowed | Blocked(why: string) | ShellsRunning(shells: set<string>)

  datatype Call = Call(tool: string, shell: Option<string>)

  /** The scanner's findings. */
  datatype Findings = Findings(
    output: seq<string>,
    tools: seq<string>,
    calls: map<string, Call>,
    shells: set<string>,
    markerSeen: bool,
    stop: Option<TurnStop>)

  predicate Contains(text: string, part: string) {
    exists i :: 0 <= i <= |text| && part <= text[i..]
  }

  /** The part of a tool name after its last '.' or '/'. */
  function ToolName(name: string): string {
    if '.' !in name && '/' !in name then name else ToolName(name[1..])
  }

  function StopOf(f: Findings, blocking: bool, reason: Option<string>): TurnStop {
    if blocking then Blocked(if reason.Some? && reason.value != "" then reason.value else KEEP_GOING)
    else if f.shells == {} then Allowed
    else ShellsRunning(f.shells)
  }

  function AfterTool(f: Findings, call: Call, outcome: string): Findings {
    if call.shell.None? then f
    else
      var name, shell := ToolName(call.tool), call.shell.value;
      if name == "stop_powershell" || (name == "read_powershell" && !Contains(outcome, STILL_RUNNING))
      then f.(shells := f.shells - {shell})
      else if name == "powershell" && Contains(outcome, STILL_RUNNING) then f.(shells := f.shells + {shell})
      else f
  }

  /** The findings after one more line; a session error leaves them as they were. */
  function Absorbed(f: Findings, entry: Option<Entry>, marker: Option<string>): Findings {
    match entry
    case None => f
    case Some(Message(content)) =>
      f.(markerSeen := f.markerSeen || (marker.Some? && Contains(content, marker.value)),
         output := if Contains(content, READY_TEXT) then f.output else f.output + [content])
    case Some(ToolStart(tool, call, shell)) =>
      f.(tools := f.tools + [tool], calls := if call.Some? then f.calls[call.value := Call(tool, shell)] else f.calls)
    case Some(ToolEnd(call, outcome)) => if call in f.calls then AfterTool(f, f.calls[call], outcome) else f
    case Some(AgentStop(blocking, reason)) => f.(stop := Some(StopOf(f, blocking, reason)))
    case Some(SubagentStop) => f.(stop := None)
    case Some(SessionError(_)) => f
  }

  // ---- The simple form: all lines of a file, folded ----

  predicate OneLine(bytes: seq<byte>) {
    forall k :: 0 <= k < |bytes| ==> bytes[k] != NEWLINE
  }

  function FirstNewline(bytes: seq<byte>): (i: Option<nat>)
    ensures i.Some? ==> i.value < |bytes| && bytes[i.value] == NEWLINE && OneLine(bytes[..i.value])
    ensures i.None? ==> OneLine(bytes)
  {
    if bytes == [] then None
    else if bytes[0] == NEWLINE then Some(0)
    else match FirstNewline(bytes[1..]) case None => None case Some(i) => Some(i + 1)
  }

  /** The complete lines of a text, without their newlines. */
  function Lines(bytes: seq<byte>): seq<seq<byte>> {
    match FirstNewline(bytes)
    case None => []
    case Some(i) => [bytes[..i]] + Lines(bytes[i + 1..])
  }

  /** What follows the last newline. */
  function Tail(bytes: seq<byte>): seq<byte> {
    match FirstNewline(bytes)
    case None => bytes
    case Some(i) => Tail(bytes[i + 1..])
  }

  function Rejoined(lines: seq<seq<byte>>): seq<byte> {
    if lines == [] then [] else lines[0] + [NEWLINE] + Rejoined(lines[1..])
  }

  lemma FirstLine(bytes: seq<byte>, i: nat)
    requires FirstNewline(bytes) == Some(i)
    ensures bytes == bytes[..i] + [NEWLINE] + bytes[i + 1..] && OneLine(bytes[..i])
    ensures Lines(bytes) == [bytes[..i]] + Lines(bytes[i + 1..]) && Tail(bytes) == Tail(bytes[i + 1..])
  {
  }

  lemma NoFirstLine(bytes: seq<byte>)
    requires FirstNewline(bytes).None?
    ensures Lines(bytes) == [] && Tail(bytes) == bytes
  {
  }

  /** Lines and tail lose nothing, and the text is cut at every newline. */
  lemma {:induction false} LinesKeepEveryByte(bytes: seq<byte>)
    ensures bytes == Rejoined(Lines(bytes)) + Tail(bytes)
    ensures OneLine(Tail(bytes)) && forall l :: l in Lines(bytes) ==> OneLine(l)
    decreases |bytes|
  {
    hide OneLine, Rejoined, Lines, Tail, FirstNewline;
    LinesHaveNoNewline(bytes);
    match FirstNewline(bytes)
    case None =>
      NoFirstLine(bytes);
      NothingRejoined();
    case Some(i) =>
      FirstLine(bytes, i);
      LinesKeepEveryByte(bytes[i + 1..]);
      RejoinOneMore(bytes[..i], Lines(bytes[i + 1..]));
  }

  lemma NothingRejoined()
    ensures Rejoined([]) == []
  {
  }

  lemma {:induction false} LinesHaveNoNewline(bytes: seq<byte>)
    ensures OneLine(Tail(bytes)) && forall l :: l in Lines(bytes) ==> OneLine(l)
    decreases |bytes|
  {
    hide OneLine;
    if FirstNewline(bytes).Some? {
      LinesHaveNoNewline(bytes[FirstNewline(bytes).value + 1..]);
    }
  }

  lemma RejoinOneMore(line: seq<byte>, lines: seq<seq<byte>>)
    ensures Rejoined([line] + lines) == line + [NEWLINE] + Rejoined(lines)
  {
  }

  predicate EndsLine(bytes: seq<byte>) {
    bytes == [] || bytes[|bytes| - 1] == NEWLINE
  }

  lemma FirstNewlineIs(bytes: seq<byte>, i: nat)
    requires i < |bytes| && bytes[i] == NEWLINE && OneLine(bytes[..i])
    ensures FirstNewline(bytes) == Some(i)
  {
  }

  lemma NewlineIsFound(bytes: seq<byte>)
    requires EndsLine(bytes) && bytes != []
    ensures FirstNewline(bytes).Some?
  {
  }

  /** Cutting a file after a newline cuts its lines there. */
  lemma {:induction false} LinesOfParts(a: seq<byte>, b: seq<byte>)
    requires EndsLine(a)
    ensures Lines(a + b) == Lines(a) + Lines(b) && Tail(a + b) == Tail(b)
    decreases |a|
  {
    hide OneLine, Lines, Tail, FirstNewline;
    if a == [] {
      assert a + b == b;
      EmptyHasNoLines();
    } else {
      NewlineIsFound(a);
      var i := FirstNewline(a).value;
      FirstLine(a, i);
      assert (a + b)[..i] == a[..i] && (a + b)[i + 1..] == a[i + 1..] + b;
      FirstNewlineIs(a + b, i);
      FirstLine(a + b, i);
      LinesOfParts(a[i + 1..], b);
    }
  }

  lemma EmptyHasNoLines()
    ensures Lines([]) == [] && Tail([]) == []
  {
  }

  type Decoder = seq<byte> -> Option<Entry>

  /** The one-shot scan: the fold of all lines. */
  function Folded(f: Findings, lines: seq<seq<byte>>, decode: Decoder, marker: Option<string>): Findings {
    if lines == [] then f
    else Absorbed(Folded(f, lines[..|lines| - 1], decode, marker), decode(lines[|lines| - 1]), marker)
  }

  lemma FoldedOneMore(f: Findings, lines: seq<seq<byte>>, line: seq<byte>, decode: Decoder, marker: Option<string>)
    ensures Folded(f, lines + [line], decode, marker) ==
      Absorbed(Folded(f, lines, decode, marker), decode(line), marker)
  {
  }

  function ErrorOf(entry: Option<Entry>): Option<string> {
    if entry.Some? && entry.value.SessionError? then Some(entry.value.text) else None
  }

  /** The first session error among the lines. */
  function FirstError(lines: seq<seq<byte>>, decode: Decoder): Option<string> {
    if lines == [] then None
    else
      var earlier := FirstError(lines[..|lines| - 1], decode);
      if earlier.Some? then earlier else ErrorOf(decode(lines[|lines| - 1]))
  }

  lemma ErrorOneMore(lines: seq<seq<byte>>, line: seq<byte>, decode: Decoder)
    ensures FirstError(lines + [line], decode) ==
      if FirstError(lines, decode).Some? then FirstError(lines, decode) else ErrorOf(decode(line))
  {
  }

  /** More lines do not change which error is the first. */
  lemma {:induction false} ErrorStaysFirst(lines: seq<seq<byte>>, more: seq<seq<byte>>, decode: Decoder)
    requires FirstError(lines, decode).Some?
    ensures FirstError(lines + more, decode) == FirstError(lines, decode)
  {
    if more == [] {
      assert lines + more == lines;
    } else {
      var last := |more| - 1;
      assert lines + more == (lines + more[..last]) + [more[last]];
      ErrorOneMore(lines + more[..last], more[last], decode);
      ErrorStaysFirst(lines, more[..last], decode);
    }
  }

  /** The turn has finished: a stop without a marker to wait for, or an allowed stop after the marker. */
  predicate IsDone(f: Findings, marker: Option<string>) {
    (marker.None? && f.stop.Some?) || (f.markerSeen && f.stop == Some(Allowed))
  }

  function Batch(f: Findings, bytes: seq<byte>, decode: Decoder, marker: Option<string>): Findings {
    Folded(f, Lines(bytes), decode, marker)
  }

  // ---- What the findings say of the lines ----

  /** The messages of a turn, but those that only say the session is ready. */
  function Said(lines: seq<seq<byte>>, decode: Decoder): seq<string> {
    if lines == [] then []
    else
      Said(lines[..|lines| - 1], decode)
      + match decode(lines[|lines| - 1])
        case Some(Message(content)) => if Contains(content, "HARNESS_SESSION_READY") then [] else [content]
        case _ => []
  }

  /** The tools started in a turn. */
  function Started(lines: seq<seq<byte>>, decode: Decoder): seq<string> {
    if lines == [] then []
    else
      Started(lines[..|lines| - 1], decode)
      + match decode(lines[|lines| - 1])
        case Some(ToolStart(tool, _, _)) => [tool]
        case _ => []
  }

  lemma {:induction false} OutputIsWhatWasSaid(f: Findings, lines: seq<seq<byte>>, decode: Decoder,
                                               marker: Option<string>)
    ensures Folded(f, lines, decode, marker).output == f.output + Said(lines, decode)
    ensures Folded(f, lines, decode, marker).tools == f.tools + Started(lines, decode)
  {
    if lines != [] {
      OutputIsWhatWasSaid(f, lines[..|lines| - 1], decode, marker);
    }
  }

  predicate HasMarker(entry: Option<Entry>, marker: Option<string>) {
    marker.Some? && entry.Some? && entry.value.Message? && Contains(entry.value.content, marker.value)
  }

  lemma {:induction false} MarkerIsSeenExactlyWhen(f: Findings, lines: seq<seq<byte>>, decode: Decoder,
                                                   marker: Option<string>)
    ensures Folded(f, lines, decode, marker).markerSeen <==>
      f.markerSeen || exists k :: 0 <= k < |lines| && HasMarker(decode(lines[k]), marker)
  {
    if lines != [] {
      var last := |lines| - 1;
      var rest := lines[..last];
      MarkerIsSeenExactlyWhen(f, rest, decode, marker);
      assert forall k :: 0 <= k < last ==> rest[k] == lines[k];
      if k :| 0 <= k < last && HasMarker(decode(rest[k]), marker) {
        assert HasMarker(decode(lines[k]), marker);
      }
      if k :| 0 <= k < |lines| && HasMarker(decode(lines[k]), marker) {
        assert k < last ==> HasMarker(decode(rest[k]), marker);
      }
    }
  }

  predicate IsStop(entry: Option<Entry>) {
    entry.Some? && (entry.value.AgentStop? || entry.value.SubagentStop?)
  }

  /**
  The last stop of a turn decides: a subagent's takes any other back; an agent's is blocked for its reason, or
  with a reminder if it gives none; else it is allowed exactly when no shell is running then.
  */
  lemma {:induction false} LastStopDecides(f: Findings, lines: seq<seq<byte>>, decode: Decoder,
                                           marker: Option<string>, k: nat)
    requires k < |lines| && IsStop(decode(lines[k])) && forall j :: k < j < |lines| ==> !IsStop(decode(lines[j]))
    ensures Folded(f, lines, decode, marker).stop ==
      match decode(lines[k]).value
      case SubagentStop => None
      case AgentStop(blocking, reason) =>
        var shells := Folded(f, lines[..k], decode, marker).shells;
        Some(if blocking then Blocked(if reason.Some? && reason.value != "" then reason.value
                                      else "Continue and complete every requested task.")
             else if shells == {} then Allowed else ShellsRunning(shells))
    decreases |lines|
  {
    if k < |lines| - 1 {
      var rest := lines[..|lines| - 1];
      assert rest[k] == lines[k] && rest[..k] == lines[..k];
      LastStopDecides(f, rest, decode, marker, k);
    }
  }

  lemma {:induction false} WithoutStopNothingIsDecided(f: Findings, lines: seq<seq<byte>>, decode: Decoder,
                                                       marker: Option<string>)
    requires forall j :: 0 <= j < |lines| ==> !IsStop(decode(lines[j]))
    ensures Folded(f, lines, decode, marker).stop == f.stop
  {
    if lines != [] {
      WithoutStopNothingIsDecided(f, lines[..|lines| - 1], decode, marker);
    }
  }

  predicate StartsCall(entry: Option<Entry>, call: string) {
    entry.Some? && entry.value.ToolStart? && entry.value.call == Some(call)
  }

  /** A call is known by its latest start. */
  lemma {:induction false} LatestStartIsKnown(f: Findings, lines: seq<seq<byte>>, decode: Decoder,
                                              marker: Option<string>, k: nat, call: string)
    requires k < |lines| && StartsCall(decode(lines[k]), call)
    requires forall j :: k < j < |lines| ==> !StartsCall(decode(lines[j]), call)
    ensures var start, calls := decode(lines[k]).value, Folded(f, lines, decode, marker).calls;
      call in calls && calls[call] == Call(start.tool, start.shell)
    decreases |lines|
  {
    if k < |lines| - 1 {
      var rest := lines[..|lines| - 1];
      assert rest[k] == lines[k];
      LatestStartIsKnown(f, rest, decode, marker, k, call);
    }
  }

  lemma {:induction false} ToolNameIsTheLastPart(name: string)
    ensures var part := ToolName(name);
      && '.' !in part && '/' !in part && |part| <= |name| && name[|name| - |part|..] == part
      && (|part| < |name| ==> name[|name| - |part| - 1] == '.' || name[|name| - |part| - 1] == '/')
    decreases |name|
  {
    if '.' in name || '/' in name {
      ToolNameIsTheLastPart(name[1..]);
      var part := ToolName(name[1..]);
      assert name[1..][|name| - 1 - |part|..] == name[|name| - |part|..];
      if |part| == |name| - 1 {
        assert name == [name[0]] + part;
      }
    }
  }

  /** The end of a call to the named tool with the shell. */
  predicate EndsCall(f: Findings, entry: Option<Entry>, tool: string, shell: string) {
    && entry.Some? && entry.value.ToolEnd? && entry.value.finished in f.calls
    && f.calls[entry.value.finished].shell == Some(shell) && ToolName(f.calls[entry.value.finished].tool) == tool
  }

  predicate SaysRunning(entry: Option<Entry>) {
    entry.Some? && entry.value.ToolEnd? && Contains(entry.value.outcome, "is still running")
  }

  /** The shell is left running at the line. */
  predicate Leaves(f: Findings, lines: seq<seq<byte>>, decode: Decoder, marker: Option<string>, k: nat, shell: string)
    requires k < |lines|
  {
    var entry := decode(lines[k]);
    EndsCall(Folded(f, lines[..k], decode, marker), entry, "powershell", shell) && SaysRunning(entry)
  }

  /** The shell is stopped, or read to its end, at the line. */
  predicate Ends(f: Findings, lines: seq<seq<byte>>, decode: Decoder, marker: Option<string>, k: nat, shell: string)
    requires k < |lines|
  {
    var before, entry := Folded(f, lines[..k], decode, marker), decode(lines[k]);
    || EndsCall(before, entry, "stop_powershell", shell)
    || (EndsCall(before, entry, "read_powershell", shell) && !SaysRunning(entry))
  }

  predicate LeftRunning(f: Findings, lines: seq<seq<byte>>, decode: Decoder, marker: Option<string>, k: int,
                        shell: string)
    requires -1 <= k < |lines|
  {
    && (if k == -1 then shell in f.shells else Leaves(f, lines, decode, marker, k, shell))
    && forall j :: k < j < |lines| ==> !Ends(f, lines, decode, marker, j, shell)
  }

  /** A shell is running exactly when it was left running, in this turn or before, and has not ended since. */
  lemma {:induction false} ShellRunsExactlyWhen(f: Findings, lines: seq<seq<byte>>, decode: Decoder,
                                                marker: Option<string>, shell: string)
    ensures shell in Folded(f, lines, decode, marker).shells <==>
      exists k :: -1 <= k < |lines| && LeftRunning(f, lines, decode, marker, k, shell)
    decreases |lines|
  {
    if lines == [] {
      assert LeftRunning(f, lines, decode, marker, -1, shell) <==> shell in f.shells;
    } else {
      hide Folded, Leaves, Ends, LeftRunning;
      var last := |lines| - 1;
      var rest := lines[..last];
      ShellRunsExactlyWhen(f, rest, decode, marker, shell);
      ShellAfterOneLine(f, lines, decode, marker, shell);
      LeftRunningNow(f, lines, decode, marker, shell);
      forall k | -1 <= k < last
        ensures LeftRunning(f, lines, decode, marker, k, shell) <==>
          LeftRunning(f, rest, decode, marker, k, shell) && !Ends(f, lines, decode, marker, last, shell)
      {
        LeftRunningOneMore(f, lines, decode, marker, k, shell);
      }
    }
  }

  lemma LeftRunningNow(f: Findings, lines: seq<seq<byte>>, decode: Decoder, marker: Option<string>, shell: string)
    requires lines != []
    ensures var last := |lines| - 1;
      LeftRunning(f, lines, decode, marker, last, shell) <==> Leaves(f, lines, decode, marker, last, shell)
  {
    hide Folded, Leaves, Ends;
  }

  lemma LeftRunningOneMore(f: Findings, lines: seq<seq<byte>>, decode: Decoder, marker: Option<string>, k: int,
                           shell: string)
    requires -1 <= k < |lines| - 1
    ensures var last := |lines| - 1;
      LeftRunning(f, lines, decode, marker, k, shell) <==>
        LeftRunning(f, lines[..last], decode, marker, k, shell) && !Ends(f, lines, decode, marker, last, shell)
  {
    hide Folded, Leaves, Ends;
    var last := |lines| - 1;
    forall j: nat | j < last
      ensures Leaves(f, lines[..last], decode, marker, j, shell) <==> Leaves(f, lines, decode, marker, j, shell)
      ensures Ends(f, lines[..last], decode, marker, j, shell) <==> Ends(f, lines, decode, marker, j, shell)
    {
      LaterLinesDoNotMatter(f, lines, decode, marker, j, shell);
    }
  }

  lemma LaterLinesDoNotMatter(f: Findings, lines: seq<seq<byte>>, decode: Decoder, marker: Option<string>, k: nat,
                              shell: string)
    requires k < |lines| - 1
    ensures var rest := lines[..|lines| - 1];
      && (Leaves(f, rest, decode, marker, k, shell) <==> Leaves(f, lines, decode, marker, k, shell))
      && (Ends(f, rest, decode, marker, k, shell) <==> Ends(f, lines, decode, marker, k, shell))
  {
    hide Folded, EndsCall, SaysRunning;
    var rest := lines[..|lines| - 1];
    assert rest[k] == lines[k] && rest[..k] == lines[..k];
  }

  lemma ShellAfterOneLine(f: Findings, lines: seq<seq<byte>>, decode: Decoder, marker: Option<string>, shell: string)
    requires lines != []
    ensures var last := |lines| - 1;
      shell in Folded(f, lines, decode, marker).shells <==>
        || Leaves(f, lines, decode, marker, last, shell)
        || (shell in Folded(f, lines[..last], decode, marker).shells && !Ends(f, lines, decode, marker, last, shell))
  {
  }

  datatype Wait = Ended(found: Findings) | Broke(error: string) | Waiting

  /** What a wake must make of the turn so far: the first session error, or the findings once it has finished. */
  function Outcome(first: Findings, turn: seq<byte>, decode: Decoder, marker: Option<string>): Wait {
    match FirstError(Lines(turn), decode)
    case Some(error) => Broke(error)
    case None =>
      var found := Batch(first, turn, decode, marker);
      if IsDone(found, marker) then Ended(found) else Waiting
  }

  // ---- The fast form ----

  class TurnScan {
    var offset: nat
    var pending: seq<byte>
    var output: seq<string>
    var tools: seq<string>
    var calls: map<string, Call>
    var shells: set<string>
    var markerSeen: bool
    var stop: Option<TurnStop>
    const decode: Decoder
    const marker: Option<string>
    ghost const start: nat
    ghost const initial: Findings
    /** The bytes of the lines absorbed so far. */
    ghost var consumed: seq<byte>

    function Found(): Findings
      reads this
    {
      Findings(output, tools, calls, shells, markerSeen, stop)
    }

    /** The scanner has read `file` from `start` to its offset, absorbed whole lines of it, and kept the rest. */
    ghost predicate Follows(file: seq<byte>)
      reads this
    {
      && start <= offset <= |file| && file[start..offset] == consumed + pending
      && EndsLine(consumed)
      && Found() == Batch(initial, consumed, decode, marker)
    }

    /** A scan starts at the length the event file had when the turn began. */
    constructor (start: nat, runningShells: set<string>, decode: Decoder, marker: Option<string>)
      ensures forall file: seq<byte> :: start <= |file| ==> Follows(file)
      ensures this.start == start && this.decode == decode && this.marker == marker
      ensures initial == Findings([], [], map[], runningShells, false, None) && consumed == []
    {
      this.offset, this.pending, this.consumed := start, [], [];
      this.output, this.tools, this.calls, this.shells := [], [], map[], runningShells;
      this.markerSeen, this.stop := false, None;
      this.decode, this.marker, this.start := decode, marker, start;
      this.initial := Findings([], [], map[], runningShells, false, None);
    }

    method AbsorbToolResult(call: string, outcome: string)
      modifies this`shells
      ensures Found() == Absorbed(old(Found()), Some(ToolEnd(call, outcome)), marker)
    {
      if call !in calls || calls[call].shell.None? {
        return;
      }
      var name, shell := ToolName(calls[call].tool), calls[call].shell.value;
      var running := Contains(outcome, STILL_RUNNING);
      if name == "stop_powershell" || (name == "read_powershell" && !running) {
        shells := shells - {shell};
      } else if name == "powershell" && running {
        shells := shells + {shell};
      }
    }

    /** `absorb` */
    method Absorb(line: seq<byte>) returns (error: Option<string>)
      modifies this`output, this`tools, this`calls, this`shells, this`markerSeen, this`stop
      ensures Found() == Absorbed(old(Found()), decode(line), marker)
      ensures error == ErrorOf(decode(line))
    {
      error := None;
      match decode(line)
      case None =>
      case Some(Message(content)) =>
        markerSeen := markerSeen || (marker.Some? && Contains(content, marker.value));
        if !Contains(content, READY_TEXT) {
          output := output + [content];
        }
      case Some(ToolStart(tool, call, shell)) =>
        tools := tools + [tool];
        if call.Some? {
          calls := calls[call.value := Call(tool, shell)];
        }
      case Some(ToolEnd(call, outcome)) =>
        AbsorbToolResult(call, outcome);
      case Some(AgentStop(blocking, reason)) =>
        stop := Some(StopOf(Found(), blocking, reason));
      case Some(SubagentStop) =>
        stop := None;
      case Some(SessionError(text)) =>
        error := Some(text);
    }

    /** Absorbs the next whole line of the file. */
    method TakeLine(line: seq<byte>) returns (error: Option<string>)
      requires OneLine(line) && EndsLine(consumed) && Found() == Batch(initial, consumed, decode, marker)
      modifies this`output, this`tools, this`calls, this`shells, this`markerSeen, this`stop, this`consumed
      ensures consumed == old(consumed) + (line + [NEWLINE]) && EndsLine(consumed)
      ensures Found() == Batch(initial, consumed, decode, marker) && error == ErrorOf(decode(line))
      ensures Lines(consumed) == Lines(old(consumed)) + [line]
    {
      hide Lines, Folded, Absorbed, ErrorOf;
      error := Absorb(line);
      LineIsAdded(consumed, line);
      FoldedOneMore(initial, Lines(consumed), line, decode, marker);
      consumed := consumed + (line + [NEWLINE]);
    }

    /**
    `advance`. The lines absorbed so far are a prefix of the file's, each exactly once; without a session
    error they are all of them, and the findings are those of the one-shot scan. The error returned is
    the first of the turn.
    */
    method Advance(ghost seen: seq<byte>, file: seq<byte>) returns (done: bool, error: Option<string>)
      requires Follows(seen) && seen <= file
      modifies this
      ensures Follows(file) && old(consumed) <= consumed && offset == |file|
      ensures error.None? ==>
        && pending == Tail(file[start..]) && Found() == Batch(initial, file[start..], decode, marker)
        && done == IsDone(Batch(initial, file[start..], decode, marker), marker)
      ensures error.Some? ==> !done && |old(consumed)| < |consumed|
      ensures old(FirstError(Lines(consumed), decode)).None? ==> error == FirstError(Lines(file[start..]), decode)
      ensures old(FirstError(Lines(consumed), decode)).None? && error.None? ==>
        FirstError(Lines(consumed), decode).None?
    {
      hide Lines, Tail, Folded, IsDone, Absorbed, OneLine, FirstNewline, FirstError, ErrorOf;
      var buffer := pending + file[offset..];
      Spliced(file, start, offset, consumed, pending);
      offset := |file|;
      var taken := 0;
      error := None;
      while error.None? && FirstNewline(buffer[taken..]).Some?
        invariant offset == |file| && taken <= |buffer| && EndsLine(consumed)
        invariant old(consumed) <= consumed && file[start..] == consumed + buffer[taken..]
        invariant Found() == Batch(initial, consumed, decode, marker)
        invariant error.Some? ==> |old(consumed)| < |consumed|
        invariant old(FirstError(Lines(consumed), decode)).None? ==> error == FirstError(Lines(consumed), decode)
        decreases |buffer| - taken
      {
        var index := FirstNewline(buffer[taken..]).value;
        var line := buffer[taken..taken + index];
        LineIsNext(consumed, buffer, taken, index);
        ErrorOneMore(Lines(consumed), line, decode);
        error := TakeLine(line);
        taken := taken + index + 1;
      }
      pending := buffer[taken..];
      assert file[start..offset] == file[start..];
      if error.Some? {
        LinesOfParts(consumed, pending);
        if FirstError(Lines(consumed), decode).Some? {
          ErrorStaysFirst(Lines(consumed), Lines(pending), decode);
        }
        return false, error;
      }
      NothingLeft(consumed, pending);
      done := IsDone(Found(), marker);
    }

    /** One pass of the wait loop, while no error has been met. */
    method Wake(ghost seen: seq<byte>, file: seq<byte>) returns (r: Wait)
      requires Follows(seen) && seen <= file && FirstError(Lines(consumed), decode).None?
      modifies this
      ensures Follows(file) && r == Outcome(initial, file[start..], decode, marker)
      ensures r.Waiting? ==> FirstError(Lines(consumed), decode).None?
      ensures r.Ended? ==> r.found == Found()
    {
      hide Lines, FirstError, Batch, IsDone;
      var done, error := Advance(seen, file);
      r := if error.Some? then Broke(error.value) else if done then Ended(Found()) else Waiting;
    }

    static lemma Spliced(file: seq<byte>, start: nat, offset: nat, consumed: seq<byte>, pending: seq<byte>)
      requires start <= offset <= |file| && file[start..offset] == consumed + pending
      ensures file[start..] == consumed + (pending + file[offset..])
    {
    }

    static lemma LineIsNext(consumed: seq<byte>, buffer: seq<byte>, taken: nat, index: nat)
      requires taken <= |buffer| && FirstNewline(buffer[taken..]) == Some(index)
      ensures taken + index < |buffer| && OneLine(buffer[taken..taken + index])
      ensures consumed + buffer[taken..] ==
        consumed + (buffer[taken..taken + index] + [NEWLINE]) + buffer[taken + index + 1..]
    {
      hide OneLine;
      assert buffer[taken..][..index] == buffer[taken..taken + index];
      assert buffer[taken..][index] == buffer[taken + index];
    }

    static lemma NothingLeft(consumed: seq<byte>, pending: seq<byte>)
      requires EndsLine(consumed) && FirstNewline(pending).None?
      ensures Lines(consumed + pending) == Lines(consumed) && Tail(consumed + pending) == pending
    {
      LinesOfParts(consumed, pending);
      assert Lines(consumed) + [] == Lines(consumed);
    }

    static lemma LineIsAdded(consumed: seq<byte>, line: seq<byte>)
      requires EndsLine(consumed) && OneLine(line)
      ensures Lines(consumed + (line + [NEWLINE])) == Lines(consumed) + [line]
      ensures EndsLine(consumed + (line + [NEWLINE]))
    {
      var piece := line + [NEWLINE];
      LinesOfParts(consumed, piece);
      assert piece[..|line|] == line;
      FirstNewlineIs(piece, |line|);
      assert piece[|line| + 1..] == [];
      assert Lines([]) == [] && Lines(piece) == [line] + [];
    }
  }

  /** Each snapshot of the file is an extension of the one before. */
  ghost predicate Grows(snapshots: seq<seq<byte>>) {
    forall i, j :: 0 <= i <= j < |snapshots| ==> snapshots[i] <= snapshots[j]
  }

  class TurnSignal {
    var runningShells: set<string>
    const decode: Decoder

    constructor (decode: Decoder)
      ensures this.decode == decode && runningShells == {}
    {
      this.decode, this.runningShells := decode, {};
    }

    /**
    `wait_for`, woken at the given snapshots of the file. It returns at the first of them at which the turn
    has met an error or finished, with the first error or else the findings of the one-shot scan. It has
    finished when there is a stop, or, with a marker to wait for, once that was seen and the stop is allowed.
    */
    method WaitFor(start: nat, marker: Option<string>, snapshots: seq<seq<byte>>) returns (r: Wait, wakes: nat)
      requires Grows(snapshots) && forall k :: 0 <= k < |snapshots| ==> start <= |snapshots[k]|
      modifies this
      ensures wakes <= |snapshots| && (r.Waiting? <==> wakes == |snapshots|)
      ensures var first := Findings([], [], map[], old(runningShells), false, None);
        && (wakes < |snapshots| ==> r == Outcome(first, snapshots[wakes][start..], decode, marker))
        && (forall k :: 0 <= k < wakes ==>
              var found := Batch(first, snapshots[k][start..], decode, marker);
              && FirstError(Lines(snapshots[k][start..]), decode).None?
              && !(marker.None? && found.stop.Some?) && !(found.markerSeen && found.stop == Some(Allowed)))
        && (r.Ended? ==> (marker.None? && r.found.stop.Some?) || (r.found.markerSeen && r.found.stop == Some(Allowed)))
      ensures runningShells == if r.Ended? then r.found.shells else old(runningShells)
    {
      ghost var first := Findings([], [], map[], runningShells, false, None);
      r, wakes := Watch(start, marker, snapshots);
      hide Lines, FirstError, Outcome, Batch;
      forall k | 0 <= k < |snapshots|
        ensures IsInWords(first, snapshots[k][start..], decode, marker)
      {
        OutcomeInWords(first, snapshots[k][start..], decode, marker);
      }
    }

    method Watch(start: nat, marker: Option<string>, snapshots: seq<seq<byte>>) returns (r: Wait, wakes: nat)
      requires Grows(snapshots) && forall k :: 0 <= k < |snapshots| ==> start <= |snapshots[k]|
      modifies this
      ensures wakes <= |snapshots| && (r.Waiting? <==> wakes == |snapshots|)
      ensures var first := Findings([], [], map[], old(runningShells), false, None);
        && StillWaiting(first, start, snapshots, wakes, decode, marker)
        && (wakes < |snapshots| ==> r == Outcome(first, snapshots[wakes][start..], decode, marker))
      ensures runningShells == if r.Ended? then r.found.shells else old(runningShells)
    {
      hide StillWaiting;
      hide Lines, FirstError, Outcome, Batch, EndsLine, Grows, Folded, IsDone, OneLine, FirstNewline;
      wakes, r := 0, Waiting;
      if snapshots == [] {
        NoneWaiting(Findings([], [], map[], runningShells, false, None), start, snapshots, decode, marker);
        return;
      }
      var scan := new TurnScan(start, runningShells, decode, marker);
      NoLinesNoError(decode);
      ghost var seen := snapshots[0];
      NoneWaiting(scan.initial, start, snapshots, decode, marker);
      while wakes < |snapshots|
        invariant wakes <= |snapshots| && runningShells == old(runningShells) && fresh(scan) && r.Waiting?
        invariant scan.start == start && scan.decode == decode && scan.marker == marker
        invariant scan.initial == Findings([], [], map[], runningShells, false, None)
        invariant scan.Follows(seen) && seen == snapshots[if wakes == 0 then 0 else wakes - 1]
        invariant FirstError(Lines(scan.consumed), decode).None?
        invariant StillWaiting(scan.initial, start, snapshots, wakes, decode, marker)
      {
        LaterIsLonger(snapshots, if wakes == 0 then 0 else wakes - 1, wakes);
        r := scan.Wake(seen, snapshots[wakes]);
        seen := snapshots[wakes];
        if !r.Waiting? {
          runningShells := if r.Ended? then scan.shells else runningShells;
          return;
        }
        OneMoreWaiting(scan.initial, start, snapshots, wakes, decode, marker);
        wakes := wakes + 1;
      }
    }
  }

  /** None of the first wakes has ended the wait. */
  ghost predicate StillWaiting(first: Findings, start: nat, snapshots: seq<seq<byte>>, n: nat, decode: Decoder,
                               marker: Option<string>)
    requires n <= |snapshots| && forall k :: 0 <= k < |snapshots| ==> start <= |snapshots[k]|
  {
    forall k :: 0 <= k < n ==> Outcome(first, snapshots[k][start..], decode, marker).Waiting?
  }

  lemma NoneWaiting(first: Findings, start: nat, snapshots: seq<seq<byte>>, decode: Decoder, marker: Option<string>)
    requires forall k :: 0 <= k < |snapshots| ==> start <= |snapshots[k]|
    ensures StillWaiting(first, start, snapshots, 0, decode, marker)
  {
  }

  lemma OneMoreWaiting(first: Findings, start: nat, snapshots: seq<seq<byte>>, n: nat, decode: Decoder,
                       marker: Option<string>)
    requires n < |snapshots| && forall k :: 0 <= k < |snapshots| ==> start <= |snapshots[k]|
    requires StillWaiting(first, start, snapshots, n, decode, marker)
    requires Outcome(first, snapshots[n][start..], decode, marker).Waiting?
    ensures StillWaiting(first, start, snapshots, n + 1, decode, marker)
  {
    hide Outcome;
  }

  lemma LaterIsLonger(snapshots: seq<seq<byte>>, i: nat, j: nat)
    requires Grows(snapshots) && i <= j < |snapshots|
    ensures snapshots[i] <= snapshots[j]
  {
  }

  ghost predicate IsInWords(first: Findings, turn: seq<byte>, decode: Decoder, marker: Option<string>) {
    var r, found := Outcome(first, turn, decode, marker), Batch(first, turn, decode, marker);
    && (r.Waiting? ==>
          && FirstError(Lines(turn), decode).None?
          && !(marker.None? && found.stop.Some?) && !(found.markerSeen && found.stop == Some(Allowed)))
    && (r.Ended? ==> (marker.None? && r.found.stop.Some?) || (r.found.markerSeen && r.found.stop == Some(Allowed)))
  }

  lemma OutcomeInWords(first: Findings, turn: seq<byte>, decode: Decoder, marker: Option<string>)
    ensures IsInWords(first, turn, decode, marker)
  {
  }

  lemma NoLinesNoError(decode: Decoder)
    ensures FirstError(Lines([]), decode).None?
  {
    EmptyHasNoLines();
  }

  /**
  Wakes over any schedule of appends, for a caller that goes on after an error. Even if earlier wakes met
  a session error and left lines unread, a wake without one brings the scan level with the one-shot scan.
  */
  method WakeThrough(scan: TurnScan, snapshots: seq<seq<byte>>) returns (done: bool, error: Option<string>)
    requires snapshots != [] && Grows(snapshots) && scan.Follows(snapshots[0])
    modifies scan
    ensures scan.Follows(snapshots[|snapshots| - 1])
    ensures error.None? ==>
      var turn := snapshots[|snapshots| - 1][scan.start..];
      && scan.Found() == Batch(scan.initial, turn, scan.decode, scan.marker)
      && done == IsDone(Batch(scan.initial, turn, scan.decode, scan.marker), scan.marker)
  {
    hide Batch, IsDone;
    done, error := scan.Advance(snapshots[0], snapshots[0]);
    for i := 1 to |snapshots|
      invariant scan.Follows(snapshots[i - 1])
      invariant error.None? ==>
        var turn := snapshots[i - 1][scan.start..];
        && scan.Found() == Batch(scan.initial, turn, scan.decode, scan.marker)
        && done == IsDone(Batch(scan.initial, turn, scan.decode, scan.marker), scan.marker)
    {
      done, error := scan.Advance(snapshots[i - 1], snapshots[i]);
    }
  }
}
