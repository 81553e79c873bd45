/**
  The backup log reader of cmd/den-tool/ops_collect_proxmox.go `parseVzdumpTask`, over lines already recognised by its
  patterns.  A time that does not parse is absent.
*/
module Vzdump {
  import opened Core

  datatype Line =
    | GuestStart(vmid: nat)
    | FinishedAt(at: Option<int>)
    | StartedAt(at: Option<int>)
    | Warning(text: string)
    | GuestError(message: string)
    | GuestEnd(seconds: nat)
    | Other

  datatype RunState = Running | Success | WithWarnings | Failed

  datatype Run = Run(vmid: nat, startedAt: int, state: RunState, error: Option<string>, warnings: seq<string>,
                     finishedAt: Option<int>)

  /** `current` is the run being read; its state, error and finish are not settled yet. */
  datatype Parser = Parser(runs: seq<Run>, current: Option<Run>, lastAt: int)

  // ---- The parser -------------------------------------------------------------------------------------------------

  /** `finish`: close the current run; a success with warnings is a warning, a failure without a reason gets one. */
  function Finish(p: Parser, state: RunState, at: int): (r: Parser) {
    if p.current.None? then p else
      var run := p.current.value;
      var settled := if state.Success? && run.warnings != [] then WithWarnings else state;
      var error :=
        if state.Failed? && run.error.None? then Some("the task log has no result for this guest") else run.error;
      var finished := if settled.Running? then None else Some(at);
      Parser(p.runs + [run.(state := settled, error := error, finishedAt := finished)], None, p.lastAt)
  }

  /** A finish line after a guest's result moves the finish time of the run just closed. */
  function MoveFinish(p: Parser, at: int): (r: Parser) {
    var last := |p.runs| - 1;
    if p.current.None? && p.runs != [] && !p.runs[last].state.Running?
    then p.(lastAt := at, runs := p.runs[last := p.runs[last].(finishedAt := Some(at))])
    else p.(lastAt := at)
  }

  function Step(p: Parser, line: Line): (r: Parser) {
    match line
    case GuestStart(vmid) =>
      var q := Finish(p, Failed, p.lastAt);
      q.(current := Some(Run(vmid, q.lastAt, Running, None, [], None)))
    case FinishedAt(at) => if at.Some? then MoveFinish(p, at.value) else p
    case _ =>
      if p.current.None? then p else
        var run := p.current.value;
        match line
        case StartedAt(Some(at)) => p.(current := Some(run.(startedAt := at)), lastAt := at)
        case Warning(text) => p.(current := Some(run.(warnings := run.warnings + [text])))
        case GuestError(message) => Finish(p.(current := Some(run.(error := Some(message)))), Failed, p.lastAt)
        case GuestEnd(seconds) => Finish(p, Success, run.startedAt + seconds)
        case _ => p
  }

  function Fold(start: int, lines: seq<Line>): (p: Parser)
    decreases |lines|
  {
    if lines == [] then Parser([], None, start)
    else Step(Fold(start, lines[..|lines| - 1]), lines[|lines| - 1])
  }

  /** The end of the backup settles a run that is still open: it runs on, or the backup ended before it. */
  function Close(p: Parser, endTime: int, status: string, now: int): (r: Parser) {
    if p.current.None? then p
    else if endTime == 0 then Finish(p, Running, now)
    else
      var error := Some("vzdump task ended before this guest finished: " + status);
      Finish(p.(current := Some(p.current.value.(error := error))), Failed, endTime)
  }

  function Parse(start: int, lines: seq<Line>, endTime: int, status: string, now: int): (runs: seq<Run>) {
    Close(Fold(start, lines), endTime, status, now).runs
  }

  // ---- What a log says ----------------------------------------------------------------------------------------------

  /** A guest and the lines between its start and the next. */
  datatype Segment = Segment(vmid: nat, lines: seq<Line>)

  function Segments(lines: seq<Line>): (r: seq<Segment>)
    decreases |lines|
  {
    if lines == [] then [] else
      var front := Segments(lines[..|lines| - 1]);
      var line := lines[|lines| - 1];
      if line.GuestStart? then front + [Segment(line.vmid, [])]
      else if front == [] then []
      else front[|front| - 1 := front[|front| - 1].(lines := front[|front| - 1].lines + [line])]
  }

  /** The first result line of a segment decides; warnings before it count. */
  function Verdict(lines: seq<Line>): (r: Option<RunState>)
    decreases |lines|
  {
    if lines == [] then None else
      var front := lines[..|lines| - 1];
      if Verdict(front).Some? then Verdict(front)
      else match lines[|lines| - 1]
           case GuestError(_) => Some(Failed)
           case GuestEnd(_) => Some(if Warned(front) then WithWarnings else Success)
           case _ => None
  }

  predicate Warned(lines: seq<Line>) {
    exists i :: 0 <= i < |lines| && lines[i].Warning?
  }

  /** The state a run must have: its segment's verdict, or what the absence of one means. */
  function StateOf(segments: seq<Segment>, k: nat, endTime: int): (s: RunState)
    requires k < |segments|
  {
    match Verdict(segments[k].lines)
    case Some(s) => s
    case None => if k == |segments| - 1 && endTime == 0 then Running else Failed
  }

  /** A closed run: failed ones have a reason, and all have a finish time. */
  predicate Settled(r: Run) {
    !r.state.Running? && r.finishedAt.Some? && (r.state.Failed? ==> r.error.Some?)
  }

  ghost predicate Reads(p: Parser, segments: seq<Segment>) {
    && |segments| == |p.runs| + (if p.current.Some? then 1 else 0)
    && (forall k :: 0 <= k < |p.runs| ==>
          && Settled(p.runs[k]) && p.runs[k].vmid == segments[k].vmid
          && p.runs[k].state == (if Verdict(segments[k].lines).Some? then Verdict(segments[k].lines).value else Failed))
    && (p.current.Some? ==>
          && p.current.value.vmid == segments[|p.runs|].vmid && Verdict(segments[|p.runs|].lines).None?
          && (p.current.value.warnings != [] <==> Warned(segments[|p.runs|].lines)))
    && (p.current.None? && segments != [] ==> Verdict(segments[|segments| - 1].lines).Some?)
  }

  lemma OneMoreLine(lines: seq<Line>, line: Line)
    ensures Warned(lines + [line]) <==> Warned(lines) || line.Warning?
    ensures Verdict(lines + [line]) == (
              if Verdict(lines).Some? then Verdict(lines)
              else match line
                   case GuestError(_) => Some(Failed)
                   case GuestEnd(_) => Some(if Warned(lines) then WithWarnings else Success)
                   case _ => None)
  {
    var all := lines + [line];
    assert all[..|lines|] == lines && all[|lines|] == line;
    if Warned(lines) {
      var i :| 0 <= i < |lines| && lines[i].Warning?;
      assert all[i].Warning?;
    }
  }

  /** A line that is not a start extends the last segment. */
  lemma LineRead(p: Parser, segments: seq<Segment>, line: Line)
    requires Reads(p, segments) && segments != [] && !line.GuestStart?
    ensures var last := |segments| - 1;
            Reads(Step(p, line), segments[last := segments[last].(lines := segments[last].lines + [line])])
  {
    OneMoreLine(segments[|segments| - 1].lines, line);
    hide Verdict, Warned;
  }

  lemma StartRead(p: Parser, segments: seq<Segment>, vmid: nat)
    requires Reads(p, segments)
    ensures Reads(Step(p, GuestStart(vmid)), segments + [Segment(vmid, [])])
  {
  }

  lemma IgnoredLine(p: Parser, line: Line)
    requires Reads(p, []) && !line.GuestStart?
    ensures Reads(Step(p, line), [])
  {
  }

  lemma {:induction false} FoldReads(start: int, lines: seq<Line>)
    ensures Reads(Fold(start, lines), Segments(lines))
    decreases |lines|
  {
    hide Reads, Step;
    if lines == [] {
      NothingRead(start);
    } else {
      var front, line := lines[..|lines| - 1], lines[|lines| - 1];
      FoldReads(start, front);
      if line.GuestStart? {
        StartRead(Fold(start, front), Segments(front), line.vmid);
      } else if Segments(front) == [] {
        IgnoredLine(Fold(start, front), line);
      } else {
        LineRead(Fold(start, front), Segments(front), line);
      }
    }
  }

  lemma NothingRead(start: int)
    ensures Reads(Parser([], None, start), [])
  {
  }

  /**
    One run per start line, in order.  A run's state depends only on the lines up to the next start, and for a last
    run without a result on whether the backup has ended; so only the last run can be running.  Failed runs have an
    error, and a finish time is present exactly when the run is not running.
  */
  lemma ParseMeaning(start: int, lines: seq<Line>, endTime: int, status: string, now: int)
    ensures var runs, segments := Parse(start, lines, endTime, status, now), Segments(lines);
            && |runs| == |segments|
            && (forall k :: 0 <= k < |runs| ==>
                  && runs[k].vmid == segments[k].vmid && runs[k].state == StateOf(segments, k, endTime)
                  && (runs[k].state.Failed? ==> runs[k].error.Some?)
                  && (runs[k].finishedAt.Some? <==> !runs[k].state.Running?))
  {
    FoldReads(start, lines);
    hide Fold, Segments, Verdict, Warned;
    var p := Fold(start, lines);
    assert p.current.Some? ==> Verdict(Segments(lines)[|p.runs|].lines).None?;
  }

  lemma {:induction false} StartsCounted(lines: seq<Line>)
    ensures |Segments(lines)| == |Starts(lines)|
    ensures forall k :: 0 <= k < |Segments(lines)| ==> Segments(lines)[k].vmid == Starts(lines)[k]
    decreases |lines|
  {
    if lines != [] { StartsCounted(lines[..|lines| - 1]); }
  }

  /** The guests of the start lines. */
  function Starts(lines: seq<Line>): (r: seq<nat>)
    decreases |lines|
  {
    if lines == [] then [] else
      var line := lines[|lines| - 1];
      Starts(lines[..|lines| - 1]) + if line.GuestStart? then [line.vmid] else []
  }

  // ---- The loop -----------------------------------------------------------------------------------------------------

  /** `parseVzdumpTask`. */
  method ParseVzdumpTask(start: int, lines: seq<Line>, endTime: int, status: string, now: int) returns (runs: seq<Run>)
    ensures runs == Parse(start, lines, endTime, status, now)
    ensures |runs| == |Starts(lines)| && forall k :: 0 <= k < |runs| ==> runs[k].vmid == Starts(lines)[k]
  {
    ParseMeaning(start, lines, endTime, status, now);
    StartsCounted(lines);
    var p := Parser([], None, start);
    for i := 0 to |lines|
      invariant p == Fold(start, lines[..i])
    {
      assert lines[..i + 1][..i] == lines[..i] && lines[..i + 1][i] == lines[i];
      p := Read(p, lines[i]);
    }
    assert lines[..|lines|] == lines;
    p := Close(p, endTime, status, now);
    return p.runs;
  }

  method Read(p0: Parser, line: Line) returns (p: Parser)
    ensures p == Step(p0, line)
  {
    p := p0;
    match line {
      case GuestStart(vmid) =>
        p := Finish(p, Failed, p.lastAt);
        p := p.(current := Some(Run(vmid, p.lastAt, Running, None, [], None)));
      case FinishedAt(at) =>
        if at.Some? { p := MoveFinish(p, at.value); }
      case StartedAt(at) =>
        if p.current.Some? && at.Some? {
          p := p.(current := Some(p.current.value.(startedAt := at.value)), lastAt := at.value);
        }
      case Warning(text) =>
        if p.current.Some? {
          p := p.(current := Some(p.current.value.(warnings := p.current.value.warnings + [text])));
        }
      case GuestError(message) =>
        if p.current.Some? {
          p := Finish(p.(current := Some(p.current.value.(error := Some(message)))), Failed, p.lastAt);
        }
      case GuestEnd(seconds) =>
        if p.current.Some? { p := Finish(p, Success, p.current.value.startedAt + seconds); }
      case Other =>
    }
  }
}
