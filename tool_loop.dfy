/**
 * The two loops every tool wrapper runs, stated once: the per-line loop that
 * folds one attempt's output into its locals, and the retry loop
 * `while retries <= max_retries` around it. A tool supplies how it reads a
 * decoded event, how it classifies a finished attempt, and which failures it
 * retries.
 */
module ToolLoop {
  import opened Basics
  import opened Text
  import opened ToolCommon

  // ---------------------------------------------------------------------------
  // The per-line loop
  // ---------------------------------------------------------------------------

  /** How a tool reads its stream: the handler of a decoded event, and whether
      an undecodable line is also echoed into the error message (Codex). */
  datatype Interp<!E> = Interp(onEvent: (Gathered, E) -> Gathered, echoUndecodable: bool)

  /** One iteration: push the line on the tail buffer, then decode and handle
      it; an undecodable line is counted, a malformed one ends the loop. */
  function Step<E>(t: Interp<E>, acc: Acc, line: Line<E>): (r: Acc)
    ensures r.lastLines == PushTail(acc.lastLines, line.text)
    ensures r.aborted == (acc.aborted || line.parsed.Malformed?)
    ensures r.jsonDecodeErrors == acc.jsonDecodeErrors + if line.parsed.Undecodable? then 1 else 0
  {
    var a := acc.(lastLines := PushTail(acc.lastLines, line.text));
    match line.parsed
    case Decoded(e) => a.(got := t.onEvent(a.got, e))
    case Undecodable =>
      var g := a.got;
      a.(jsonDecodeErrors := a.jsonDecodeErrors + 1,
         got := if t.echoUndecodable
                then g.(errMessage := g.errMessage + "\n\n[json decode error] " + line.text)
                else g)
    case Malformed(_, detail) => Unexpected(a, detail)
  }

  /** The locals after the loop has read `lines`, stopping at the first
      malformed line. */
  function Fold<E>(t: Interp<E>, lines: seq<Line<E>>): Acc
    decreases |lines|
  {
    if lines == [] then Initial
    else
      var prev := Fold(t, lines[..|lines| - 1]);
      if prev.aborted then prev else Step(t, prev, lines[|lines| - 1])
  }

  /** How many lines the loop reads before it stops. */
  function Consumed<E>(t: Interp<E>, lines: seq<Line<E>>): (n: nat)
    ensures n <= |lines|
    decreases |lines|
  {
    if lines == [] then 0
    else if Fold(t, lines[..|lines| - 1]).aborted then Consumed(t, lines[..|lines| - 1])
    else |lines|
  }

  /** The handler of `t` keeps the error flag and the error kind in step. */
  ghost predicate KeepsFlagsAgree<E(!new)>(t: Interp<E>) {
    forall g: Gathered, e: E :: FlagsAgree(g) ==> FlagsAgree(t.onEvent(g, e))
  }

  function CountUndecodable<E>(lines: seq<Line<E>>): nat
    decreases |lines|
  {
    if lines == [] then 0
    else CountUndecodable(lines[..|lines| - 1]) + if lines[|lines| - 1].parsed.Undecodable? then 1 else 0
  }

  /** Once the loop has broken out, later lines change nothing. */
  lemma {:induction false} FoldAbortedStable<E>(t: Interp<E>, lines: seq<Line<E>>, k: nat)
    requires k <= |lines| && Fold(t, lines[..k]).aborted
    ensures Fold(t, lines) == Fold(t, lines[..k])
    decreases |lines|
  {
    if k < |lines| {
      var init := lines[..|lines| - 1];
      assert init[..k] == lines[..k];
      FoldAbortedStable(t, init, k);
    } else {
      assert lines[..k] == lines;
    }
  }

  /** A loop that broke out did so on an unexpected exception, which it
      recorded as the error. */
  lemma {:induction false} FoldAbortedUnexpected<E>(t: Interp<E>, lines: seq<Line<E>>)
    ensures Fold(t, lines).aborted ==>
      Fold(t, lines).got.hadError && Fold(t, lines).got.errorKind == Some(UnexpectedException)
    decreases |lines|
  {
    if lines != [] {
      FoldAbortedUnexpected(t, lines[..|lines| - 1]);
    }
  }

  /** The loop reads every line up to and including the first malformed one,
      and all of them when there is none. */
  lemma {:induction false} FoldStopsAtMalformed<E>(t: Interp<E>, lines: seq<Line<E>>)
    ensures var n := Consumed(t, lines);
      && (Fold(t, lines).aborted <==> exists i :: 0 <= i < |lines| && lines[i].parsed.Malformed?)
      && (Fold(t, lines).aborted ==>
            0 < n && lines[n - 1].parsed.Malformed?
            && forall i :: 0 <= i < n - 1 ==> !lines[i].parsed.Malformed?)
      && (!Fold(t, lines).aborted ==> n == |lines|)
    decreases |lines|
  {
    if lines != [] {
      var k := |lines| - 1;
      var init := lines[..k];
      FoldStopsAtMalformed(t, init);
      assert forall i :: 0 <= i < k ==> init[i] == lines[i];
    }
  }

  /** Reading on: a loop that has broken out has read no further; otherwise
      it has read one more line. */
  lemma ConsumedStep<E>(t: Interp<E>, lines: seq<Line<E>>)
    requires lines != []
    ensures var init := lines[..|lines| - 1];
      && (Fold(t, init).aborted ==> Fold(t, lines) == Fold(t, init)
                                    && Consumed(t, lines) == Consumed(t, init))
      && (!Fold(t, init).aborted ==> Consumed(t, init) == |init|
                                     && Fold(t, lines) == Step(t, Fold(t, init), lines[|init|])
                                     && Consumed(t, lines) == |lines|)
  {
    var init := lines[..|lines| - 1];
    if init != [] && !Fold(t, init).aborted {
      assert !Fold(t, init[..|init| - 1]).aborted;
    }
  }

  /** After the loop the tail buffer holds the last 20 of the lines read,
      newest last: never more than 20 entries. */
  lemma {:induction false} FoldTail<E>(t: Interp<E>, lines: seq<Line<E>>)
    ensures Fold(t, lines).lastLines == Window(Texts(lines[..Consumed(t, lines)]))
    ensures |Fold(t, lines).lastLines| <= TailLimit
    decreases |lines|
  {
    if lines != [] {
      var k := |lines| - 1;
      var init := lines[..k];
      FoldTail(t, init);
      ConsumedStep(t, lines);
      if Fold(t, init).aborted {
        var n := Consumed(t, init);
        assert lines[..n] == init[..n];
      } else {
        assert init[..k] == init;
        WindowStep(lines, k);
        assert lines[..k + 1] == lines;
      }
    }
  }

  /** The decode-error count is the number of undecodable lines read. */
  lemma {:induction false} FoldDecodeErrors<E>(t: Interp<E>, lines: seq<Line<E>>)
    ensures Fold(t, lines).jsonDecodeErrors == CountUndecodable(lines[..Consumed(t, lines)])
    decreases |lines|
  {
    if lines != [] {
      var k := |lines| - 1;
      var init := lines[..k];
      FoldDecodeErrors(t, init);
      ConsumedStep(t, lines);
      if Fold(t, init).aborted {
        var n := Consumed(t, init);
        assert lines[..n] == init[..n];
      } else {
        assert init[..k] == init;
        assert lines[..k + 1] == lines;
        assert lines[..k + 1][..k] == init;
      }
    }
  }

  /** The per-line loop of a tool: `next(gen)` until the stream ends, keeping
      the last 20 lines and breaking out on an unexpected exception. */
  method Consume<E>(t: Interp<E>, lines: seq<Line<E>>) returns (acc: Acc)
    ensures acc == Fold(t, lines)
  {
    var got := Nothing;
    var jsonDecodeErrors := 0;
    var lastLines: seq<string> := [];
    var i := 0;
    while i < |lines|
      invariant 0 <= i <= |lines|
      invariant Fold(t, lines[..i]) == Acc(got, jsonDecodeErrors, lastLines, false)
    {
      var line := lines[i];
      assert lines[..i + 1][..i] == lines[..i];
      lastLines := lastLines + [line.text];
      if |lastLines| > TailLimit {
        lastLines := lastLines[1..];
      }
      match line.parsed {
        case Decoded(e) =>
          got := t.onEvent(got, e);
        case Undecodable =>
          jsonDecodeErrors := jsonDecodeErrors + 1;
          if t.echoUndecodable {
            got := got.(errMessage := got.errMessage + "\n\n[json decode error] " + line.text);
          }
        case Malformed(_, detail) =>
          acc := Unexpected(Acc(got, jsonDecodeErrors, lastLines, false), detail);
          FoldAbortedStable(t, lines, i + 1);
          return;
      }
      i := i + 1;
    }
    assert lines[..i] == lines;
    acc := Acc(got, jsonDecodeErrors, lastLines, false);
  }

  /** With such a handler, every state the per-line loop reaches has its
      error flag and error kind in step: an undecodable line touches neither,
      and the break on a malformed line sets both. */
  lemma {:induction false} FoldFlagsAgree<E(!new)>(t: Interp<E>, lines: seq<Line<E>>)
    requires KeepsFlagsAgree(t)
    ensures FlagsAgree(Fold(t, lines).got)
    decreases |lines|
  {
    if lines != [] {
      FoldFlagsAgree(t, lines[..|lines| - 1]);
    }
  }

  // ---------------------------------------------------------------------------
  // One attempt
  // ---------------------------------------------------------------------------

  /** Which failed attempts a tool runs again (while retries remain). */
  datatype RetryPolicy = RetryPolicy(retryTimeouts: bool, retryable: Option<ErrorKind> -> bool)

  /** A tool: its stream reader, its classification of a finished attempt from
      the locals, the exit code and the raw line count, and its retry policy. */
  datatype Tool<!E> = Tool(
    interp: Interp<E>,
    classify: (Acc, Option<int>, nat) -> Attempt,
    policy: RetryPolicy)

  /** The result of one pass of the retry loop's body. */
  datatype Outcome = Ran(attempt: Attempt) | Absent(message: string)

  /** One attempt on the given run. A loop that broke out never reaches the
      generator's return value (so no exit code) nor a timeout. */
  function OutcomeOf<E>(tool: Tool<E>, run: Run<E>): Outcome {
    match run
    case NotFound(message) => Absent(message)
    case Completed(lines, exitCode, raw) =>
      var acc := Fold(tool.interp, lines);
      Ran(if acc.aborted then tool.classify(acc, None, 0) else tool.classify(acc, exitCode, raw))
    case TimedOut(lines, idle, message) =>
      var acc := Fold(tool.interp, lines);
      Ran(if acc.aborted then tool.classify(acc, None, 0) else TimedOutAttempt(acc, idle, message))
  }

  method RunAttempt<E>(tool: Tool<E>, run: Run<E>) returns (outcome: Outcome)
    ensures outcome == OutcomeOf(tool, run)
  {
    match run {
      case NotFound(message) =>
        outcome := Absent(message);
      case Completed(lines, exitCode, raw) =>
        var acc := Consume(tool.interp, lines);
        if acc.aborted {
          outcome := Ran(tool.classify(acc, None, 0));
        } else {
          outcome := Ran(tool.classify(acc, exitCode, raw));
        }
      case TimedOut(lines, idle, message) =>
        var acc := Consume(tool.interp, lines);
        if acc.aborted {
          outcome := Ran(tool.classify(acc, None, 0));
        } else {
          outcome := Ran(TimedOutAttempt(acc, idle, message));
        }
    }
  }

  // ---------------------------------------------------------------------------
  // The retry loop
  // ---------------------------------------------------------------------------

  /** A failed attempt is run again when the policy allows it (and retries
      remain). */
  predicate WillRetry(p: RetryPolicy, a: Attempt) {
    !a.success && if a.timedOut then p.retryTimeouts else p.retryable(a.state.got.errorKind)
  }

  /** `while retries <= max_retries`, where attempt `retries` meets
      `runs[retries]`: stop on success or on a missing CLI; on failure save
      `last_error` and the tail, then retry or stop. */
  function Loop<E>(tool: Tool<E>, runs: seq<Run<E>>, maxRetries: nat, retries: nat,
                   lastError: Option<LastError>, allLastLines: seq<string>): (end: LoopEnd)
    requires retries <= maxRetries < |runs|
    ensures retries <= end.retries <= maxRetries
    decreases maxRetries - retries
  {
    match OutcomeOf(tool, runs[retries])
    case Absent(message) => Missing(message, retries)
    case Ran(a) =>
      if a.success then Finished(true, a, retries, lastError, allLastLines)
      else if WillRetry(tool.policy, a) && retries < maxRetries then
        Loop(tool, runs, maxRetries, retries + 1, Some(LastErrorOf(a)), a.state.lastLines)
      else Finished(false, a, retries, Some(LastErrorOf(a)), a.state.lastLines)
  }

  /** Every attempt before the last one failed in a way the policy retries. */
  lemma {:induction false} LoopRetriedBefore<E>(tool: Tool<E>, runs: seq<Run<E>>, maxRetries: nat,
                                                retries: nat, lastError: Option<LastError>,
                                                allLastLines: seq<string>, j: nat)
    requires retries <= maxRetries < |runs|
    requires retries <= j < Loop(tool, runs, maxRetries, retries, lastError, allLastLines).retries
    ensures OutcomeOf(tool, runs[j]).Ran?
    ensures WillRetry(tool.policy, OutcomeOf(tool, runs[j]).attempt)
    decreases maxRetries - retries
  {
    var o := OutcomeOf(tool, runs[retries]);
    if j > retries {
      var a := o.attempt;
      LoopRetriedBefore(tool, runs, maxRetries, retries + 1, Some(LastErrorOf(a)),
                        a.state.lastLines, j);
    }
  }

  /** The loop ends on the attempt numbered `end.retries`: it found no CLI, or
      it succeeded, or it failed with no retry left or allowed; after a failure
      `last_error` and the saved tail are those of that final attempt. */
  lemma {:induction false} LoopEndsOn<E>(tool: Tool<E>, runs: seq<Run<E>>, maxRetries: nat,
                                         retries: nat, lastError: Option<LastError>,
                                         allLastLines: seq<string>)
    requires retries <= maxRetries < |runs|
    ensures var end := Loop(tool, runs, maxRetries, retries, lastError, allLastLines);
      && (end.Missing? ==> OutcomeOf(tool, runs[end.retries]) == Absent(end.message))
      && (end.Finished? ==> OutcomeOf(tool, runs[end.retries]) == Ran(end.last)
                            && end.success == end.last.success)
      && (end.Finished? && !end.success ==>
            && end.lastError == Some(LastErrorOf(end.last))
            && end.allLastLines == end.last.state.lastLines
            && (!WillRetry(tool.policy, end.last) || end.retries == maxRetries))
    decreases maxRetries - retries
  {
    var o := OutcomeOf(tool, runs[retries]);
    if o.Ran? && WillRetry(tool.policy, o.attempt) && retries < maxRetries {
      var a := o.attempt;
      LoopEndsOn(tool, runs, maxRetries, retries + 1, Some(LastErrorOf(a)), a.state.lastLines);
    }
  }

  /** After a success `last_error` still describes the attempt before it (or
      is unset when the first attempt succeeded). */
  lemma {:induction false} LoopSuccessKeepsLastError<E>(tool: Tool<E>, runs: seq<Run<E>>,
                                                        maxRetries: nat, retries: nat,
                                                        lastError: Option<LastError>,
                                                        allLastLines: seq<string>)
    requires retries <= maxRetries < |runs|
    ensures var end := Loop(tool, runs, maxRetries, retries, lastError, allLastLines);
      end.Finished? && end.success ==>
        if end.retries == retries then end.lastError == lastError
        else OutcomeOf(tool, runs[end.retries - 1]).Ran?
             && end.lastError == Some(LastErrorOf(OutcomeOf(tool, runs[end.retries - 1]).attempt))
    decreases maxRetries - retries
  {
    var o := OutcomeOf(tool, runs[retries]);
    if o.Ran? && WillRetry(tool.policy, o.attempt) && retries < maxRetries {
      var a := o.attempt;
      LoopSuccessKeepsLastError(tool, runs, maxRetries, retries + 1, Some(LastErrorOf(a)),
                                a.state.lastLines);
    }
  }

  /** The retry loop of a tool; `runs[i]` is what the CLI does on attempt `i`. */
  method RetryLoop<E>(tool: Tool<E>, runs: seq<Run<E>>, maxRetries: nat) returns (end: LoopEnd)
    requires maxRetries < |runs|
    ensures end == Loop(tool, runs, maxRetries, 0, None, [])
  {
    var retries := 0;
    var lastError: Option<LastError> := None;
    var allLastLines: seq<string> := [];
    while retries <= maxRetries
      invariant retries <= maxRetries
      invariant Loop(tool, runs, maxRetries, retries, lastError, allLastLines)
             == Loop(tool, runs, maxRetries, 0, None, [])
      decreases maxRetries - retries
    {
      var outcome := RunAttempt(tool, runs[retries]);
      match outcome {
        case Absent(message) =>
          return Missing(message, retries);
        case Ran(a) =>
          if a.success {
            return Finished(true, a, retries, lastError, allLastLines);
          }
          allLastLines := a.state.lastLines;
          lastError := Some(LastErrorOf(a));
          if WillRetry(tool.policy, a) && retries < maxRetries {
            retries := retries + 1;
          } else {
            return Finished(false, a, retries, lastError, allLastLines);
          }
      }
    }
    assert false;
  }

  /** What `metrics.finish` records once the retry loop is over: after a
      missing CLI only COMMAND_NOT_FOUND and the retry count (every other
      argument keeps its default); otherwise the final attempt's outcome,
      kind, response size, exit code and counters. */
  predicate RecordsEnd(m: MetricsCollector, end: LoopEnd)
    reads m
  {
    && m.finished && m.retries == end.retries
    && match end
       case Missing(_, _) =>
         && !m.success && m.errorKind == Some(CommandNotFound) && m.exitCode == None
         && m.resultChars == 0 && m.resultLines == 0
         && m.rawOutputLines == 0 && m.jsonDecodeErrors == 0
       case Finished(success, last, _, _, _) =>
         var response := last.state.got.response;
         && m.success == success && m.errorKind == last.state.got.errorKind
         && m.exitCode == last.exitCode && m.rawOutputLines == last.rawOutputLines
         && m.jsonDecodeErrors == last.state.jsonDecodeErrors
         && m.resultChars == |response|
         && m.resultLines == if response == "" then 0 else |Split(response, '\n')|
  }

  /** The `metrics.finish` call that follows the retry loop. */
  method FinishAfterLoop(metrics: MetricsCollector, end: LoopEnd, durationMs: int)
    modifies metrics
    ensures RecordsEnd(metrics, end) && metrics.durationMs == durationMs
  {
    match end {
      case Missing(_, retries) =>
        metrics.Finish(false, Some(CommandNotFound), "", None, 0, 0, retries, durationMs);
      case Finished(success, last, retries, _, _) =>
        metrics.Finish(success, last.state.got.errorKind, last.state.got.response, last.exitCode,
                       last.rawOutputLines, last.state.jsonDecodeErrors, retries, durationMs);
    }
  }
}
