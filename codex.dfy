/**
 * The Codex CLI wrapper (`codex_tool`): how it reads the JSON events of
 * `codex exec --json`, how it classifies an attempt, which failures it
 * retries, the result it reports and the command line it runs.
 */
module Codex {
  import opened Basics
  import opened Text
  import opened ToolCommon
  import opened ToolLoop

  // ---------------------------------------------------------------------------
  // The "Reconnecting... n/m" filter: `re.match(r'^Reconnecting\.\.\.\s+\d+/\d+$', m)`
  // ---------------------------------------------------------------------------

  const ReconnectingPrefix: string := "Reconnecting..."

  /** `\s`, restricted to ASCII: space, tab, line feed, carriage return,
      vertical tab and form feed. */
  predicate IsSpace(c: char) {
    c == ' ' || c == '\t' || c == '\n' || c == '\r' || c as int == 11 || c as int == 12
  }

  predicate AllSpaces(s: string) {
    forall i :: 0 <= i < |s| ==> IsSpace(s[i])
  }

  predicate AllDigits(s: string) {
    forall i :: 0 <= i < |s| ==> IsDigit(s[i])
  }

  /** The length of the longest prefix of `s` made of whitespace. */
  function SpaceSpan(s: string): (n: nat)
    ensures n <= |s| && AllSpaces(s[..n])
    ensures n < |s| ==> !IsSpace(s[n])
    decreases |s|
  {
    if s == [] || !IsSpace(s[0]) then 0
    else
      var n := 1 + SpaceSpan(s[1..]);
      assert forall i :: 1 <= i < n ==> s[..n][i] == s[1..][..n - 1][i - 1];
      n
  }

  /** The length of the longest prefix of `s` made of digits. */
  function DigitSpan(s: string): (n: nat)
    ensures n <= |s| && AllDigits(s[..n])
    ensures n < |s| ==> !IsDigit(s[n])
    decreases |s|
  {
    if s == [] || !IsDigit(s[0]) then 0
    else
      var n := 1 + DigitSpan(s[1..]);
      assert forall i :: 1 <= i < n ==> s[..n][i] == s[1..][..n - 1][i - 1];
      n
  }

  /** The regular expression, matched left to right: the prefix, at least one
      whitespace, digits, a slash, digits, and the end of the text or a final
      line feed (Python's `$`). */
  predicate IsReconnecting(m: string) {
    var p := |ReconnectingPrefix|;
    |m| >= p && m[..p] == ReconnectingPrefix && SpacesThenCount(m[p..])
  }

  /** `\s+\d+/\d+$` */
  predicate SpacesThenCount(t: string) {
    var w := SpaceSpan(t);
    w > 0 && CountThenEnd(t[w..])
  }

  /** `\d+/\d+$` */
  predicate CountThenEnd(u: string) {
    var d := DigitSpan(u);
    0 < d < |u| && u[d] == '/' && DigitsThenEnd(u[d + 1..])
  }

  /** `\d+$` */
  predicate DigitsThenEnd(v: string) {
    var d := DigitSpan(v);
    d > 0 && (v[d..] == "" || v[d..] == "\n")
  }

  /** The shape the regular expression describes, written as a decomposition. */
  predicate ReconnectingShape(m: string, w: string, d1: string, d2: string, nl: string) {
    && |w| > 0 && AllSpaces(w)
    && |d1| > 0 && AllDigits(d1)
    && |d2| > 0 && AllDigits(d2)
    && (nl == "" || nl == "\n")
    && m == ReconnectingPrefix + w + d1 + "/" + d2 + nl
  }

  lemma SpaceSpanOf(a: string, b: string)
    requires AllSpaces(a) && (b == [] || !IsSpace(b[0]))
    ensures SpaceSpan(a + b) == |a|
    decreases |a|
  {
    if a != [] {
      assert (a + b)[1..] == a[1..] + b;
      SpaceSpanOf(a[1..], b);
    }
  }

  lemma DigitSpanOf(a: string, b: string)
    requires AllDigits(a) && (b == [] || !IsDigit(b[0]))
    ensures DigitSpan(a + b) == |a|
    decreases |a|
  {
    if a != [] {
      assert (a + b)[1..] == a[1..] + b;
      DigitSpanOf(a[1..], b);
    }
  }

  lemma DigitsThenEndOf(d2: string, nl: string)
    requires |d2| > 0 && AllDigits(d2) && (nl == "" || nl == "\n")
    ensures DigitsThenEnd(d2 + nl)
  {
    DigitSpanOf(d2, nl);
    assert (d2 + nl)[|d2|..] == nl;
  }

  lemma CountThenEndOf(d1: string, d2: string, nl: string)
    requires |d1| > 0 && AllDigits(d1) && |d2| > 0 && AllDigits(d2) && (nl == "" || nl == "\n")
    ensures CountThenEnd(d1 + "/" + d2 + nl)
  {
    var u := d1 + "/" + d2 + nl;
    assert u == d1 + ("/" + d2 + nl);
    DigitSpanOf(d1, "/" + d2 + nl);
    assert u[|d1|] == '/';
    assert u[|d1| + 1..] == d2 + nl;
    DigitsThenEndOf(d2, nl);
  }

  /** Every text of the described shape is recognised. */
  lemma ReconnectingComplete(m: string, w: string, d1: string, d2: string, nl: string)
    requires ReconnectingShape(m, w, d1, d2, nl)
    ensures IsReconnecting(m)
  {
    var p := |ReconnectingPrefix|;
    var u := d1 + "/" + d2 + nl;
    var t := w + u;
    assert m == ReconnectingPrefix + t;
    assert m[..p] == ReconnectingPrefix && m[p..] == t;
    SpaceSpanOf(w, u);
    assert t[|w|..] == u;
    CountThenEndOf(d1, d2, nl);
  }

  /** The parts of a text `\d+$` matches. */
  lemma DigitsThenEndParts(v: string) returns (d2: string, nl: string)
    requires DigitsThenEnd(v)
    ensures |d2| > 0 && AllDigits(d2) && (nl == "" || nl == "\n") && v == d2 + nl
  {
    var d := DigitSpan(v);
    d2, nl := v[..d], v[d..];
    assert v == v[..d] + v[d..];
  }

  /** The parts of a text `\d+/\d+$` matches. */
  lemma CountThenEndParts(u: string) returns (d1: string, d2: string, nl: string)
    requires CountThenEnd(u)
    ensures |d1| > 0 && AllDigits(d1) && |d2| > 0 && AllDigits(d2) && (nl == "" || nl == "\n")
    ensures u == d1 + "/" + d2 + nl
  {
    var d := DigitSpan(u);
    d1 := u[..d];
    d2, nl := DigitsThenEndParts(u[d + 1..]);
    assert u == u[..d] + [u[d]] + u[d + 1..];
  }

  /** A text cut after its prefix and again after its whitespace is the
      concatenation of the pieces. */
  lemma Reassemble(m: string, prefix: string, t: string, sw: nat, d1: string, d2: string, nl: string)
    requires |prefix| <= |m| && m[..|prefix|] == prefix && t == m[|prefix|..]
    requires sw <= |t| && t[sw..] == d1 + "/" + d2 + nl
    ensures m == prefix + t[..sw] + d1 + "/" + d2 + nl
  {
    assert t == t[..sw] + t[sw..];
    assert m == prefix + t;
  }

  /** The parts of a recognised text. */
  lemma ReconnectingParts(m: string) returns (w: string, d1: string, d2: string, nl: string)
    requires IsReconnecting(m)
    ensures ReconnectingShape(m, w, d1, d2, nl)
  {
    var p := |ReconnectingPrefix|;
    var t := m[p..];
    var sw := SpaceSpan(t);
    w := t[..sw];
    d1, d2, nl := CountThenEndParts(t[sw..]);
    Reassemble(m, ReconnectingPrefix, t, sw, d1, d2, nl);
  }

  /** Every recognised text has the described shape. */
  lemma ReconnectingSound(m: string)
    requires IsReconnecting(m)
    ensures exists w, d1, d2, nl :: ReconnectingShape(m, w, d1, d2, nl)
  {
    var w, d1, d2, nl := ReconnectingParts(m);
  }

  // ---------------------------------------------------------------------------
  // Events
  // ---------------------------------------------------------------------------

  /** The fields of a decoded event the loop reads: the event "type", the
      nested item's "type" and "text", the top-level "thread_id" (None when
      absent or null), the nested "error"."message", and the top-level
      "message"; a missing string reads as "". */
  datatype Event = Event(
    eventType: string,
    itemType: string,
    itemText: string,
    threadId: Option<string>,
    errorMessage: string,
    message: string)

  /** An event that records an error: a type containing "fail", or a type
      containing "error" whose message is not a reconnection notice. */
  predicate ReportsFailure(e: Event) {
    Contains(e.eventType, "fail")
  }

  predicate ReportsError(e: Event) {
    Contains(e.eventType, "error") && !IsReconnecting(e.message)
  }

  /** The body of the per-line loop for one decoded event. */
  function OnEvent(g: Gathered, e: Event): (r: Gathered)
    ensures r.response == g.response + if e.itemType == "agent_message" then e.itemText else ""
    ensures r.session == if e.threadId.Some? then e.threadId else g.session
    ensures r.errMessage == g.errMessage
      + (if ReportsFailure(e) then "\n\n[codex error] " + e.errorMessage else "")
      + (if ReportsError(e) then "\n\n[codex error] " + e.message else "")
    ensures ReportsFailure(e) || ReportsError(e) ==> r.hadError && r.errorKind == Some(UpstreamError)
    ensures !ReportsFailure(e) && !ReportsError(e) ==>
      r.hadError == g.hadError && r.errorKind == g.errorKind
    ensures FlagsAgree(g) ==> FlagsAgree(r)
  {
    var failNote := if ReportsFailure(e) then "\n\n[codex error] " + e.errorMessage else "";
    var errorNote := if ReportsError(e) then "\n\n[codex error] " + e.message else "";
    var flagged := ReportsFailure(e) || ReportsError(e);
    Gathered(
      g.response + (if e.itemType == "agent_message" then e.itemText else ""),
      if e.threadId.Some? then e.threadId else g.session,
      g.hadError || flagged,
      g.errMessage + failNote + errorNote,
      if flagged then Some(UpstreamError) else g.errorKind)
  }

  /** Codex also copies an undecodable line into the error message. */
  const Reader: Interp<Event> := Interp(OnEvent, true)

  /** A reconnection notice is not an error: it leaves the error state as it
      was. */
  lemma ReconnectingIgnored(g: Gathered, e: Event, w: string, d1: string, d2: string, nl: string)
    requires !Contains(e.eventType, "fail") && ReconnectingShape(e.message, w, d1, d2, nl)
    ensures OnEvent(g, e).hadError == g.hadError && OnEvent(g, e).errorKind == g.errorKind
    ensures OnEvent(g, e).errMessage == g.errMessage
  {
    ReconnectingComplete(e.message, w, d1, d2, nl);
  }

  /** The texts of the agent messages among the lines, in arrival order. */
  function AgentTexts(lines: seq<Line<Event>>): string
    decreases |lines|
  {
    if lines == [] then ""
    else
      var last := lines[|lines| - 1];
      AgentTexts(lines[..|lines| - 1])
        + if last.parsed.Decoded? && last.parsed.event.itemType == "agent_message"
          then last.parsed.event.itemText else ""
  }

  /** The last non-null `thread_id` among the lines. */
  function LastThreadId(lines: seq<Line<Event>>): Option<string>
    decreases |lines|
  {
    if lines == [] then None
    else
      var last := lines[|lines| - 1];
      if last.parsed.Decoded? && last.parsed.event.threadId.Some? then last.parsed.event.threadId
      else LastThreadId(lines[..|lines| - 1])
  }

  /** After the loop, the response is the agent messages concatenated in
      arrival order and the session is the last thread id seen, over the lines
      the loop read. */
  lemma {:induction false} FoldGathers(lines: seq<Line<Event>>)
    ensures var n := Consumed(Reader, lines);
      && Fold(Reader, lines).got.response == AgentTexts(lines[..n])
      && Fold(Reader, lines).got.session == LastThreadId(lines[..n])
    decreases |lines|
  {
    if lines != [] {
      var k := |lines| - 1;
      var init := lines[..k];
      FoldGathers(init);
      ConsumedStep(Reader, lines);
      if Fold(Reader, init).aborted {
        var n := Consumed(Reader, init);
        assert lines[..n] == init[..n];
      } else {
        assert init[..k] == init;
        assert lines[..k + 1] == lines;
        assert lines[..k + 1][..k] == init;
      }
    }
  }

  /** One undecodable line is counted and echoed into the error message,
      and leaves the error flag and the error kind as they were. */
  lemma UndecodableNotAnError(acc: Acc, text: string)
    ensures var r := Step(Reader, acc, Line(text, Undecodable));
      && r.got.hadError == acc.got.hadError && r.got.errorKind == acc.got.errorKind
      && r.jsonDecodeErrors == acc.jsonDecodeErrors + 1
      && r.got.errMessage == acc.got.errMessage + "\n\n[json decode error] " + text
  {
  }

  // ---------------------------------------------------------------------------
  // Classification of one attempt
  // ---------------------------------------------------------------------------

  const EmptyResponseNote: string := "未能获取 Codex 响应内容。可尝试设置 return_all_messages=True 获取详细信息。\n\n"

  /** The checks after the per-line loop, applied to the gathered state in
      the source's order: a missing thread id, an empty response, and a
      non-zero exit code of an attempt that has not failed yet. */
  function Checked(g: Gathered, exitCode: Option<int>): (r: Gathered)
    ensures r.response == g.response && r.session == g.session && r.hadError == g.hadError
  {
    var missing := g.session == None;
    var empty := g.response == "";
    var exitFails := !g.hadError && !missing && !empty && exitCode.Some? && exitCode.value != 0;
    var g1 := Check(g, missing, ProtocolMissingSession, MissingSessionNote);
    var g2 := Check(g1, empty, EmptyResult, EmptyResponseNote);
    Check(g2, exitFails, SubprocessError, if exitFails then ExitCodeNote(exitCode.value) else "")
  }

  /** The kind recorded: the loop's own kind first, then the first check that
      fails. */
  lemma CheckedKind(g: Gathered, exitCode: Option<int>)
    ensures Checked(g, exitCode).errorKind ==
      if g.errorKind.Some? then g.errorKind
      else if g.session == None then Some(ProtocolMissingSession)
      else if g.response == "" then Some(EmptyResult)
      else if !g.hadError && exitCode.Some? && exitCode.value != 0 then Some(SubprocessError)
      else None
  {
  }

  /** The notes go in front of the loop's message, the missing-session note
      directly in front of it. */
  lemma CheckedMessage(g: Gathered, exitCode: Option<int>)
    ensures EndsWith(Checked(g, exitCode).errMessage, g.errMessage)
    ensures g.session == None ==> EndsWith(Checked(g, exitCode).errMessage, MissingSessionNote + g.errMessage)
  {
    var missing := g.session == None;
    var empty := g.response == "";
    var exitFails := !g.hadError && !missing && !empty && exitCode.Some? && exitCode.value != 0;
    var g1 := Check(g, missing, ProtocolMissingSession, MissingSessionNote);
    var g2 := Check(g1, empty, EmptyResult, EmptyResponseNote);
    var g3 := Check(g2, exitFails, SubprocessError, if exitFails then ExitCodeNote(exitCode.value) else "");
    EndsWithTrans(g3.errMessage, g2.errMessage, g1.errMessage);
    EndsWithTrans(g3.errMessage, g1.errMessage, g.errMessage);
  }

  /** The attempt after the checks: it succeeds iff the loop saw no error, a
      thread id and a response, and the exit code is absent or 0. */
  function Classify(acc: Acc, exitCode: Option<int>, rawOutputLines: nat): (a: Attempt)
    ensures a.success <==> !acc.got.hadError && acc.got.session.Some? && acc.got.response != ""
                           && (exitCode == None || exitCode == Some(0))
    ensures !a.timedOut && a.exitCode == exitCode && a.rawOutputLines == rawOutputLines
    ensures a.state == acc.(got := Checked(acc.got, exitCode))
    ensures FlagsAgree(acc.got) && !a.success ==> a.state.got.errorKind.Some?
  {
    var g := acc.got;
    var success := !g.hadError && g.session.Some? && g.response != "" && (exitCode == None || exitCode == Some(0));
    CheckedKind(g, exitCode);
    Attempt(acc.(got := Checked(g, exitCode)), success, exitCode, rawOutputLines, false)
  }

  /** `_is_retryable_error`: only a missing CLI is not worth another attempt. */
  function IsRetryable(kind: Option<ErrorKind>): (b: bool)
    ensures b <==> kind != Some(CommandNotFound)
  {
    kind != Some(CommandNotFound)
  }

  /** Codex retries timeouts and every failure `IsRetryable` allows. */
  const Policy: RetryPolicy := RetryPolicy(true, IsRetryable)

  const CodexTool: Tool<Event> := Tool(Reader, Classify, Policy)

  /** Within an attempt the per-line loop records no error kind other than an
      upstream error or an unexpected exception. */
  lemma {:induction false} FoldKinds(lines: seq<Line<Event>>)
    ensures Fold(Reader, lines).got.errorKind in {None, Some(UpstreamError), Some(UnexpectedException)}
    decreases |lines|
  {
    if lines != [] {
      FoldKinds(lines[..|lines| - 1]);
    }
  }

  /** No attempt ends with COMMAND_NOT_FOUND: a missing CLI ends the loop
      before any attempt is classified. */
  lemma AttemptKindFound(run: Run<Event>)
    requires OutcomeOf(CodexTool, run).Ran?
    ensures OutcomeOf(CodexTool, run).attempt.state.got.errorKind != Some(CommandNotFound)
  {
    var acc := Fold(Reader, run.lines);
    FoldKinds(run.lines);
    if run.Completed? && !acc.aborted {
      CheckedKind(acc.got, run.exitCode);
    } else if !run.TimedOut? || acc.aborted {
      CheckedKind(acc.got, None);
    }
  }

  /** Codex retries every failed attempt while retries remain: a loop that
      ends on a failure has used them all. */
  lemma FailuresRetriedToTheLimit(runs: seq<Run<Event>>, maxRetries: nat)
    requires maxRetries < |runs|
    ensures var end := Loop(CodexTool, runs, maxRetries, 0, None, []);
      end.Finished? && !end.success ==> end.retries == maxRetries
  {
    var end := Loop(CodexTool, runs, maxRetries, 0, None, []);
    LoopEndsOn(CodexTool, runs, maxRetries, 0, None, []);
    if end.Finished? {
      AttemptKindFound(runs[end.retries]);
    }
  }

  // ---------------------------------------------------------------------------
  // The reported result, the command line and the tool
  // ---------------------------------------------------------------------------

  /** The dict `codex_tool` returns once the loop is over; a failure reports
      the saved `last_error`. */
  function Report(end: LoopEnd, timeout: int, maxDuration: int): (r: ToolResult)
    ensures end.Missing? ==> r == NotFoundResult(end.message)
    ensures end.Finished? && end.success ==>
      r == Succeeded(end.last.state.got.session, end.last.state.got.response, None)
    ensures end.Finished? && !end.success && end.lastError.Some? ==>
      && r.Failed? && r.errorKind == end.lastError.value.errorKind
      && r.error == end.lastError.value.errMessage
      && r.detail.exitCode == end.lastError.value.exitCode
      && r.detail.lastLines == (if end.allLastLines == [] then None else Some(Window(end.allLastLines)))
  {
    match end
    case Missing(message, _) => NotFoundResult(message)
    case Finished(success, last, retries, lastError, allLastLines) =>
      if success then Succeeded(last.state.got.session, last.state.got.response, None)
      else
        var saved := if lastError.Some? then lastError.value else LastErrorOf(last);
        FailureResult(saved.errorKind, saved.errMessage, saved.exitCode, saved.jsonDecodeErrors,
                      allLastLines, retries, timeout, maxDuration, None)
  }

  /** The argv of `codex exec`: sandbox, working directory and JSON output,
      then each optional flag that was asked for, in this order, and the
      prompt after `--` (with its line breaks escaped on Windows). */
  method BuildArgv(prompt: string, cd: string, sandbox: Sandbox, images: seq<string>,
                   model: string, profile: string, yolo: bool, skipGitRepoCheck: bool,
                   sessionId: string, windows: bool)
    returns (cmd: seq<string>)
    ensures cmd == ["codex", "exec", "--sandbox", SandboxName(sandbox), "--cd", cd, "--json"]
      + (if images != [] then ["--image", Join(images, ',')] else [])
      + (if model != "" then ["--model", model] else [])
      + (if profile != "" then ["--profile", profile] else [])
      + (if yolo then ["--yolo"] else [])
      + (if skipGitRepoCheck then ["--skip-git-repo-check"] else [])
      + (if sessionId != "" then ["resume", sessionId] else [])
      + ["--", if windows then EscapeNewlines(prompt) else prompt]
    ensures windows ==> '\n' !in cmd[|cmd| - 1]
  {
    var head := ["codex", "exec", "--sandbox", SandboxName(sandbox), "--cd", cd, "--json"];
    ghost var imagePart := if images != [] then ["--image", Join(images, ',')] else [];
    ghost var modelPart := if model != "" then ["--model", model] else [];
    ghost var profilePart := if profile != "" then ["--profile", profile] else [];
    ghost var yoloPart := if yolo then ["--yolo"] else [];
    ghost var skipPart := if skipGitRepoCheck then ["--skip-git-repo-check"] else [];
    ghost var resumePart := if sessionId != "" then ["resume", sessionId] else [];
    cmd := head;
    if images != [] {
      cmd := cmd + ["--image", Join(images, ',')];
    }
    assert cmd == head + imagePart;
    if model != "" {
      cmd := cmd + ["--model", model];
    }
    assert cmd == head + imagePart + modelPart;
    if profile != "" {
      cmd := cmd + ["--profile", profile];
    }
    assert cmd == head + imagePart + modelPart + profilePart;
    if yolo {
      cmd := cmd + ["--yolo"];
    }
    assert cmd == head + imagePart + modelPart + profilePart + yoloPart;
    if skipGitRepoCheck {
      cmd := cmd + ["--skip-git-repo-check"];
    }
    assert cmd == head + imagePart + modelPart + profilePart + yoloPart + skipPart;
    if sessionId != "" {
      cmd := cmd + ["resume", sessionId];
    }
    assert cmd == head + imagePart + modelPart + profilePart + yoloPart + skipPart + resumePart;
    var tail: string;
    if windows {
      tail := EscapeNewlines(prompt);
      EscapeNewlinesFlat(prompt);
    } else {
      tail := prompt;
    }
    cmd := cmd + ["--", tail];
  }

  /** `codex_tool`: the retry loop over the runs of the CLI, the metrics of
      the final attempt, and the reported result. */
  method Execute(prompt: string, sandbox: Sandbox, timeout: int, maxDuration: int,
                 maxRetries: nat, runs: seq<Run<Event>>, durationMs: int)
    returns (result: ToolResult, metrics: MetricsCollector)
    requires maxRetries < |runs|
    ensures result == Report(Loop(CodexTool, runs, maxRetries, 0, None, []), timeout, maxDuration)
    ensures fresh(metrics) && metrics.tool == "codex"
    ensures metrics.sandbox == SandboxName(sandbox)
    ensures RecordsEnd(metrics, Loop(CodexTool, runs, maxRetries, 0, None, []))
    ensures metrics.success == result.Succeeded?
    ensures metrics.durationMs == durationMs
  {
    metrics := new MetricsCollector("codex", prompt, SandboxName(sandbox));
    var end := RetryLoop(CodexTool, runs, maxRetries);
    FinishAfterLoop(metrics, end, durationMs);
    result := Report(end, timeout, maxDuration);
  }
}
