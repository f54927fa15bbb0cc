/**
 * The GLM wrapper (`glm_tool`), which runs Claude Code in print mode against
 * the GLM endpoint: how it reads the single JSON result, how it classifies an
 * attempt, its retry loop (never on a timeout), the result it reports and the
 * command line it runs.
 */
module Glm {
  import opened Basics
  import opened Text
  import opened ToolCommon
  import opened ToolLoop

  // ---------------------------------------------------------------------------
  // Events
  // ---------------------------------------------------------------------------

  /** The fields of a decoded output object the loop reads: "type", "result"
      ("" when absent), "session_id" (None when absent or null), whether
      "is_error" is truthy, the nested "error"."message" (None when absent) and
      the object's rendering `str(line_dict)`. */
  datatype Event = Event(
    eventType: string,
    result: string,
    sessionId: Option<string>,
    isError: bool,
    errorMessage: Option<string>,
    rendered: string)

  /** `is_session_completed`: the line decodes to an object whose "type" is
      "result" or "error"; anything else, undecodable or not an object, is
      not the end of the session. */
  function IsSessionCompleted(line: Line<Event>): (b: bool)
    ensures line.parsed.Undecodable? ==> !b
    ensures line.parsed.Decoded? ==>
      (b <==> line.parsed.event.eventType == "result" || line.parsed.event.eventType == "error")
    ensures line.parsed.Malformed? ==>
      (b <==> line.parsed.typeField == "result" || line.parsed.typeField == "error")
  {
    match line.parsed
    case Decoded(e) => e.eventType in {"result", "error"}
    case Undecodable => false
    case Malformed(typeField, _) => typeField in {"result", "error"}
  }

  /** The lines the reader forwards: it stops after the first line that
      completes the session. */
  function UntilCompleted(lines: seq<Line<Event>>): (seen: seq<Line<Event>>)
    ensures seen <= lines
    ensures forall i :: 0 <= i < |seen| - 1 ==> !IsSessionCompleted(seen[i])
    ensures |seen| < |lines| ==> seen != [] && IsSessionCompleted(seen[|seen| - 1])
    decreases |lines|
  {
    if lines == [] then []
    else if IsSessionCompleted(lines[0]) then [lines[0]]
    else [lines[0]] + UntilCompleted(lines[1..])
  }

  /** The body of the per-line loop for one decoded object: a result replaces
      the response and the session (the last one wins) and, flagged as an
      error, becomes the error message; an error object replaces the message
      with its own. */
  function OnEvent(g: Gathered, e: Event): (r: Gathered)
    ensures e.eventType == "result" ==> r.response == e.result && r.session == e.sessionId
    ensures e.eventType != "result" ==> r.response == g.response && r.session == g.session
    ensures (e.eventType == "result" && e.isError) || e.eventType == "error" ==>
      && r.hadError && r.errorKind == Some(UpstreamError)
      && r.errMessage == (if e.eventType == "result" then e.result
                          else if e.errorMessage.Some? then e.errorMessage.value else e.rendered)
    ensures !((e.eventType == "result" && e.isError) || e.eventType == "error") ==>
      r.hadError == g.hadError && r.errorKind == g.errorKind && r.errMessage == g.errMessage
    ensures FlagsAgree(g) ==> FlagsAgree(r)
  {
    if e.eventType == "result" then
      var g1 := g.(response := e.result, session := e.sessionId);
      if e.isError then g1.(hadError := true, errMessage := e.result, errorKind := Some(UpstreamError))
      else g1
    else if e.eventType == "error" then
      g.(hadError := true,
         errMessage := if e.errorMessage.Some? then e.errorMessage.value else e.rendered,
         errorKind := Some(UpstreamError))
    else g
  }

  const Reader: Interp<Event> := Interp(OnEvent, false)

  /** The last result object among the lines, if any. */
  function LastResult(lines: seq<Line<Event>>): Option<Event>
    decreases |lines|
  {
    if lines == [] then None
    else
      var last := lines[|lines| - 1];
      if last.parsed.Decoded? && last.parsed.event.eventType == "result" then Some(last.parsed.event)
      else LastResult(lines[..|lines| - 1])
  }

  /** After the loop, the response and the session are those of the last
      result object read (none read: empty response, no session). */
  lemma {:induction false} FoldTakesLastResult(lines: seq<Line<Event>>)
    ensures var last := LastResult(lines[..Consumed(Reader, lines)]);
      && Fold(Reader, lines).got.response == (if last.Some? then last.value.result else "")
      && Fold(Reader, lines).got.session == (if last.Some? then last.value.sessionId else None)
    decreases |lines|
  {
    if lines != [] {
      var k := |lines| - 1;
      var init := lines[..k];
      FoldTakesLastResult(init);
      ConsumedStep(Reader, lines);
      if Fold(Reader, init).aborted {
        var n := Consumed(Reader, init);
        assert lines[..n] == init[..n];
      } else {
        assert init[..k] == init;
        assert lines[..k + 1] == lines;
        assert lines[..k + 1][..k] == init;
      }
    }
  }

  // ---------------------------------------------------------------------------
  // Classification of one attempt
  // ---------------------------------------------------------------------------

  const EmptyResponseNote: string := "未能获取 GLM 响应内容。\n\n"

  /** The checks after the per-line loop, applied to the gathered state in
      the source's order: a missing session, then an empty response and a
      non-zero exit code, each only while the attempt has not failed yet. */
  function Checked(g: Gathered, exitCode: Option<int>): (r: Gathered)
    ensures r.response == g.response && r.session == g.session && r.hadError == g.hadError
  {
    var missing := g.session == None;
    var emptyFails := !g.hadError && !missing && g.response == "";
    var exitFails := !g.hadError && !missing && g.response != "" && exitCode.Some? && exitCode.value != 0;
    var g1 := Check(g, missing, ProtocolMissingSession, MissingSessionNote);
    var g2 := Check(g1, emptyFails, EmptyResult, EmptyResponseNote);
    Check(g2, exitFails, SubprocessError, if exitFails then ExitCodeNote(exitCode.value) else "")
  }

  /** The kind recorded: the loop's own kind first, then the first check that
      fails; an attempt that already failed gets no further kind. */
  lemma CheckedKind(g: Gathered, exitCode: Option<int>)
    ensures Checked(g, exitCode).errorKind ==
      if g.errorKind.Some? then g.errorKind
      else if g.session == None then Some(ProtocolMissingSession)
      else if g.hadError then None
      else if g.response == "" then Some(EmptyResult)
      else if exitCode.Some? && exitCode.value != 0 then Some(SubprocessError)
      else None
  {
  }

  /** The notes go in front of the loop's message. */
  lemma CheckedMessage(g: Gathered, exitCode: Option<int>)
    ensures EndsWith(Checked(g, exitCode).errMessage, g.errMessage)
  {
    var missing := g.session == None;
    var emptyFails := !g.hadError && !missing && g.response == "";
    var exitFails := !g.hadError && !missing && g.response != "" && exitCode.Some? && exitCode.value != 0;
    var g1 := Check(g, missing, ProtocolMissingSession, MissingSessionNote);
    var g2 := Check(g1, emptyFails, EmptyResult, EmptyResponseNote);
    var g3 := Check(g2, exitFails, SubprocessError, if exitFails then ExitCodeNote(exitCode.value) else "");
    EndsWithTrans(g3.errMessage, g2.errMessage, g1.errMessage);
    EndsWithTrans(g3.errMessage, g1.errMessage, g.errMessage);
  }

  /** After an error in the loop only the missing-session note can be added. */
  lemma CheckedMessageAfterError(g: Gathered, exitCode: Option<int>)
    requires g.hadError
    ensures Checked(g, exitCode).errMessage == (if g.session == None then MissingSessionNote else "") + g.errMessage
  {
    if g.session.Some? {
      assert "" + g.errMessage == g.errMessage;
    }
  }

  /** The attempt after the checks: it succeeds iff the loop saw no error, a
      session and a response, and the exit code is absent or 0. */
  function Classify(acc: Acc, exitCode: Option<int>, rawOutputLines: nat): (a: Attempt)
    ensures a.success <==> !acc.got.hadError && acc.got.session.Some? && acc.got.response != ""
                           && (exitCode == None || exitCode == Some(0))
    ensures !a.timedOut && a.exitCode == exitCode && a.rawOutputLines == rawOutputLines
    ensures a.state == acc.(got := Checked(acc.got, exitCode))
    ensures FlagsAgree(acc.got) && !a.success ==> a.state.got.errorKind.Some?
  {
    var g := acc.got;
    var success := !g.hadError && g.session.Some? && g.response != "" && (exitCode == None || exitCode == Some(0));
    CheckedKind(g, exitCode);
    Attempt(acc.(got := Checked(g, exitCode)), success, exitCode, rawOutputLines, false)
  }

  /** GLM never retries a timeout (the attempt has already taken long) and
      retries any other failure while retries remain. */
  const Policy: RetryPolicy := RetryPolicy(false, kind => true)

  const GlmTool: Tool<Event> := Tool(Reader, Classify, Policy)

  /** A timeout ends the loop whatever `max_retries` allows: no attempt
      before the last one timed out. */
  lemma TimeoutEndsLoop(runs: seq<Run<Event>>, maxRetries: nat, j: nat)
    requires maxRetries < |runs|
    requires j < Loop(GlmTool, runs, maxRetries, 0, None, []).retries
    ensures OutcomeOf(GlmTool, runs[j]).Ran? && !OutcomeOf(GlmTool, runs[j]).attempt.timedOut
  {
    LoopRetriedBefore(GlmTool, runs, maxRetries, 0, None, [], j);
  }

  /** Any other failure is retried while retries remain; the saved
      `last_error` is the final attempt's. */
  lemma OtherFailuresRetried(runs: seq<Run<Event>>, maxRetries: nat)
    requires maxRetries < |runs|
    ensures var end := Loop(GlmTool, runs, maxRetries, 0, None, []);
      end.Finished? && !end.success ==>
        && (end.last.timedOut || end.retries == maxRetries)
        && end.lastError == Some(LastErrorOf(end.last))
  {
    LoopEndsOn(GlmTool, runs, maxRetries, 0, None, []);
  }

  // ---------------------------------------------------------------------------
  // The reported result, the command line and the tool
  // ---------------------------------------------------------------------------

  /** The dict `glm_tool` returns once the loop is over; a failure reports the
      saved `last_error`. */
  function Report(end: LoopEnd, timeout: int, maxDuration: int): (r: ToolResult)
    ensures end.Missing? ==> r == NotFoundResult(end.message)
    ensures end.Finished? && end.success ==>
      r == Succeeded(end.last.state.got.session, end.last.state.got.response, None)
    ensures end.Finished? && !end.success && end.lastError.Some? ==>
      && r.Failed? && r.errorKind == end.lastError.value.errorKind
      && r.error == end.lastError.value.errMessage
      && r.detail.exitCode == end.lastError.value.exitCode
      && (r.detail.idleTimeoutS.Some? <==> r.errorKind == Some(IdleTimeout))
      && (r.detail.maxDurationS.Some? <==> r.errorKind == Some(Timeout))
  {
    match end
    case Missing(message, _) => NotFoundResult(message)
    case Finished(success, last, retries, lastError, allLastLines) =>
      if success then Succeeded(last.state.got.session, last.state.got.response, None)
      else
        var saved := if lastError.Some? then lastError.value else LastErrorOf(last);
        FailureResult(saved.errorKind, saved.errMessage, saved.exitCode, saved.jsonDecodeErrors,
                      allLastLines, retries, timeout, maxDuration, None)
  }

  /** The result when the configuration cannot be loaded. */
  function ConfigFailureResult(reason: string): (r: ToolResult)
    ensures r.Failed? && r.errorKind == Some(ConfigError) && r.error == "配置加载失败：" + reason
    ensures r.detail.message == r.error && r.detail.lastLines == None && r.detail.retries == None
  {
    var message := "配置加载失败：" + reason;
    Failed(message, Some(ConfigError), BuildErrorDetail(message, None, [], 0, None, None, 0), None)
  }

  const SystemPrompt: string := "你是 GLM-4.7 模型，一个专注的代码执行助手。\n请直接执行用户的代码任务，不要闲聊或询问需求。\n【重要约束】\n- 不得请求调用任何工具或子代理\n- 不得声称自己是 Claude 或其他模型\n- 输出只包含任务结果与必要的改动说明；如有改动可附 diff（可选）"

  /** The argv of `claude`: print mode, JSON output and the system prompt,
      permissions skipped unless the sandbox is read-only, `-r` with a
      non-empty session id, and the prompt last (line breaks escaped on
      Windows). */
  method BuildArgv(prompt: string, sandbox: Sandbox, sessionId: string, windows: bool)
    returns (cmd: seq<string>)
    ensures cmd == ["claude", "-p", "--output-format", "json", "--system-prompt", SystemPrompt]
      + (if sandbox != ReadOnly then ["--dangerously-skip-permissions"] else [])
      + (if sessionId != "" then ["-r", sessionId] else [])
      + [if windows then EscapeNewlines(prompt) else prompt]
    ensures windows ==> '\n' !in cmd[|cmd| - 1]
  {
    var head := ["claude", "-p", "--output-format", "json", "--system-prompt", SystemPrompt];
    ghost var permissionPart := if sandbox != ReadOnly then ["--dangerously-skip-permissions"] else [];
    cmd := head;
    if sandbox != ReadOnly {
      cmd := cmd + ["--dangerously-skip-permissions"];
    }
    assert cmd == head + permissionPart;
    if sessionId != "" {
      cmd := cmd + ["-r", sessionId];
    }
    if windows {
      var escaped := EscapeNewlines(prompt);
      EscapeNewlinesFlat(prompt);
      cmd := cmd + [escaped];
    } else {
      cmd := cmd + [prompt];
    }
  }

  /** `glm_tool`: a configuration failure ends the call at once; otherwise the
      retry loop over the runs of the CLI, the metrics of the final attempt,
      and the reported result. */
  method Execute(prompt: string, sandbox: Sandbox, configFailure: Option<string>, timeout: int,
                 maxDuration: int, maxRetries: nat, runs: seq<Run<Event>>, durationMs: int)
    returns (result: ToolResult, metrics: MetricsCollector)
    requires maxRetries < |runs|
    ensures configFailure.Some? ==> result == ConfigFailureResult(configFailure.value)
    ensures configFailure.None? ==>
      result == Report(Loop(GlmTool, runs, maxRetries, 0, None, []), timeout, maxDuration)
    ensures fresh(metrics) && metrics.finished && metrics.tool == "glm"
    ensures metrics.sandbox == SandboxName(sandbox)
    ensures configFailure.Some? ==>
      && !metrics.success && metrics.errorKind == Some(ConfigError) && metrics.retries == 0
      && metrics.exitCode == None && metrics.resultChars == 0 && metrics.resultLines == 0
      && metrics.rawOutputLines == 0 && metrics.jsonDecodeErrors == 0
    ensures configFailure.None? ==>
      RecordsEnd(metrics, Loop(GlmTool, runs, maxRetries, 0, None, []))
    ensures metrics.success == result.Succeeded?
    ensures metrics.durationMs == durationMs
  {
    metrics := new MetricsCollector("glm", prompt, SandboxName(sandbox));
    if configFailure.Some? {
      metrics.Finish(false, Some(ConfigError), "", None, 0, 0, 0, durationMs);
      result := ConfigFailureResult(configFailure.value);
      return;
    }
    var end := RetryLoop(GlmTool, runs, maxRetries);
    FinishAfterLoop(metrics, end, durationMs);
    result := Report(end, timeout, maxDuration);
  }
}
