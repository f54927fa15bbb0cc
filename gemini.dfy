/**
 * The Gemini CLI wrapper (`gemini_tool`): how it reads the `stream-json`
 * events of one attempt, how it classifies the attempt, which failures it
 * retries, the result it reports and the command line it runs.
 */
module Gemini {
  import opened Basics
  import opened Text
  import opened ToolCommon
  import opened ToolLoop

  // ---------------------------------------------------------------------------
  // Events
  // ---------------------------------------------------------------------------

  /** The fields of a decoded stream-json event that the loop reads. A missing
      string field reads as "" (the `.get(key, "")` default); `sessionId` and
      `threadId` are None when absent or null, `message` when absent, in which
      case the event's own rendering (`str(line_dict)`) is used. */
  datatype Event = Event(
    eventType: string,
    role: string,
    content: string,
    response: string,
    sessionId: Option<string>,
    threadId: Option<string>,
    message: Option<string>,
    rendered: string)

  /** The text an error event contributes. */
  function ErrorText(e: Event): string {
    if e.message.Some? then e.message.value else e.rendered
  }

  /** `_is_auth_error`'s keywords. */
  const AuthKeywords: seq<string> := [
    "waiting for auth", "failed to login", "precondition check failed", "authentication",
    "401", "403", "unauthorized", "not authenticated", "login required", "sign in", "oauth"]

  /** `any(keyword in s for keyword in keywords)`. */
  function AnyContained(s: string, keywords: seq<string>): (b: bool)
    ensures b <==> exists k :: k in keywords && Contains(s, k)
    decreases |keywords|
  {
    if keywords == [] then false
    else
      var first, rest := Contains(s, keywords[0]), AnyContained(s, keywords[1..]);
      assert forall k :: k in keywords <==> k == keywords[0] || k in keywords[1..];
      assert first ==> keywords[0] in keywords;
      assert rest ==> exists k :: k in keywords && Contains(s, k) by {
        if rest {
          var k :| k in keywords[1..] && Contains(s, k);
          assert k in keywords;
        }
      }
      first || rest
  }

  /** `_is_auth_error`: the lower-cased text contains one of the keywords. */
  function IsAuthError(text: string): (b: bool)
    ensures b <==> exists k :: k in AuthKeywords && Contains(Lower(text), k)
  {
    AnyContained(Lower(text), AuthKeywords)
  }

  /** The auth test does not depend on the case of the text. */
  lemma AuthErrorIgnoresCase(text: string)
    ensures IsAuthError(Upper(text)) == IsAuthError(text)
    ensures IsAuthError(Lower(text)) == IsAuthError(text)
  {
    LowerOfFolded(text);
  }

  /** `_is_retryable_error`: everything but a missing CLI and a missing login
      is worth another attempt. */
  function IsRetryable(kind: Option<ErrorKind>): (b: bool)
    ensures b <==> kind != Some(CommandNotFound) && kind != Some(AuthRequired)
  {
    match kind
    case Some(CommandNotFound) => false
    case Some(AuthRequired) => false
    case _ => true
  }

  /** The body of the per-line loop for one decoded event: assistant messages
      are appended, a result's response is taken only when nothing was
      gathered, an init event sets the session (its `thread_id` winning over
      its `session_id`), and an error event records the error. */
  function OnEvent(g: Gathered, e: Event): (r: Gathered)
    ensures g.response <= r.response
    ensures e.eventType == "message" ==>
      r.response == g.response + (if e.role == "assistant" then e.content else "")
    ensures e.eventType == "result" ==>
      r.response == if g.response == "" then e.response else g.response
    ensures e.eventType != "message" && e.eventType != "result" ==> r.response == g.response
    ensures e.eventType == "init" ==>
      r.session == if e.threadId.Some? then e.threadId else if e.sessionId.Some? then e.sessionId else g.session
    ensures e.eventType != "init" ==> r.session == g.session
    ensures g.errMessage <= r.errMessage
    ensures g.errorKind == Some(AuthRequired) ==> r.errorKind == Some(AuthRequired)
    ensures e.eventType == "error" ==>
      && r.hadError
      && r.errMessage == g.errMessage + "\n\n[gemini error] " + ErrorText(e)
      && (r.errorKind == Some(AuthRequired) <==>
            IsAuthError(ErrorText(e)) || g.errorKind == Some(AuthRequired))
      && (r.errorKind != Some(AuthRequired) ==> r.errorKind == Some(UpstreamError))
    ensures e.eventType != "error" ==>
      r.hadError == g.hadError && r.errMessage == g.errMessage && r.errorKind == g.errorKind
    ensures FlagsAgree(g) ==> FlagsAgree(r)
  {
    if e.eventType == "message" then
      if e.role == "assistant" && e.content != "" then g.(response := g.response + e.content)
      else g
    else if e.eventType == "result" then
      if e.response != "" && g.response == "" then g.(response := e.response) else g
    else if e.eventType == "init" then
      var afterSession := if e.sessionId.Some? then e.sessionId else g.session;
      g.(session := if e.threadId.Some? then e.threadId else afterSession)
    else if e.eventType == "error" then
      var text := ErrorText(e);
      g.(hadError := true,
         errMessage := g.errMessage + "\n\n[gemini error] " + text,
         errorKind := if IsAuthError(text) then Some(AuthRequired)
                      else if g.errorKind != Some(AuthRequired) then Some(UpstreamError)
                      else g.errorKind)
    else g
  }

  const Reader: Interp<Event> := Interp(OnEvent, false)

  /** Once a line has recorded AUTH_REQUIRED, the rest of the stream keeps it;
      only the loop's own unexpected-exception exit can replace it. */
  lemma {:induction false} AuthRequiredSticky(lines: seq<Line<Event>>, k: nat)
    requires k <= |lines| && Fold(Reader, lines[..k]).got.errorKind == Some(AuthRequired)
    ensures Fold(Reader, lines).got.errorKind == Some(AuthRequired)
         || (Fold(Reader, lines).aborted
             && Fold(Reader, lines).got.errorKind == Some(UnexpectedException))
    decreases |lines|
  {
    if k < |lines| {
      var init := lines[..|lines| - 1];
      assert init[..k] == lines[..k];
      AuthRequiredSticky(init, k);
    } else {
      assert lines[..k] == lines;
    }
  }

  /** The contents of the assistant messages among the lines, in arrival
      order. */
  function AssistantTexts(lines: seq<Line<Event>>): string
    decreases |lines|
  {
    if lines == [] then ""
    else
      var last := lines[|lines| - 1];
      AssistantTexts(lines[..|lines| - 1])
        + if last.parsed.Decoded? && last.parsed.event.eventType == "message"
             && last.parsed.event.role == "assistant"
          then last.parsed.event.content else ""
  }

  /** The response of the first result event that arrives while nothing has
      been gathered yet (no assistant text, no earlier fallback), or "". */
  function ResultFallback(lines: seq<Line<Event>>): string
    decreases |lines|
  {
    if lines == [] then ""
    else
      var init, last := lines[..|lines| - 1], lines[|lines| - 1];
      var prev := ResultFallback(init);
      if prev == "" && AssistantTexts(init) == ""
         && last.parsed.Decoded? && last.parsed.event.eventType == "result"
      then last.parsed.event.response
      else prev
  }

  /** The session of the last init event that carries one, its `thread_id`
      winning over its `session_id`. */
  function LastInitSession(lines: seq<Line<Event>>): Option<string>
    decreases |lines|
  {
    if lines == [] then None
    else
      var last := lines[|lines| - 1];
      if last.parsed.Decoded? && last.parsed.event.eventType == "init"
         && (last.parsed.event.threadId.Some? || last.parsed.event.sessionId.Some?)
      then (if last.parsed.event.threadId.Some? then last.parsed.event.threadId
            else last.parsed.event.sessionId)
      else LastInitSession(lines[..|lines| - 1])
  }

  /** One more line read keeps the response and the session in step with
      their definitions over the lines. */
  lemma GathersStep(init: seq<Line<Event>>, line: Line<Event>, g: Gathered)
    requires g.response == ResultFallback(init) + AssistantTexts(init)
    requires g.session == LastInitSession(init)
    ensures var r := Step(Reader, Acc(g, 0, [], false), line).got;
      && r.response == ResultFallback(init + [line]) + AssistantTexts(init + [line])
      && r.session == LastInitSession(init + [line])
  {
    var lines := init + [line];
    assert lines[..|lines| - 1] == init && lines[|lines| - 1] == line;
    assert g.response == "" <==> ResultFallback(init) == "" && AssistantTexts(init) == "";
  }

  /** After the loop, over the lines it read, the response is the fallback
      taken from a result event (if any) followed by every assistant text,
      and the session is the one of the last init event that named one. */
  lemma {:induction false} FoldGathers(lines: seq<Line<Event>>)
    ensures var n := Consumed(Reader, lines);
      && Fold(Reader, lines).got.response == ResultFallback(lines[..n]) + AssistantTexts(lines[..n])
      && Fold(Reader, lines).got.session == LastInitSession(lines[..n])
    decreases |lines|
  {
    if lines != [] {
      var k := |lines| - 1;
      var init := lines[..k];
      FoldGathers(init);
      ConsumedStep(Reader, lines);
      var prev := Fold(Reader, init);
      if prev.aborted {
        var n := Consumed(Reader, init);
        assert lines[..n] == init[..n];
      } else {
        assert init[..k] == init;
        assert lines[..k + 1] == lines == init + [lines[k]];
        GathersStep(init, lines[k], prev.got);
        assert Step(Reader, prev, lines[k]).got == Step(Reader, Acc(prev.got, 0, [], false), lines[k]).got;
      }
    }
  }

  // ---------------------------------------------------------------------------
  // Classification of one attempt
  // ---------------------------------------------------------------------------

  const EmptyResponseNote: string := "未能获取 Gemini 响应内容。可尝试设置 return_all_messages=True 获取详细信息。\n\n"

  /** The checks after the per-line loop, applied to the gathered state in
      the source's order: an empty response, and a non-zero exit code of an
      attempt that has not failed yet. A missing session is not a failure. */
  function Checked(g: Gathered, exitCode: Option<int>): (r: Gathered)
    ensures r.response == g.response && r.session == g.session && r.hadError == g.hadError
  {
    var empty := g.response == "";
    var exitFails := !g.hadError && !empty && exitCode.Some? && exitCode.value != 0;
    var g1 := Check(g, empty, EmptyResult, EmptyResponseNote);
    Check(g1, exitFails, SubprocessError, if exitFails then ExitCodeNote(exitCode.value) else "")
  }

  /** The kind recorded: the loop's own kind first, then the first check that
      fails. */
  lemma CheckedKind(g: Gathered, exitCode: Option<int>)
    ensures Checked(g, exitCode).errorKind ==
      if g.errorKind.Some? then g.errorKind
      else if g.response == "" then Some(EmptyResult)
      else if !g.hadError && exitCode.Some? && exitCode.value != 0 then Some(SubprocessError)
      else None
  {
  }

  /** The notes go in front of the loop's message. */
  lemma CheckedMessage(g: Gathered, exitCode: Option<int>)
    ensures EndsWith(Checked(g, exitCode).errMessage, g.errMessage)
  {
    var empty := g.response == "";
    var exitFails := !g.hadError && !empty && exitCode.Some? && exitCode.value != 0;
    var g1 := Check(g, empty, EmptyResult, EmptyResponseNote);
    var g2 := Check(g1, exitFails, SubprocessError, if exitFails then ExitCodeNote(exitCode.value) else "");
    EndsWithTrans(g2.errMessage, g1.errMessage, g.errMessage);
  }

  /** The attempt after the checks: it succeeds iff the loop saw no error and
      a response, and the exit code is absent or 0. */
  function Classify(acc: Acc, exitCode: Option<int>, rawOutputLines: nat): (a: Attempt)
    ensures a.success <==> !acc.got.hadError && acc.got.response != ""
                           && (exitCode == None || exitCode == Some(0))
    ensures !a.timedOut && a.exitCode == exitCode && a.rawOutputLines == rawOutputLines
    ensures a.state == acc.(got := Checked(acc.got, exitCode))
    ensures FlagsAgree(acc.got) && !a.success ==> a.state.got.errorKind.Some?
  {
    var g := acc.got;
    var success := !g.hadError && g.response != "" && (exitCode == None || exitCode == Some(0));
    CheckedKind(g, exitCode);
    Attempt(acc.(got := Checked(g, exitCode)), success, exitCode, rawOutputLines, false)
  }

  /** The attempt as the source runs it: `for line in gen` swallows the
      generator's `StopIteration`, so its `except StopIteration` never runs and
      the exit code and raw line count are never read. */
  function ClassifyAsWritten(acc: Acc, exitCode: Option<int>, rawOutputLines: nat): (a: Attempt)
    ensures a == Classify(acc, None, 0)
  {
    Classify(acc, None, 0)
  }

  /** Gemini retries timeouts and every failure `IsRetryable` allows. */
  const Policy: RetryPolicy := RetryPolicy(true, IsRetryable)

  /** The tool with the exit code honoured, as the classification intends. */
  const Corrected: Tool<Event> := Tool(Reader, Classify, Policy)

  /** The tool as written, with the exit code lost. */
  const AsWritten: Tool<Event> := Tool(Reader, ClassifyAsWritten, Policy)

  /** The tool `gemini_tool` runs: as written when the exit code is not
      read, corrected when it is. Both share the reader and the retry
      policy. */
  function GeminiTool(exitCodeRead: bool): (t: Tool<Event>)
    ensures t.interp == Reader && t.policy == Policy
    ensures t.classify == if exitCodeRead then Classify else ClassifyAsWritten
  {
    if exitCodeRead then Corrected else AsWritten
  }

  /** As written, a run's exit code never affects its attempt. */
  lemma AsWrittenIgnoresExitCode(lines: seq<Line<Event>>, exitCode: Option<int>, raw: nat)
    ensures OutcomeOf(AsWritten, Completed(lines, exitCode, raw))
         == OutcomeOf(AsWritten, Completed(lines, None, 0))
  {
  }

  /** The discrepancy on one input: an assistant reply followed by exit code 1
      is a success as written, and a SUBPROCESS_ERROR failure once the exit
      code reaches the classification. */
  lemma ExitCodeLostAsWritten()
    ensures var lines := [Line("{\"type\":\"message\",\"role\":\"assistant\",\"content\":\"hi\"}",
                               Decoded(Event("message", "assistant", "hi", "", None, None, None, "")))];
      && OutcomeOf(AsWritten, Completed(lines, Some(1), 1)).attempt.success
      && !OutcomeOf(Corrected, Completed(lines, Some(1), 1)).attempt.success
      && OutcomeOf(Corrected, Completed(lines, Some(1), 1)).attempt.state.got.errorKind
         == Some(SubprocessError)
  {
    var lines := [Line("{\"type\":\"message\",\"role\":\"assistant\",\"content\":\"hi\"}",
                       Decoded(Event("message", "assistant", "hi", "", None, None, None, "")))];
    assert lines[..0] == [];
    var acc := Fold(Reader, lines);
    assert acc == Step(Reader, Initial, lines[0]);
    assert !acc.aborted && acc.got.response == "hi";
    assert !acc.got.hadError && acc.got.errorKind == None;
    CheckedKind(acc.got, Some(1));
  }

  /** Corrected, an attempt that succeeds saw no error, a non-empty response,
      and no failing exit code. */
  lemma CorrectedSuccess(run: Run<Event>)
    requires OutcomeOf(Corrected, run).Ran? && OutcomeOf(Corrected, run).attempt.success
    ensures run.Completed? && !Fold(Reader, run.lines).got.hadError
    ensures Fold(Reader, run.lines).got.response != ""
    ensures run.exitCode == None || run.exitCode == Some(0)
  {
    FoldAbortedUnexpected(Reader, run.lines);
  }

  // ---------------------------------------------------------------------------
  // The retry loop and the reported result
  // ---------------------------------------------------------------------------

  /** A failure needing the user (no CLI, no login) is never retried: every
      attempt before the last one failed with another kind. */
  lemma NoRetryAfterAuthFailure(exitCodeRead: bool, runs: seq<Run<Event>>, maxRetries: nat, j: nat)
    requires maxRetries < |runs|
    requires j < Loop(GeminiTool(exitCodeRead), runs, maxRetries, 0, None, []).retries
    ensures OutcomeOf(GeminiTool(exitCodeRead), runs[j]).Ran?
    ensures var a := OutcomeOf(GeminiTool(exitCodeRead), runs[j]).attempt;
      a.timedOut
      || (a.state.got.errorKind != Some(AuthRequired) && a.state.got.errorKind != Some(CommandNotFound))
  {
    LoopRetriedBefore(GeminiTool(exitCodeRead), runs, maxRetries, 0, None, [], j);
  }

  /** A timeout is retried while retries remain: a loop that ends on a
      timeout has used them all. */
  lemma TimeoutsRetriedToTheLimit(exitCodeRead: bool, runs: seq<Run<Event>>, maxRetries: nat)
    requires maxRetries < |runs|
    ensures var end := Loop(GeminiTool(exitCodeRead), runs, maxRetries, 0, None, []);
      end.Finished? && end.last.timedOut ==> end.retries == maxRetries
  {
    LoopEndsOn(GeminiTool(exitCodeRead), runs, maxRetries, 0, None, []);
  }

  /** As written, the attempt the loop ends on never carries an exit code or
      a raw line count, so neither does what the tool reports. */
  lemma AsWrittenReportsNoExitCode(runs: seq<Run<Event>>, maxRetries: nat)
    requires maxRetries < |runs|
    ensures var end := Loop(AsWritten, runs, maxRetries, 0, None, []);
      end.Finished? ==> end.last.exitCode == None && end.last.rawOutputLines == 0
  {
    LoopEndsOn(AsWritten, runs, maxRetries, 0, None, []);
  }

  const AuthHint: string := "请先登录 Gemini CLI。运行以下命令完成认证：\n  gemini\n\n然后在交互界面中选择 \"Login with Google\" 完成登录。\n\n或使用 API Key 认证（设置环境变量 GEMINI_API_KEY）。\n\n"

  /** The dict `gemini_tool` returns once the loop is over. A failure reports
      the saved `last_error`, with login instructions in front of an
      AUTH_REQUIRED message; both outcomes carry the formatted duration. */
  function Report(end: LoopEnd, timeout: int, maxDuration: int, durationMs: int): (r: ToolResult)
    ensures end.Missing? ==> r == NotFoundResult(end.message)
    ensures end.Finished? && end.success ==>
      r == Succeeded(end.last.state.got.session, end.last.state.got.response,
                     Some(DurationText(durationMs)))
    ensures end.Finished? && !end.success && end.lastError.Some? ==>
      && r.Failed? && r.errorKind == end.lastError.value.errorKind
      && r.duration == Some(DurationText(durationMs))
      && r.error == (if r.errorKind == Some(AuthRequired) then AuthHint else "")
                    + end.lastError.value.errMessage
      && r.detail.exitCode == end.lastError.value.exitCode
  {
    match end
    case Missing(message, _) => NotFoundResult(message)
    case Finished(success, last, retries, lastError, allLastLines) =>
      if success then
        Succeeded(last.state.got.session, last.state.got.response, Some(DurationText(durationMs)))
      else
        var saved := if lastError.Some? then lastError.value else LastErrorOf(last);
        var message := if saved.errorKind == Some(AuthRequired) then AuthHint + saved.errMessage
                       else saved.errMessage;
        FailureResult(saved.errorKind, message, saved.exitCode, saved.jsonDecodeErrors,
                      allLastLines, retries, timeout, maxDuration, Some(DurationText(durationMs)))
  }

  /** What the tool reports after a failed loop is the final attempt: its
      kind, its exit code, and its message (after any login instructions). */
  lemma ReportsFinalAttempt(exitCodeRead: bool, runs: seq<Run<Event>>, maxRetries: nat,
                            timeout: int, maxDuration: int, durationMs: int)
    requires maxRetries < |runs|
    ensures var end := Loop(GeminiTool(exitCodeRead), runs, maxRetries, 0, None, []);
      var r := Report(end, timeout, maxDuration, durationMs);
      end.Finished? && !end.success ==>
        && r.Failed?
        && r.errorKind == end.last.state.got.errorKind
        && r.detail.exitCode == end.last.exitCode
        && EndsWith(r.error, end.last.state.got.errMessage)
  {
    var end := Loop(GeminiTool(exitCodeRead), runs, maxRetries, 0, None, []);
    LoopEndsOn(GeminiTool(exitCodeRead), runs, maxRetries, 0, None, []);
    if end.Finished? && !end.success {
      var saved := end.lastError.value;
      assert saved == LastErrorOf(end.last);
      var r := Report(end, timeout, maxDuration, durationMs);
      var hint := if r.errorKind == Some(AuthRequired) then AuthHint else "";
      assert r.error == hint + saved.errMessage;
      assert r.error[|hint|..] == saved.errMessage;
    }
  }

  // ---------------------------------------------------------------------------
  // The command line and the tool
  // ---------------------------------------------------------------------------

  const DefaultModel: string := "gemini-3-pro-preview"

  /** The argv of `gemini`: stream-json output, then `--yolo` in yolo mode or
      `--sandbox` for a read-only sandbox, the model (default
      gemini-3-pro-preview), and `--resume` with a non-empty session id. The
      prompt goes to stdin, not the command line. */
  method BuildArgv(sandbox: Sandbox, yolo: bool, model: string, sessionId: string)
    returns (cmd: seq<string>)
    ensures var flag := if yolo then 1 else if sandbox == ReadOnly then 1 else 0;
      && |cmd| == 5 + flag + (if sessionId != "" then 2 else 0)
      && cmd[..3] == ["gemini", "--output-format", "stream-json"]
      && (yolo ==> cmd[3] == "--yolo")
      && (!yolo && sandbox == ReadOnly ==> cmd[3] == "--sandbox")
      && cmd[3 + flag..5 + flag] == ["--model", if model != "" then model else DefaultModel]
      && (sessionId != "" ==> cmd[5 + flag..] == ["--resume", sessionId])
  {
    cmd := ["gemini"];
    cmd := cmd + ["--output-format", "stream-json"];
    ghost var head := cmd;
    if yolo {
      cmd := cmd + ["--yolo"];
    } else if sandbox == ReadOnly {
      cmd := cmd + ["--sandbox"];
    }
    ghost var flagPart := cmd[3..];
    assert cmd == head + flagPart;
    var modelToUse := if model != "" then model else DefaultModel;
    cmd := cmd + ["--model", modelToUse];
    if sessionId != "" {
      cmd := cmd + ["--resume", sessionId];
    }
    ghost var resumePart := if sessionId != "" then ["--resume", sessionId] else [];
    assert cmd == head + flagPart + ["--model", modelToUse] + resumePart;
    ghost var flag := |flagPart|;
    assert cmd[3 + flag..5 + flag] == ["--model", modelToUse];
  }

  /** `gemini_tool`: the retry loop over the runs of the CLI, the metrics of
      the final attempt, and the reported result; `exitCodeRead` is false for
      the loop as written and true for the corrected one. */
  method Execute(exitCodeRead: bool, prompt: string, sandbox: Sandbox, yolo: bool, timeout: int,
                 maxDuration: int, maxRetries: nat, runs: seq<Run<Event>>, durationMs: int)
    returns (result: ToolResult, metrics: MetricsCollector)
    requires maxRetries < |runs|
    ensures result == Report(Loop(GeminiTool(exitCodeRead), runs, maxRetries, 0, None, []),
                             timeout, maxDuration, durationMs)
    ensures fresh(metrics) && metrics.tool == "gemini"
    ensures metrics.sandbox == if yolo then "yolo" else SandboxName(sandbox)
    ensures RecordsEnd(metrics, Loop(GeminiTool(exitCodeRead), runs, maxRetries, 0, None, []))
    ensures metrics.success == result.Succeeded?
    ensures metrics.durationMs == durationMs
  {
    metrics := new MetricsCollector("gemini", prompt, if yolo then "yolo" else SandboxName(sandbox));
    var end := RetryLoop(GeminiTool(exitCodeRead), runs, maxRetries);
    FinishAfterLoop(metrics, end, durationMs);
    result := Report(end, timeout, maxDuration, durationMs);
  }
}
