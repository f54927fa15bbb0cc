/**
 * Vocabulary shared by the three tool wrappers (gemini.py, codex.py, glm.py).
 * Each of those files carries its own identical copy of the error kinds,
 * `MetricsCollector`, `_build_error_detail` and the 20-line tail buffer; the
 * model states each of them once, here.
 *
 * The subprocess runners are not modelled: what one attempt observes is given
 * as a `Run`, a finite sequence of already-decoded output lines followed by
 * the exit code, a timeout, or the CLI being absent.
 */
module ToolCommon {
  import opened Basics
  import opened Text

  // ---------------------------------------------------------------------------
  // Error kinds and sandbox policies
  // ---------------------------------------------------------------------------

  /** The `ErrorKind` string constants (AUTH_REQUIRED exists only for Gemini,
      CONFIG_ERROR only for GLM). */
  datatype ErrorKind =
    | Timeout
    | IdleTimeout
    | CommandNotFound
    | UpstreamError
    | AuthRequired
    | JsonDecode
    | ProtocolMissingSession
    | EmptyResult
    | SubprocessError
    | ConfigError
    | UnexpectedException

  /** The wire name of an error kind, as it appears under "error_kind". */
  function KindName(k: ErrorKind): string {
    match k
    case Timeout => "timeout"
    case IdleTimeout => "idle_timeout"
    case CommandNotFound => "command_not_found"
    case UpstreamError => "upstream_error"
    case AuthRequired => "auth_required"
    case JsonDecode => "json_decode"
    case ProtocolMissingSession => "protocol_missing_session"
    case EmptyResult => "empty_result"
    case SubprocessError => "subprocess_error"
    case ConfigError => "config_error"
    case UnexpectedException => "unexpected_exception"
  }

  /** The `sandbox` literal accepted by every tool. */
  datatype Sandbox = ReadOnly | WorkspaceWrite | DangerFullAccess

  function SandboxName(s: Sandbox): string {
    match s
    case ReadOnly => "read-only"
    case WorkspaceWrite => "workspace-write"
    case DangerFullAccess => "danger-full-access"
  }

  // ---------------------------------------------------------------------------
  // The output stream of one attempt
  // ---------------------------------------------------------------------------

  /** What `json.loads(line)` and the per-line handler make of one line.
      `Malformed` is a line that decodes but whose shape makes the handler
      raise (a top-level value that is not an object, or a field of the wrong
      JSON type): the source's `except Exception` branch. `typeField` is the
      object's "type" string ("" when absent, not a string, or not an object). */
  datatype Parsed<E> =
    | Decoded(event: E)
    | Undecodable
    | Malformed(typeField: string, detail: string)

  /** One stripped output line, as the runner delivers it, and its decoding. */
  datatype Line<E> = Line(text: string, parsed: Parsed<E>)

  /** What one run of the CLI yields to the tool loop. `Completed` carries the
      generator's return value `(exit_code, raw_output_lines)`; `TimedOut` is a
      `CommandTimeoutError` raised after the given lines (idle or total
      duration); `NotFound` is a `CommandNotFoundError`. */
  datatype Run<E> =
    | Completed(lines: seq<Line<E>>, exitCode: Option<int>, rawOutputLines: nat)
    | TimedOut(lines: seq<Line<E>>, idle: bool, message: string)
    | NotFound(message: string)

  function Texts<E>(lines: seq<Line<E>>): (texts: seq<string>)
    ensures |texts| == |lines|
    ensures forall i :: 0 <= i < |lines| ==> texts[i] == lines[i].text
  {
    seq(|lines|, i requires 0 <= i < |lines| => lines[i].text)
  }

  // ---------------------------------------------------------------------------
  // Per-attempt loop state
  // ---------------------------------------------------------------------------

  /** What the event handlers of a tool gather from its output: the response
      text (`agent_messages` / `result_content`), the session id (`session_id`
      / `thread_id`), the error flag, the error message and the error kind. */
  datatype Gathered = Gathered(
    response: string,
    session: Option<string>,
    hadError: bool,
    errMessage: string,
    errorKind: Option<ErrorKind>)

  /** The locals of one attempt's per-line loop: what the handlers gathered,
      the JSON-decode-error count, the tail of the last 20 lines, and whether
      the loop broke out on an unexpected exception. */
  datatype Acc = Acc(
    got: Gathered,
    jsonDecodeErrors: nat,
    lastLines: seq<string>,
    aborted: bool)

  const Nothing: Gathered := Gathered("", None, false, "", None)
  const Initial: Acc := Acc(Nothing, 0, [], false)

  /** `had_error` is set exactly when an error kind is recorded. */
  predicate FlagsAgree(g: Gathered) {
    g.hadError <==> g.errorKind.Some?
  }

  /** The `except Exception` branch: record the error and leave the loop. */
  function Unexpected(acc: Acc, detail: string): (r: Acc)
    ensures r.aborted && r.got.hadError && r.got.errorKind == Some(UnexpectedException)
    ensures r.got.response == acc.got.response && r.got.session == acc.got.session
    ensures r.lastLines == acc.lastLines && r.jsonDecodeErrors == acc.jsonDecodeErrors
    ensures acc.got.errMessage < r.got.errMessage
  {
    var g := acc.got;
    acc.(got := g.(errMessage := g.errMessage + "\n\n[unexpected error] " + detail,
                   hadError := true, errorKind := Some(UnexpectedException)),
         aborted := true)
  }

  // ---------------------------------------------------------------------------
  // The tail buffer: `last_lines.append(line); if len(last_lines) > 20: pop(0)`
  // ---------------------------------------------------------------------------

  const TailLimit: nat := 20

  /** The most recent (at most) 20 entries of `s`: Python's `s[-20:]`. */
  function Window(s: seq<string>): (w: seq<string>)
    ensures |w| == if |s| <= TailLimit then |s| else TailLimit
    ensures w == s[|s| - |w|..]
  {
    if |s| <= TailLimit then s else s[|s| - TailLimit..]
  }

  /** One step of the buffer: append, then drop the oldest entry when over 20. */
  function PushTail(tail: seq<string>, text: string): seq<string> {
    var t := tail + [text];
    if |t| > TailLimit then t[1..] else t
  }

  /** The buffer, pushed one line at a time, always holds the window of all the
      lines pushed so far: never more than 20 entries, the newest last. */
  lemma PushTailWindow(s: seq<string>, text: string)
    ensures PushTail(Window(s), text) == Window(s + [text])
  {
    var n := |s|;
    if n >= TailLimit {
      assert (s[n - TailLimit..] + [text])[1..] == (s + [text])[n + 1 - TailLimit..];
    }
  }

  /** Pushing the texts of `lines[..k+1]` one by one: the window moves by one line. */
  lemma WindowStep<E>(lines: seq<Line<E>>, k: nat)
    requires k < |lines|
    ensures PushTail(Window(Texts(lines[..k])), lines[k].text) == Window(Texts(lines[..k + 1]))
  {
    assert Texts(lines[..k + 1]) == Texts(lines[..k]) + [lines[k].text];
    PushTailWindow(Texts(lines[..k]), lines[k].text);
  }

  // ---------------------------------------------------------------------------
  // Attempts, last errors and results
  // ---------------------------------------------------------------------------

  /** The outcome of one attempt: the loop state after classification, the
      success flag, the exit code and raw line count the attempt observed, and
      whether it ended in a timeout. */
  datatype Attempt = Attempt(
    state: Acc,
    success: bool,
    exitCode: Option<int>,
    rawOutputLines: nat,
    timedOut: bool)

  /** The `except CommandTimeoutError` branch: the kind tells an idle timeout
      from the total-duration limit, the timeout's message replaces the one
      gathered so far, and the attempt fails. */
  function TimedOutAttempt(acc: Acc, idle: bool, message: string): (a: Attempt)
    ensures !a.success && a.timedOut && a.state.got.hadError
    ensures a.state.got.errorKind == Some(if idle then IdleTimeout else Timeout)
    ensures a.state.got.errMessage == message && a.exitCode == None && a.rawOutputLines == 0
    ensures a.state.lastLines == acc.lastLines && a.state.jsonDecodeErrors == acc.jsonDecodeErrors
  {
    var g := acc.got;
    Attempt(acc.(got := g.(errorKind := Some(if idle then IdleTimeout else Timeout),
                           hadError := true, errMessage := message)),
            false, None, 0, true)
  }

  /** The `last_error` dict saved after a failed attempt. */
  datatype LastError = LastError(
    errorKind: Option<ErrorKind>,
    errMessage: string,
    exitCode: Option<int>,
    jsonDecodeErrors: nat,
    rawOutputLines: nat)

  function LastErrorOf(a: Attempt): LastError {
    LastError(a.state.got.errorKind, a.state.got.errMessage, a.exitCode,
              a.state.jsonDecodeErrors, a.rawOutputLines)
  }

  /** Where a retry loop ends: with the state of its final attempt, the retry
      count, the saved `last_error` and `all_last_lines`; or with the early
      return taken when the CLI is not installed. */
  datatype LoopEnd =
    | Finished(success: bool, last: Attempt, retries: nat, lastError: Option<LastError>,
               allLastLines: seq<string>)
    | Missing(message: string, retries: nat)

  /** The structured `error_detail` dict; an absent key is `None`. */
  datatype ErrorDetail = ErrorDetail(
    message: string,
    exitCode: Option<int>,
    lastLines: Option<seq<string>>,
    jsonDecodeErrors: Option<int>,
    idleTimeoutS: Option<int>,
    maxDurationS: Option<int>,
    retries: Option<int>)

  /** `_build_error_detail`: "message" always, every other key only when it
      carries information, and at most the last 20 lines. */
  function BuildErrorDetail(message: string, exitCode: Option<int>, lastLines: seq<string>,
                            jsonDecodeErrors: int, idleTimeoutS: Option<int>,
                            maxDurationS: Option<int>, retries: int): (d: ErrorDetail)
    ensures d.message == message
    ensures d.exitCode == exitCode
    ensures d.lastLines.Some? <==> |lastLines| > 0
    ensures d.lastLines.Some? ==> d.lastLines.value == Window(lastLines)
    ensures d.lastLines.Some? && |lastLines| <= TailLimit ==> d.lastLines.value == lastLines
    ensures d.jsonDecodeErrors.Some? <==> jsonDecodeErrors > 0
    ensures d.jsonDecodeErrors.Some? ==> d.jsonDecodeErrors.value == jsonDecodeErrors
    ensures d.idleTimeoutS == idleTimeoutS && d.maxDurationS == maxDurationS
    ensures d.retries.Some? <==> retries > 0
    ensures d.retries.Some? ==> d.retries.value == retries
  {
    ErrorDetail(
      message,
      exitCode,
      if |lastLines| > 0 then Some(Window(lastLines)) else None,
      if jsonDecodeErrors > 0 then Some(jsonDecodeErrors) else None,
      idleTimeoutS,
      maxDurationS,
      if retries > 0 then Some(retries) else None)
  }

  /** The value a tool returns; `duration` is present only in Gemini's results. */
  datatype ToolResult =
    | Succeeded(sessionId: Option<string>, result: string, duration: Option<string>)
    | Failed(error: string, errorKind: Option<ErrorKind>, detail: ErrorDetail,
             duration: Option<string>)

  const UnknownError: string := "未知错误"

  /** The notes the classification puts in front of the error message. */
  const MissingSessionNote: string := "未能获取 SESSION_ID。\n\n"

  /** One check after the per-line loop: when it fails the attempt, it records
      its kind unless a kind is already recorded, and puts its note in front of
      the message; the error flag, response and session are left alone. */
  function Check(g: Gathered, fails: bool, failKind: ErrorKind, note: string): (r: Gathered)
    ensures r.response == g.response && r.session == g.session && r.hadError == g.hadError
    ensures r.errorKind == if fails && g.errorKind == None then Some(failKind) else g.errorKind
    ensures r.errMessage == if fails then note + g.errMessage else g.errMessage
    ensures EndsWith(r.errMessage, g.errMessage)
  {
    var r := g.(errorKind := if fails && g.errorKind == None then Some(failKind) else g.errorKind,
                errMessage := if fails then note + g.errMessage else g.errMessage);
    assert r.errMessage[|r.errMessage| - |g.errMessage|..] == g.errMessage;
    r
  }

  function ExitCodeNote(code: int): string {
    "进程退出码非零：" + IntToString(code) + "\n\n"
  }

  /** The failure dict built after the retry loop: the message of the detail is
      the first line of the error text, or "unknown error" when it is empty; the
      idle limit is reported for an idle timeout, the total limit for a
      total-duration timeout. */
  function FailureResult(kind: Option<ErrorKind>, errMessage: string, exitCode: Option<int>,
                         jsonDecodeErrors: nat, allLastLines: seq<string>, retries: nat,
                         timeout: int, maxDuration: int, duration: Option<string>): (r: ToolResult)
    ensures r.Failed? && r.error == errMessage && r.errorKind == kind && r.duration == duration
    ensures errMessage != "" ==> r.detail.message == FirstLine(errMessage)
    ensures errMessage == "" ==> r.detail.message == UnknownError
    ensures r.detail.idleTimeoutS.Some? <==> kind == Some(IdleTimeout)
    ensures r.detail.maxDurationS.Some? <==> kind == Some(Timeout)
    ensures r.detail.retries.Some? <==> retries > 0
  {
    Failed(errMessage, kind,
           BuildErrorDetail(
             if errMessage != "" then FirstLine(errMessage) else UnknownError,
             exitCode, allLastLines, jsonDecodeErrors,
             if kind == Some(IdleTimeout) then Some(timeout) else None,
             if kind == Some(Timeout) then Some(maxDuration) else None,
             retries),
           duration)
  }

  /** The early return when the CLI is not on PATH. */
  function NotFoundResult(message: string): ToolResult {
    Failed(message, Some(CommandNotFound),
           BuildErrorDetail(message, None, [], 0, None, None, 0), None)
  }

  // ---------------------------------------------------------------------------
  // Windows command-line escaping of the prompt (codex.py and glm.py)
  // ---------------------------------------------------------------------------

  /** `PROMPT.replace('\r\n', '\\n').replace('\n', '\\n')`: every line break
      becomes the two characters backslash and n. */
  function EscapeNewlines(prompt: string): string {
    ReplaceAll(ReplaceAll(prompt, "\r\n", "\\n"), "\n", "\\n")
  }

  /** The escaped prompt holds no line feed, so it stays one argument on the
      Windows command line; a prompt without line feeds is passed unchanged. */
  lemma EscapeNewlinesFlat(prompt: string)
    ensures '\n' !in EscapeNewlines(prompt)
    ensures '\n' !in prompt ==> EscapeNewlines(prompt) == prompt
  {
    var once := ReplaceAll(prompt, "\r\n", "\\n");
    ReplaceAllRemovesChar(once, '\n', "\\n");
    if '\n' !in prompt {
      AbsentCharNotContained(prompt, "\r\n", 1);
      ReplaceAllAbsent(prompt, "\r\n", "\\n");
      AbsentCharNotContained(once, "\n", 0);
      ReplaceAllAbsent(once, "\n", "\\n");
    }
  }

  /** A pattern with a character that `s` lacks does not occur in `s`. */
  lemma AbsentCharNotContained(s: string, pat: string, k: nat)
    requires k < |pat| && pat[k] !in s
    ensures !Contains(s, pat)
  {
    forall i | 0 <= i && i + |pat| <= |s| ensures !OccursAt(s, pat, i) {
      assert s[i..i + |pat|][k] == s[i + k];
      assert s[i + k] in s;
    }
  }

  // ---------------------------------------------------------------------------
  // Metrics
  // ---------------------------------------------------------------------------

  /** `format_duration`'s split of a duration in milliseconds into whole minutes
      and the remaining whole seconds. Python's `//` and `%` round toward minus
      infinity, which for the positive divisors used here is Dafny's Euclidean
      `/` and `%`, so a negative duration is covered as well. */
  function DurationParts(durationMs: int): (r: (int, int))
    ensures 0 <= r.1 < 60
    ensures 60 * r.0 + r.1 == durationMs / 1000
  {
    var totalSeconds := durationMs / 1000;
    (totalSeconds / 60, totalSeconds % 60)
  }

  /** The "xmys" rendering of a duration. */
  function DurationText(durationMs: int): string {
    var (minutes, seconds) := DurationParts(durationMs);
    IntToString(minutes) + "m" + IntToString(seconds) + "s"
  }

  /** `MetricsCollector`: the per-call record a tool fills in once it is done.
      Wall-clock timestamps are not modelled; `finish` receives the duration. */
  class MetricsCollector {
    const tool: string
    const sandbox: string
    const promptChars: nat
    const promptLines: nat
    var finished: bool
    var durationMs: int
    var success: bool
    var errorKind: Option<ErrorKind>
    var retries: nat
    var exitCode: Option<int>
    var resultChars: nat
    var resultLines: nat
    var rawOutputLines: nat
    var jsonDecodeErrors: nat

    /** The prompt's size is its character count and its number of lines
        (a prompt without line feeds is one line). */
    constructor (tool: string, prompt: string, sandbox: string)
      ensures this.tool == tool && this.sandbox == sandbox
      ensures promptChars == |prompt| && promptLines == |Split(prompt, '\n')|
      ensures !finished && durationMs == 0 && !success && errorKind == None
      ensures retries == 0 && exitCode == None && resultChars == 0 && resultLines == 0
      ensures rawOutputLines == 0 && jsonDecodeErrors == 0
    {
      this.tool := tool;
      this.sandbox := sandbox;
      promptChars := |prompt|;
      promptLines := CountChar(prompt, '\n') + 1;
      finished := false;
      durationMs := 0;
      success := false;
      errorKind := None;
      retries := 0;
      exitCode := None;
      resultChars := 0;
      resultLines := 0;
      rawOutputLines := 0;
      jsonDecodeErrors := 0;
      SplitCount(prompt, '\n');
    }

    /** `finish`: records the outcome; the result's size is its character count
        and its number of lines, an empty result having none. */
    method Finish(success: bool, errorKind: Option<ErrorKind>, result: string,
                  exitCode: Option<int>, rawOutputLines: nat, jsonDecodeErrors: nat,
                  retries: nat, durationMs: int)
      modifies this
      ensures finished && this.durationMs == durationMs
      ensures this.success == success && this.errorKind == errorKind
      ensures this.exitCode == exitCode && this.rawOutputLines == rawOutputLines
      ensures this.jsonDecodeErrors == jsonDecodeErrors && this.retries == retries
      ensures resultChars == |result|
      ensures resultLines == if result == "" then 0 else |Split(result, '\n')|
    {
      finished := true;
      this.durationMs := durationMs;
      this.success := success;
      this.errorKind := errorKind;
      resultChars := |result|;
      resultLines := if result != "" then CountChar(result, '\n') + 1 else 0;
      this.exitCode := exitCode;
      this.rawOutputLines := rawOutputLines;
      this.jsonDecodeErrors := jsonDecodeErrors;
      this.retries := retries;
      SplitCount(result, '\n');
    }

    /** `format_duration`. */
    function FormatDuration(): string
      reads this
    {
      DurationText(durationMs)
    }
  }
}
