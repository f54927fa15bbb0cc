# Coder-Codex-Gemini tool wrappers in Dafny

This project models the MCP tools that wrap three command-line coding agents:
Gemini (`gemini_tool`), Codex (`codex_tool`) and GLM (`glm_tool`, Claude Code pointed at
the GLM endpoint). It also models the configuration loader of the Coder backend.

All three tools work the same way. Each builds an argv and runs the CLI. It then reads
the output line by line as JSON events. From these it folds a response, a session id
and an error state. It keeps the last 20 raw lines and counts the lines that are not
JSON. Once the output ends it classifies the attempt: success, or failure with an error
kind and an error message. A failed attempt may be retried, depending on the tool's
policy. The tool then reports either a success dict or a failure dict with a structured
error detail. It also fills in a metrics record.

The model has these modules:

- `Basics`: `Option` and `Result`.
- `Text`: the Python string operations the tools rely on: `lower`, `in`, `split`,
  `replace`, `count` and `str(int)`.
- `ToolCommon`: what the three tool files share:
  - the error kinds, the parsed output lines and the runner's outcome for one attempt;
  - the per-line accumulator and the 20-line tail;
  - `_build_error_detail`, the failure dict and the Windows prompt escaping;
  - the `MetricsCollector` class.
- `ToolLoop`: the generic per-line loop and retry loop.
  - `Fold` and `Loop` are the specification functions.
  - `Consume` and `RetryLoop` are the imperative loops, each proved equal to its function.
  - A tool plugs in through its event handler, classification and retry policy.
- `Gemini`, `Codex`, `Glm`: each tool's event handler, classification, retry policy,
  report, argv and complete call.
- `Config`: `load_config`, `validate_config`, `build_coder_env` and the configuration
  cache.

The subprocess runner is not modelled. Each attempt's run is a parameter: the lines it
delivered, then either its exit code and raw line count, a timeout, or a missing
command. The clock is a parameter too (the duration in milliseconds), and so is the
platform (`windows`). The config file and the process environment are parameters of
`Config`.

## Model

| member | source | states |
|---|---|---|
| Text.LowerOfFolded | src/ccg_mcp/tools/gemini.py:549 | lower-casing is idempotent and erases the difference upper-casing makes |
| Text.Contains | src/ccg_mcp/tools/gemini.py:563 | `sub in s` holds exactly when `sub` occurs at some position of `s` |
| Text.EndsWithTrans | src/ccg_mcp/tools/gemini.py:817-828 | a suffix of a suffix is a suffix, so notes put in front one after another keep the original message at the end |
| Text.SplitCount | src/ccg_mcp/tools/gemini.py:68 | `s.count(c) + 1` is the number of pieces `s.split(c)` yields |
| Text.SplitPiecesFree | src/ccg_mcp/tools/gemini.py:907 | no piece of a split holds the separator |
| Text.JoinSplit | src/ccg_mcp/tools/gemini.py:907 | joining the pieces of a split gives back the string |
| Text.SplitJoin | src/ccg_mcp/tools/gemini.py:907 | splitting separator-free pieces joined by the separator gives back the pieces |
| Text.JoinCons | src/ccg_mcp/tools/gemini.py:907 | a join is the first piece followed by the separator and the join of the rest |
| Text.FirstLine | src/ccg_mcp/tools/gemini.py:907 | `split('\n')[0]` is the longest prefix without a line feed |
| Text.FirstPieceIsPrefix | src/ccg_mcp/tools/gemini.py:907 | the first piece of a split is a prefix ended by the separator or by the string's end |
| Text.ReplaceAllRemovesChar | src/glm_codex_mcp/tools/codex.py:422 | replacing every occurrence of a character with text that lacks it removes the character |
| Text.ReplaceAllAbsent | src/glm_codex_mcp/tools/codex.py:422 | replacing a pattern that does not occur changes nothing |
| Text.NatToString | src/ccg_mcp/tools/gemini.py:828 | the decimal rendering is non-empty, all digits, and has no leading zero |
| Text.NatToStringValue | src/ccg_mcp/tools/gemini.py:828 | the decimal rendering of `n` reads back as `n` |
| ToolCommon.Unexpected | src/ccg_mcp/tools/gemini.py:743-747 | a handler exception marks an error of kind UNEXPECTED_EXCEPTION and extends the message; response, session, tail and counter are kept, and the loop stops |
| ToolCommon.Window | src/ccg_mcp/tools/gemini.py:688-690 | the tail holds the last `min(n, 20)` lines |
| ToolCommon.PushTailWindow | src/ccg_mcp/tools/gemini.py:688-690 | append-then-pop-front on the tail equals the window of the extended sequence |
| ToolCommon.WindowStep | src/ccg_mcp/tools/gemini.py:688-690 | one line pushed onto the tail of the first k lines gives the tail of the first k+1 |
| ToolCommon.TimedOutAttempt | src/ccg_mcp/tools/gemini.py:773-802 | a timeout fails the attempt with IDLE_TIMEOUT or TIMEOUT; its message replaces the error text; exit code None and raw count 0; tail and decode count kept |
| ToolCommon.BuildErrorDetail | src/ccg_mcp/tools/gemini.py:514-537 | each optional field is present exactly when the source adds it; last_lines is the 20-line window |
| ToolCommon.Check | src/glm_codex_mcp/tools/codex.py:554-571 | one post-loop check: on failure the kind is recorded unless one already is, and the note goes in front of the message; nothing else changes |
| ToolCommon.FailureResult | src/ccg_mcp/tools/gemini.py:901-916 | the failure dict: detail message is the first line or "未知错误"; idle limit only for IDLE_TIMEOUT, total limit only for TIMEOUT, retries only when positive |
| ToolCommon.EscapeNewlinesFlat | src/glm_codex_mcp/tools/codex.py:421-423 | the escaped prompt holds no line feed; a prompt without one is unchanged |
| ToolCommon.AbsentCharNotContained | src/glm_codex_mcp/tools/codex.py:422 | a pattern with a character absent from `s` does not occur in `s` |
| ToolCommon.DurationParts | src/ccg_mcp/tools/gemini.py:124-129 | minutes and seconds (0 to 59) that recombine to the whole seconds of the duration |
| ToolCommon.MetricsCollector.constructor | src/ccg_mcp/tools/gemini.py:65-80 | the initial record; prompt_lines is the number of lines of the prompt |
| ToolCommon.MetricsCollector.Finish | src/ccg_mcp/tools/gemini.py:82-102 | every field is set from the arguments; result_lines is 0 for an empty result, else its number of lines |
| ToolLoop.Step | src/ccg_mcp/tools/gemini.py:687-747 | one line: pushed onto the tail, decode count +1 exactly for an undecodable line, loop stopped exactly on a handler exception |
| ToolLoop.Consumed | src/ccg_mcp/tools/gemini.py:687-747 | the number of lines the loop reads is at most the number delivered |
| ToolLoop.FoldAbortedStable | src/ccg_mcp/tools/gemini.py:743-747 | after the break no later line changes the state |
| ToolLoop.FoldAbortedUnexpected | src/ccg_mcp/tools/gemini.py:743-747 | a stopped loop has an error of kind UNEXPECTED_EXCEPTION |
| ToolLoop.FoldStopsAtMalformed | src/ccg_mcp/tools/gemini.py:743-747 | the loop reads up to and including the first line whose handling raises, and no further |
| ToolLoop.ConsumedStep | src/ccg_mcp/tools/gemini.py:687-747 | reading one more line adds it to the consumed prefix unless the loop had stopped |
| ToolLoop.FoldTail | src/ccg_mcp/tools/gemini.py:688-690 | the kept tail is the last 20 lines read, never more than 20 |
| ToolLoop.FoldDecodeErrors | src/ccg_mcp/tools/gemini.py:736-742 | json_decode_errors counts the undecodable lines read |
| ToolLoop.Consume | src/glm_codex_mcp/tools/codex.py:447-491 | the imperative per-line loop computes exactly the fold |
| ToolLoop.RunAttempt | src/glm_codex_mcp/tools/codex.py:443-571 | one attempt's outcome: missing command, timeout, or the classification of the fold (exit code unseen after a break) |
| ToolLoop.Loop | src/glm_codex_mcp/tools/codex.py:432-600 | the retry count stays between its start and `max_retries` |
| ToolLoop.LoopRetriedBefore | src/glm_codex_mcp/tools/codex.py:573-600 | every attempt before the last ran, failed, and was one the policy retries |
| ToolLoop.LoopEndsOn | src/glm_codex_mcp/tools/codex.py:573-600 | the loop ends on a missing command, a success, or a failure the policy does not retry or with no retries left; a failure saves that attempt's last_error and tail |
| ToolLoop.LoopSuccessKeepsLastError | src/glm_codex_mcp/tools/codex.py:573-600 | a success after retries keeps the previous attempt's last_error |
| ToolLoop.RetryLoop | src/glm_codex_mcp/tools/codex.py:428-600 | the imperative retry loop computes exactly the loop function |
| Gemini.AnyContained | src/ccg_mcp/tools/gemini.py:563 | `any(k in s for k in keywords)` holds iff some keyword occurs in `s` |
| Gemini.IsAuthError | src/ccg_mcp/tools/gemini.py:544-563 | an auth error is one whose lower-cased text contains an auth keyword |
| Gemini.AuthErrorIgnoresCase | src/ccg_mcp/tools/gemini.py:544-549 | detection is case-insensitive: upper- or lower-casing the text does not change it |
| Gemini.OnEvent | src/ccg_mcp/tools/gemini.py:692-735 | an assistant message appends its content; a result supplies the response only when none was gathered; an init event sets the session from thread_id, else session_id, else keeps it; other events leave response and session alone; AUTH_REQUIRED is never overwritten; an error event flags the error with the auth or upstream kind; other events leave the error state alone |
| Gemini.GathersStep | src/ccg_mcp/tools/gemini.py:699-720 | one more line read keeps the response and the session equal to their definitions over the lines read |
| Gemini.FoldGathers | src/ccg_mcp/tools/gemini.py:699-720 | after the loop the response is the first result taken while nothing was gathered, followed by all assistant texts in order; the session is that of the last init event naming one |
| Gemini.AuthRequiredSticky | src/ccg_mcp/tools/gemini.py:725-734 | once AUTH_REQUIRED is recorded it survives every later line |
| ToolLoop.FoldFlagsAgree | src/ccg_mcp/tools/gemini.py:687-747 | for every tool whose handler keeps them in step, an error is flagged exactly when an error kind is recorded, throughout the loop |
| Gemini.Checked | src/ccg_mcp/tools/gemini.py:811-828 | the checks leave response, session and error flag unchanged |
| Gemini.CheckedKind | src/ccg_mcp/tools/gemini.py:811-828 | the kind is the loop's own, else EMPTY_RESULT for an empty response, else SUBPROCESS_ERROR for a non-zero exit of an error-free attempt; a missing session is no failure |
| Gemini.CheckedMessage | src/ccg_mcp/tools/gemini.py:817-828 | the message after the checks ends with the loop's message |
| Gemini.Classify | src/ccg_mcp/tools/gemini.py:804-830 | success iff no error, a non-empty response and exit code None or 0; the state is the loop's state after the checks; a failure always has a kind |
| Gemini.ClassifyAsWritten | src/ccg_mcp/tools/gemini.py:748-751 | as written the classification always sees exit code None and raw count 0 |
| Gemini.AsWrittenIgnoresExitCode | src/ccg_mcp/tools/gemini.py:748-751 | the as-written outcome of a run is the same for every exit code |
| Gemini.ExitCodeLostAsWritten | src/ccg_mcp/tools/gemini.py:823-828 | a run with an answer and exit code 1 succeeds as written, fails with SUBPROCESS_ERROR when corrected |
| Gemini.CorrectedSuccess | src/ccg_mcp/tools/gemini.py:804-828 | a successful corrected attempt completed with no error, a non-empty response and exit code None or 0 |
| Gemini.NoRetryAfterAuthFailure | src/ccg_mcp/tools/gemini.py:830-857 | as written and corrected, no attempt before the last failed with COMMAND_NOT_FOUND or AUTH_REQUIRED |
| Gemini.TimeoutsRetriedToTheLimit | src/ccg_mcp/tools/gemini.py:773-802 | as written and corrected, a final timeout means no retries were left |
| Gemini.AsWrittenReportsNoExitCode | src/ccg_mcp/tools/gemini.py:748-751 | as written, the attempt the loop ends on has exit code None and raw line count 0, so the metrics and the error detail never carry them |
| Gemini.Report | src/ccg_mcp/tools/gemini.py:859-924 | success dict, or failure dict from last_error with the login hint in front for AUTH_REQUIRED; duration rendered |
| Gemini.ReportsFinalAttempt | src/ccg_mcp/tools/gemini.py:880-916 | as written and corrected, a reported failure carries the final attempt's kind and exit code, and its message ends with that attempt's message |
| Gemini.BuildArgv | src/ccg_mcp/tools/gemini.py:639-663 | `gemini --output-format stream-json`, `--yolo` or `--sandbox` (read-only only), the model (default gemini-3-pro-preview), `--resume` with a non-empty session |
| ToolLoop.FinishAfterLoop | src/ccg_mcp/tools/gemini.py:860-868 | the metrics record the final attempt's success, kind, response size, exit code, raw line and decode-error counts and the retry count; after a missing CLI only COMMAND_NOT_FOUND and the retries |
| Gemini.Execute | src/ccg_mcp/tools/gemini.py:631-924 | the call reports the result of the retry loop as written (exit code not read) or corrected; the metrics record that loop's end, and their success agrees with the result |
| Codex.SpaceSpan | src/glm_codex_mcp/tools/codex.py:474 | the longest whitespace prefix |
| Codex.DigitSpan | src/glm_codex_mcp/tools/codex.py:474 | the longest digit prefix |
| Codex.SpaceSpanOf | src/glm_codex_mcp/tools/codex.py:474 | whitespace followed by a non-space has exactly that span |
| Codex.DigitSpanOf | src/glm_codex_mcp/tools/codex.py:474 | digits followed by a non-digit have exactly that span |
| Codex.DigitsThenEndOf | src/glm_codex_mcp/tools/codex.py:474 | digits then an optional final line feed match `\d+$` |
| Codex.CountThenEndOf | src/glm_codex_mcp/tools/codex.py:474 | `d1/d2` then an optional final line feed matches `\d+/\d+$` |
| Codex.ReconnectingComplete | src/glm_codex_mcp/tools/codex.py:474 | every message of the shape `Reconnecting...`, whitespace, `n/m`, optional final line feed, is recognised |
| Codex.DigitsThenEndParts | src/glm_codex_mcp/tools/codex.py:474 | a `\d+$` match splits into digits and an optional line feed |
| Codex.CountThenEndParts | src/glm_codex_mcp/tools/codex.py:474 | a `\d+/\d+$` match splits into its two counts and an optional line feed |
| Codex.Reassemble | src/glm_codex_mcp/tools/codex.py:474 | a text cut after the prefix and after the whitespace is the concatenation of its pieces |
| Codex.ReconnectingParts | src/glm_codex_mcp/tools/codex.py:474 | a recognised message yields the whitespace and the two counts it is made of |
| Codex.ReconnectingSound | src/glm_codex_mcp/tools/codex.py:474 | every recognised message has that shape |
| Codex.OnEvent | src/glm_codex_mcp/tools/codex.py:454-479 | agent text appended; non-null thread_id kept; a "fail" type or a non-reconnect "error" type flags an upstream error with its message appended; nothing else touches the error state |
| Codex.ReconnectingIgnored | src/glm_codex_mcp/tools/codex.py:472-479 | a reconnect notice does not count as an error |
| Codex.FoldGathers | src/glm_codex_mcp/tools/codex.py:457-464 | the response is all agent texts read, in order; the session is the last thread id read |
| Codex.UndecodableNotAnError | src/glm_codex_mcp/tools/codex.py:481-485 | one non-JSON line is echoed into the message and counted, and leaves the error flag and kind alone |
| Codex.Checked | src/glm_codex_mcp/tools/codex.py:554-571 | the checks leave response, session and error flag unchanged |
| Codex.CheckedKind | src/glm_codex_mcp/tools/codex.py:554-571 | the kind is the loop's own, else PROTOCOL_MISSING_SESSION, else EMPTY_RESULT, else SUBPROCESS_ERROR for a non-zero exit of an error-free attempt |
| Codex.CheckedMessage | src/glm_codex_mcp/tools/codex.py:554-571 | the message ends with the loop's message, and with the missing-session note directly before it when the thread id is missing |
| Codex.Classify | src/glm_codex_mcp/tools/codex.py:548-573 | success iff no error, a thread id, a non-empty response and exit code None or 0; the state is the loop's state after the checks; a failure always has a kind |
| Codex.FoldKinds | src/glm_codex_mcp/tools/codex.py:447-491 | the loop records no kind, UPSTREAM_ERROR or UNEXPECTED_EXCEPTION |
| Codex.AttemptKindFound | src/glm_codex_mcp/tools/codex.py:517-571 | an attempt that ran never has kind COMMAND_NOT_FOUND |
| Codex.FailuresRetriedToTheLimit | src/glm_codex_mcp/tools/codex.py:573-600 | a final failure means no retries were left |
| Codex.Report | src/glm_codex_mcp/tools/codex.py:602-653 | success dict, or failure dict from last_error; no duration field |
| Codex.BuildArgv | src/glm_codex_mcp/tools/codex.py:399-425 | the exact argv, its optional parts in source order; on Windows the final prompt argument has no line feed |
| Codex.Execute | src/glm_codex_mcp/tools/codex.py:394-653 | the call reports the retry loop's result; the metrics record that loop's end, and their success agrees with the result |
| Glm.UntilCompleted | src/glm_codex_mcp/tools/glm.py:193-214 | the reader forwards a prefix of the output in which only the last line may complete the session (a result or error object), and it stops early only on such a line |
| Glm.OnEvent | src/glm_codex_mcp/tools/glm.py:450-464 | a result replaces response and session, and with is_error becomes the upstream error; an error object's message (or its rendering) replaces the message |
| Glm.FoldTakesLastResult | src/glm_codex_mcp/tools/glm.py:452-458 | response and session are those of the last result object read |
| Glm.Checked | src/glm_codex_mcp/tools/glm.py:521-538 | the checks leave response, session and error flag unchanged |
| Glm.CheckedKind | src/glm_codex_mcp/tools/glm.py:521-538 | the kind is the loop's own, else PROTOCOL_MISSING_SESSION; after an error nothing more; else EMPTY_RESULT, else SUBPROCESS_ERROR |
| Glm.CheckedMessage | src/glm_codex_mcp/tools/glm.py:521-538 | the message after the checks ends with the loop's message |
| Glm.CheckedMessageAfterError | src/glm_codex_mcp/tools/glm.py:518-531 | after an error in the loop only the missing-session note is put in front of the message |
| Glm.Classify | src/glm_codex_mcp/tools/glm.py:517-540 | success iff no error, a session, a non-empty response and exit code None or 0; the state is the loop's state after the checks; a failure always has a kind |
| Glm.TimeoutEndsLoop | src/glm_codex_mcp/tools/glm.py:500-515 | no attempt before the last timed out |
| Glm.OtherFailuresRetried | src/glm_codex_mcp/tools/glm.py:540-559 | a final failure other than a timeout means no retries were left; last_error is the final attempt's |
| Glm.Report | src/glm_codex_mcp/tools/glm.py:561-612 | success dict, or failure dict from last_error |
| Glm.ConfigFailureResult | src/glm_codex_mcp/tools/glm.py:374-393 | a configuration failure reports CONFIG_ERROR with "配置加载失败：" and the reason |
| Glm.BuildArgv | src/glm_codex_mcp/tools/glm.py:395-417 | the exact argv: print mode, JSON output, the system prompt, permissions skipped unless read-only, `-r` with a non-empty session, the prompt (escaped on Windows) |
| Glm.Execute | src/glm_codex_mcp/tools/glm.py:371-612 | a config failure ends the call with CONFIG_ERROR metrics and nothing else recorded; otherwise the call reports the retry loop's result and the metrics record that loop's end |
| Config.PyStrIntReadsBack | src/ccg_mcp/config.py:119-120 | an integer `[coder.env]` value becomes its decimal digits (with a minus sign when negative) and reads back as the same number |
| Config.LoadConfig | src/ccg_mcp/config.py:36-88 | an existing file wins, parsed or not; else a non-empty CODER_API_TOKEN builds the table with default endpoint and model; else no configuration |
| Config.ValidateConfig | src/ccg_mcp/config.py:125-140 | valid iff token and endpoint are present and non-empty; the token is checked first |
| Config.EnvironmentConfigValid | src/ccg_mcp/config.py:56-66 | an environment configuration has its token and is invalid exactly when CODER_BASE_URL is set to "" |
| Config.LoadConfigExamples | tests/unit/test_config.py:8-34 | the file case and the environment case of the configuration tests |
| Config.Fixed | src/ccg_mcp/config.py:101-116 | token (default ""), endpoint (default), and the model (default glm-4.7) for all four aliases |
| Config.BuildCoderEnv | src/ccg_mcp/config.py:91-122 | the process environment, overridden by the fixed variables, overridden by the `[coder.env]` values; no other keys |
| Config.ConfigCache.constructor | src/ccg_mcp/config.py:144 | the cache starts empty |
| Config.ConfigCache.GetConfig | src/ccg_mcp/config.py:147-161 | a filled cache is returned untouched; otherwise load, cache, then validate |
| Config.ConfigCache.GetValidConfig | src/ccg_mcp/config.py:147-161 | only a validated configuration is cached or returned |
| Config.ConfigCache.Reset | src/ccg_mcp/config.py:164-167 | the cache is empty again |
| Config.InvalidConfigServedAfterError | src/ccg_mcp/config.py:157-161 | a file without api_token: the first call fails, the second returns the invalid configuration |
| Config.InvalidConfigRejectedEachTime | src/ccg_mcp/config.py:150-161 | with validation before caching, both calls report the missing token |

## Left out

- The subprocess runners (`run_*_command`, `safe_gemini_command`) are left out. So are their threads, queues, idle and total-duration timers, and graceful shutdown. Each attempt's run is a parameter.
- The GLM reader's stop at the completing line is kept as `Glm.UntilCompleted`. It is not wired into the runs.
- `time.sleep` backoff between retries is not modelled; it affects timing only.
- `log_to_stderr`, `MetricsCollector.to_dict`, timestamps, the `return_all_messages` list and the `return_metrics` flag are not modelled. `finish` receives the duration rather than reading the clock.
- JSON decoding is not modelled. A line arrives already classified as one of three cases:
  - a decoded event with the fields the handler reads;
  - undecodable;
  - decoded but making the handler raise (a non-object, or a field of the wrong type).
- Non-string JSON values where the source expects a string are not modelled. So is a null error message in GLM. The handler's partial updates made before it raises are not modelled either; the exception branch is applied to the state from before the line.
- `Text.Lower` folds only ASCII letters, unlike Python's Unicode `str.lower`. The regular expression's `\s` and `\d` are taken as ASCII whitespace and ASCII digits.
- ToolLoop.Loop: `max_retries` is a natural number. A negative value makes the source raise `UnboundLocalError` after the loop, and that is not modelled.
- `os.name` and `Path` handling are not modelled. The platform is the `windows` parameter, and the working directory and image paths are given as strings.
- The module `glm_codex_mcp.config` (`get_config`, `build_glm_env`) is not part of this model. Its failure is the `configFailure` parameter of `Glm.Execute`.
- The message texts of `ConfigError` are not modelled; an error is one of the `ConfigError` variants, with the decoder's reason for an unparsable file.
- `get_config_path` and file reading are not modelled. The config file is the `ConfigFile` parameter. Top-level tables other than `[coder]` are ignored. Non-string values of `api_token`, `base_url` and `model` are not modelled.
- `server.py`, the Playwright sample under `cases/` and the test fixtures are not modelled.

## Findings

| source | as written | input that shows it | evidently intended | confidence | as-written member | corrected member |
|---|---|---|---|---|---|---|
| src/ccg_mcp/tools/gemini.py:687-751 | `for line in gen` consumes the generator's `StopIteration` itself, so the `except StopIteration` that reads the exit code never runs. The exit code stays None, and the exit-code check at lines 823-828 never fails an attempt. | one assistant message "hi", then the CLI exits with code 1: reported as success | a non-zero exit code fails the attempt with SUBPROCESS_ERROR, as in codex.py:566-571 | high; not executed | Gemini.ClassifyAsWritten, Gemini.ExitCodeLostAsWritten | Gemini.Classify, Gemini.CorrectedSuccess |
| src/ccg_mcp/config.py:157-159 | `_config_cache` is assigned before `validate_config` runs, so a configuration that fails validation stays cached. | a config file whose `[coder]` table has `base_url` but no `api_token`, read by `get_config` twice: the first call raises, the second returns the invalid configuration | only a validated configuration is cached; every call reports the missing token | high; not executed | Config.ConfigCache.GetConfig, Config.InvalidConfigServedAfterError | Config.ConfigCache.GetValidConfig, Config.InvalidConfigRejectedEachTime |
