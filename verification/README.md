# karma-webkit-launcher, modelled in Dafny

This project models the logic of the Karma launchers for Webkit, WebkitHeadless and
Epiphany (`index.js`). It covers two parts:

- **Command lines.** On a `start` event the Webkit launcher runs the browser with the test
  URL, then `--user-data-dir=<fresh temp dir>`, then the configured extra flags. The Epiphany
  launcher does the same with `--profile=<dir>`. The WebkitHeadless launcher adds
  `--headless` (and `--disable-gpu` on `darwin` and `win32`) after the caller's flags and then
  hands over to the Webkit launcher.
- **The child-process reaper** (`childProcessCleanup`). This runs when a Webkit run is done.
  It does nothing unless the platform is `darwin`. Otherwise it reads the process listing.
  The listing must mention both `playwright` and the task id somewhere; if it does, every
  line's leading digit run is taken as a pid. For each pid in order, the reaper sends the
  zero signal as a liveness probe. It warns on `EPERM` and quietly skips any other probe
  failure. When the probe succeeds it sends `SIGHUP`. A `SIGHUP` failure other than `ESRCH`
  aborts the whole cleanup.

Modules:

- `text.dfy`, module `Text`: the string operations the reaper uses. These are
  `String.prototype.includes` (`Includes`, with the reference predicate `Occurs`) and the
  global multi-line match `/^[0-9]+/gm`. The match is modelled as the regular-expression
  engine runs it (`GlobalMatch`: try each position, take the greedy run, resume after it). It
  is proved equal to a line-by-line reading (`LeadingDigitRuns(Lines(s))`).
- `launcher.dfy`, module `Launcher`: the argument vectors (`StartArgv`) and a parser
  `ParseArgv` that inverts them, plus the headless flag list and how it is merged.
- `reaper.dfy`, module `Reaper`: the reaper. The operating system is the input
  `Os = string -> Answers`, which gives for each pid the outcome of the probe and of `SIGHUP`.
  The result is a `Report`: the trace of actions (`Probe`, `Warn`, `Hangup`) and a status
  (`Finished` or `Aborted(pid, code)`). A kill error's code is `EPERM`, `ESRCH` or
  `OtherCode(name)`, where `name` is never one of those two strings. A code that the
  source compares equal to `"EPERM"` or `"ESRCH"` therefore always has its own constructor. `SignalAll` is the recursive reference definition.
  `ChildProcessCleanup` is the same loop written as the source's `forEach` that stops at the
  first thrown error, and it is proved to agree with `Cleanup`.

Parameters that stand in for the environment: the temp directory (`profileDir`), the value of
`process.platform` (`platform`), the `stdout` of the `ps | grep` command, and the `Os` answers.

Facts about `index.js` that the model keeps exactly:

- The marker check uses `includes`, which is case-sensitive. It tests the whole listing,
  not each line (index.js:130).
- The pattern `^[0-9]+` with the `m` flag does not skip leading blanks. An indented line,
  as `ps` prints a short pid right-aligned, yields no pid (index.js:131,
  `IndentedLineYieldsNoPid`).

## Model

| member | source | states |
|---|---|---|
| Launcher.ParseStartArgv | index.js:45-48 | Decoding a built command line gives back the URL, the profile directory and the caller flags (missing flags read as empty). This holds for both browsers. |
| Launcher.StartArgv | index.js:45-48 | The argv a `start` event builds for either browser (the Epiphany builder at index.js:104-107 has the same form). `ParseStartArgv` and `StartArgvOfParse` prove that `ParseArgv` inverts it exactly. `WebkitArgvShape` and `EpiphanyArgvShape` give its shape, and `StartArgvInjective` shows that launches differing in URL, directory or effective flags give distinct argvs. |
| Launcher.StartArgvOfParse | index.js:46-48 | Every command line that the parser accepts is exactly the one built from its decoding, so the builder and the parser are mutual inverses. |
| Launcher.WebkitArgvShape | index.js:45-48 | The Webkit argv is the URL, then `--user-data-dir=` + dir, then the caller flags unchanged and in order. With missing flags it has exactly two elements. |
| Launcher.EpiphanyArgvShape | index.js:104-107 | The Epiphany argv is the URL, then `--profile=` + dir, then the caller flags unchanged and in order. With missing flags it has exactly two elements. |
| Launcher.StartArgvInjective | index.js:45-48 | Two launches with different profile directories, URLs or effective flags never produce the same command line. Effective flags read missing as empty, so missing flags and `[]` give the same argv, as the empty-list default at index.js:45 makes them. |
| Launcher.HeadlessFlags | index.js:74-77 | The headless list is `["--headless"]`, plus `--disable-gpu` if and only if the platform is `darwin` or `win32`. |
| Launcher.MergeHeadlessFlags | index.js:78-83 | The forwarded flags are the caller flags in order followed by the headless list. With no configuration, or missing or empty flags, they are just the headless list. |
| Launcher.HeadlessArgv | index.js:73-84 | The argv of the headless launcher: the Webkit argv built from the merged flags. `HeadlessExtendsWebkit` proves it is the plain Webkit argv with the headless flags appended. `HeadlessWithoutCallerFlags` covers the case with no caller flags, and `HeadlessArgvFlags` says when each headless flag is present. |
| Launcher.HeadlessExtendsWebkit | index.js:78-84 | The headless argv equals the plain Webkit argv for the same configuration with the headless flags appended at the end. |
| Launcher.HeadlessWithoutCallerFlags | index.js:80-84 | With no caller flags, the forwarded list is exactly the headless list. The argv is then URL, profile flag, headless flags. |
| Launcher.HeadlessArgvFlags | index.js:74-84 | `--headless` is always present. `--disable-gpu` is present if and only if the platform is `darwin` or `win32`, or the caller (or the URL) supplied it. |
| Text.Includes | index.js:130 | `String.prototype.includes` as a left-to-right scan. `IncludesMeansOccurs` proves it true exactly when the substring occurs at some index. |
| Text.IncludesMeansOccurs | index.js:130 | `includes` is true if and only if the substring occurs at some index. |
| Text.GlobalMatch | index.js:131 | `stdout.match(/^[0-9]+/gm)` as the engine runs it: at each position, a digit at a line start begins a greedy run, and the engine resumes after it. `PidMatchIsLeadingDigitRuns` proves it equals the line-by-line reading. |
| Text.PidMatchIsLeadingDigitRuns | index.js:131 | The engine's global multi-line match of `^[0-9]+` yields the maximal leading digit run of each line that starts with a digit, in line order. |
| Text.LeadingDigitRunsAreLinePrefixes | index.js:131 | Every extracted pid is a non-empty string of digits, and it is the full leading digit run of one of the lines. |
| Text.NonDigitLineYieldsNothing | index.js:131 | A line that does not begin with a digit (for example an indented one) contributes no pid, wherever it appears. |
| Reaper.HandlePid | index.js:133-153 | For one pid: the probe comes first. `SIGHUP` is sent if and only if the probe succeeded. A warning naming the pid and the task is written if and only if the probe failed with `EPERM`, and then nothing else happens. Any other probe failure leaves the probe as the only action. The cleanup aborts if and only if `SIGHUP` fails with a code other than `ESRCH`. |
| Reaper.SignalAll | index.js:133-154 | The `forEach` over the pids, stopping at the first thrown error. `SignalAllStatus`, `SignalAllProbes`, `SignalAllEffects`, `SignalAllOrdering` and `SignalAllWhenAllGone` characterise its trace and status through `FirstFatal` and `Reached`. |
| Reaper.FirstFatal | index.js:147-153 | Finds the first pid whose `SIGHUP` fails fatally. No earlier pid is fatal. |
| Reaper.SignalAllStatus | index.js:147-153 | The cleanup aborts if and only if some pid it reaches fails fatally. It then reports that pid and its error code. Otherwise it finishes. |
| Reaper.SignalAllProbes | index.js:133-154 | The pids probed are, in order, the listing's pids up to and including the first fatal one. No later pid is probed or signalled. |
| Reaper.SignalAllEffects | index.js:135-153 | `SIGHUP` goes to exactly the reached pids whose probe succeeded. Warnings name exactly the reached pids whose probe failed with `EPERM`, and they always carry the task id. |
| Reaper.SignalAllOrdering | index.js:135-148 | Every `SIGHUP` and every warning comes immediately after the probe of the same pid. |
| Reaper.SignalAllWhenAllGone | index.js:135-143 | When every process is already gone, a run only probes: no warning, no `SIGHUP`, no error. |
| Reaper.CandidatePids | index.js:130-132 | The pids taken from the listing: none for an empty listing or one missing a marker, else every match. `CandidatePidsSpec` proves when it is non-empty and what it contains. |
| Reaper.CandidatePidsSpec | index.js:130-132 | Pids are taken only when both `playwright` and the task id occur in the listing. They are then exactly the leading digit runs of the lines, in order. |
| Reaper.Cleanup | index.js:122-159 | The whole reaper: `SignalAll` over `CandidatePids` on `darwin`, nothing elsewhere. `CleanupOffMacOS` and `CleanupWithoutMarkers` cover the cases with no effect, and `ChildProcessCleanup` is proved equal to it. |
| Reaper.CleanupOffMacOS | index.js:123 | On any platform other than `darwin` the cleanup has no effect. |
| Reaper.CleanupWithoutMarkers | index.js:130 | A listing without either marker leads to no probe, no signal and no warning. |
| Reaper.IndentedLineYieldsNoPid | index.js:131 | An indented line (a right-aligned `ps` pid) that names both markers yields no pid. A following line that starts with some other pid has that pid taken. |
| Reaper.ChildProcessCleanup | index.js:122-159 | The `forEach` loop that stops at the first thrown kill error produces the same trace and status as the reference definition `Cleanup`. |

## Left out

- Running `ps | grep` through `child_process.exec` (index.js:125-129), including the error
  that its callback rethrows. This is shell I/O, so `stdout` is an input string.
- The effects of `process.kill` and `console.error`. They appear as `Probe`, `Hangup` and
  `Warn` entries in a trace, and the `Os` function supplies their outcomes.
- The operating system is modelled as a fixed function of the pid. A pid listed twice gets
  the same answers twice. This does not arise, because process listings do not repeat pids.
- Node's conversion of a pid string to a number, including its rejection of a digit run too
  large for a pid. That rejection is a thrown error without code `EPERM`, so it is one of the
  `OtherCode` probe outcomes.
- The event wiring of the cleanup: only the `done` event of the Webkit and WebkitHeadless
  launchers triggers it, through a 500 ms `setTimeout` (index.js:52-57), with the task id
  captured on `start` (index.js:44). There is no `kill` handler and no completion callback.
  These are timer and event-loop behaviour, so the model starts at `childProcessCleanup`.
- `getTempDir` (index.js:29-31). It depends on the OS temp root and a random UUID, so the
  directory is a parameter.
- The Karma plugin plumbing: `baseBrowserDecorator`, `this.on`, `_getCommand`, `_execCommand`,
  the prototype fields `name`/`DEFAULT_CMD`/`ENV_CMD`, `$inject` and `module.exports`. These
  are host integration without logic of their own.
- The headless constructor writes the merged list back into the shared `args` object. The
  model returns the merged list instead and does not model the mutation.
- `test/browser_test.js` and `test/playwright_test.conf.js`. These are in-browser checks and
  Karma configuration, unrelated to the launcher logic.
