# A verified model of the Ewek/mamketa profile daemon core

The daemon runs on an Android device. It watches which app is in the foreground, and it switches the device between
performance, powersave and normal profiles. When a known game comes to the
front, it raises the game's priority and asks a preloader to pull its native
libraries into the page cache. This project models that logic in Dafny and proves the properties the
code promises. It has four parts:

- `dumpsys.dfy` (module `Dumpsys`) models `get_visible_package`. This is the line scanner over the
  output of `dumpsys window displays`. It finds the topmost visible standard
  task and takes the package named by the ActivityRecord line under it. The
  scan is a specification function over the dump's lines (`Step`, `Scan`). It is also a method
  (`GetVisiblePackage`) with the same loop as the C code, whose body
  (`ScanLine`, with its `continue`s as early returns and its `break` as a
  stop flag) is proved equal to one step of the function.
- `poll_loop.dfy` (module `PollLoop`) models the `while (1)` loop of `main`. One tick is a pure transition
  `Step` over the loop's state. The tick's interactions with the system are
  per-tick inputs, and the actions it takes on the system are effects (apply a profile,
  set a priority, preload a package). The class `Daemon` holds the same
  variables and updates them in place in `Tick`. `RunDaemon` runs the whole
  loop over a finite sequence of ticks.
- `log_command.dfy` (module `LogCommand`) models the `nusantara_log` personality of the binary. It checks the level
  and joins the message words into a buffer built with `strcat`.
- `preload.dfy` (module `Preload`) models `GamePreload`. It covers the meminfo parse and the RAM budget
  table, the base-APK directory and the choice of the ABI library directory.
  It also covers the sum of the pages the preloader reports and their size in MB.
- `text.dfy` (module `Text`) holds the C library routines the code relies on (strstr,
  strchr, strrchr, the `%d` conversion of sscanf, atoi, truncating division),
  stated over Dafny strings.

Files, popen output and directory listings are parameters. Each is given as its text, its lines or its
entries, or as None when it cannot be opened. Lines arrive whole, one per
element.

Besides the foreground scan and the poll loop, the model covers `GamePreload`
(native-library preloading and its memory-budget table) and the
`nusantara_log` command-line tool.

## Model

| member | source | states |
|---|---|---|
| Text.FindFrom | jni/src/dumpsys.c:42-60 | strstr: the index returned is an occurrence of the pattern and no earlier one exists; None means no occurrence |
| Text.LastIndexOf | jni/src/preload_function.c:89 | strrchr: the index holds the character and no later index does; None means the character is absent |
| Text.CutAtNewline | jni/src/preload_function.c:87 | the result is a prefix with no newline, ending just before the first newline if there is one |
| Text.ScanField | jni/src/preload_function.c:39-41 | a `<prefix> %d` match implies the line starts with the prefix |
| Text.ScanFieldReads | jni/src/preload_function.c:39-41 | a line made of the prefix, white space, digits and a non-digit tail reads as the value of those digits |
| Text.ScanFieldFails | jni/src/preload_function.c:39-41 | no match for a line without the prefix, or when no digit follows the prefix, the white space and an optional sign |
| Text.ScanDecimalReads | jni/src/preload_function.c:139 | `%d` skips white space, takes an optional sign and reads the digits up to the first non-digit |
| Text.ScanDecimalFails | jni/src/preload_function.c:139 | `%d` fails when no digit follows the white space and the optional sign |
| Text.AtoiReads | jni/main.c:60 | atoi of white space, optional sign and digits is the signed value of the digits |
| Text.DivTrunc | jni/src/preload_function.c:40 | C division by a positive divisor: quotient bounds for non-negative and for negative dividends (truncation toward zero) |
| Dumpsys.PackageOf | jni/src/dumpsys.c:60-69 | a package taken from an ActivityRecord line is shorter than MAX_PACKAGE and holds no '/' |
| Dumpsys.Step | jni/src/dumpsys.c:41-75 | outside the section only the Z-order marker matters. The scan stops only inside the section, with a package that fits and has no '/', and a non-empty one comes from an ActivityRecord line under a visible task. Otherwise the section is kept and the remembered task is kept, cleared or replaced by a standard task line |
| Dumpsys.Scan | jni/src/dumpsys.c:40-76 | a package the scan stops at respects the length cap and holds no '/'; once inside the task section the scan stays inside |
| Dumpsys.VisiblePackage | jni/src/dumpsys.c:27-34 | a package returned by the call is non-empty, shorter than MAX_PACKAGE and holds no '/' |
| Dumpsys.ScanLine | jni/src/dumpsys.c:41-75 | one pass of the loop body, with its continues and its break, does exactly what `Step` specifies |
| Dumpsys.GetVisiblePackage | jni/src/dumpsys.c:26-82 | the imperative loop, with its continue and break, returns exactly the package of the scan specification |
| Dumpsys.ScanAppend | jni/src/dumpsys.c:40-76 | scanning a + b is scanning a and, unless it stopped, going on with b from where a left off |
| Dumpsys.FirstMatchWins | jni/src/dumpsys.c:70 | once the scan has stopped, no later line changes the result, so the topmost visible task wins |
| Dumpsys.NoMarkerNoPackage | jni/src/dumpsys.c:42-47 | a dump without the Z-order marker leaves the scan in its initial state and yields no package |
| Dumpsys.LinesBeforeMarkerIgnored | jni/src/dumpsys.c:42-47 | all lines before the first marker line are ignored; the scan continues after it with no remembered task |
| Dumpsys.BlankLineEndsScan | jni/src/dumpsys.c:48-49 | inside the section an empty line stops the scan, and nothing after it matters |
| Dumpsys.StandardTaskRemembered | jni/src/dumpsys.c:51-54 | inside the section a standard Task line becomes the remembered task |
| Dumpsys.ActivityStep | jni/src/dumpsys.c:56-75 | an ActivityRecord line is ignored without a remembered task. With one, it stops the scan only for a visible task and a package; otherwise it clears the task |
| Dumpsys.OtherTaskKeepsRemembered | jni/src/dumpsys.c:51-57 | a non-standard Task line does not reset the remembered task, so the ActivityRecord below it pairs with the earlier visible task |
| Dumpsys.InvisibleTaskDoesNotLeak | jni/src/dumpsys.c:51-75 | a later invisible standard task replaces a visible one; its ActivityRecord yields nothing and clears the task |
| Dumpsys.ActivityConsumesTask | jni/src/dumpsys.c:56-75 | an ActivityRecord that does not produce the result clears the task, so a second ActivityRecord under the same task is ignored |
| Dumpsys.ActivityWithoutTaskIgnored | jni/src/dumpsys.c:56 | an ActivityRecord with no remembered task leaves the state unchanged |
| Dumpsys.PackageOfMeaning | jni/src/dumpsys.c:60-69 | a package exists iff a '/' follows the first " u0 ". It is the text starting right after " u0 ", running up to that '/' unless cut at MAX_PACKAGE-1 |
| Dumpsys.NoUserTagNoPackage | jni/src/dumpsys.c:60-61 | a line without " u0 " names no package |
| Dumpsys.EmptyPackageStopsScan | jni/src/dumpsys.c:63-80 | '/' right after "u0 " under a visible task stops the scan with an empty buffer, so the call returns none whatever follows |
| Dumpsys.MissingSeparatorSkipsPair | jni/src/dumpsys.c:60-74 | under a visible task, an ActivityRecord lacking " u0 " or a later '/' clears the task and the scan goes on |
| Dumpsys.ResultFromActivityLine | jni/src/dumpsys.c:56-70 | every package returned was named by an ActivityRecord line of the dump |
| Dumpsys.PackageOfWellFormed | jni/src/dumpsys.c:60-69 | "... u0 pkg/component ..." names exactly pkg when pkg fits the buffer |
| Dumpsys.WellFormedDump | jni/src/dumpsys.c:40-81 | marker, visible standard task, then an ActivityRecord naming pkg: the call returns exactly pkg, whatever precedes the marker or follows |
| PollLoop.Detect | jni/main.c:134-146 | detection touches only the game, the counter and the checkup flag. The game changes only to the non-null detected one, the checkup is set exactly when it was pending or the game changed, and a changed game resets the counter |
| PollLoop.CheckLiveness | jni/main.c:147-153 | the state changes exactly when a tracked pid is dead, and then the pid is 0, the game is cleared and a checkup is pending; mode, counter and MLBB state are kept |
| PollLoop.Classify | jni/main.c:154-155 | only the MLBB state can change, and it takes handle_mlbb's answer exactly when a game is known |
| PollLoop.Decide | jni/main.c:157-195 | the decision never exits and keeps the counter and MLBB state. A profile is only ever the first effect and becomes the mode with the checkup settled; with no effect, mode and checkup are kept. Performance is entered only through its branch, and a tracked pid keeps a game |
| PollLoop.Step | jni/main.c:126-195 | the tick exits exactly on the update marker, and then nothing changes or is applied. Otherwise the counter stays 0 or 1 between ticks (never above 2 when compared) and a tracked pid always has a game |
| PollLoop.Run | jni/main.c:125-196 | a run of ticks from a valid state ends in a valid state |
| PollLoop.Daemon.constructor | jni/main.c:117-123 | the daemon starts with no game, no pid, mode PERFCOMMON, no checkup and a zero poll counter |
| PollLoop.Daemon.Tick | jni/main.c:125-195 | the in-place update of the loop's variables produces exactly the state and effects of the transition `Step`; `continue` and `break` included |
| PollLoop.RunDaemon | jni/main.c:117-196 | the effects are PERFCOMMON followed by those of the run; the final state and the exit agree with `Run`; the final state is valid |
| PollLoop.Daemon.Decision | jni/main.c:157-195 | the in-place profile decision produces exactly the state and effects of `Decide` |
| PollLoop.DebounceRule | jni/main.c:134-137 | detection runs exactly when no game is known or the counter reaches 2. Running it resets the counter; otherwise the counter only increments |
| PollLoop.GameReplacedOnlyOnChange | jni/main.c:138-145 | the game changes only to a non-null detection different from it, and then checkup is set. A null detection keeps the game |
| PollLoop.DeadProcessResets | jni/main.c:147-153 | a dead tracked process clears game and pid within the tick, even after a replacement, and the tick falls to powersave or normal |
| PollLoop.EffectsOfATick | jni/main.c:158-195 | a tick emits no effect, one powersave or normal profile, or the performance triple. An applied profile is the new mode, and checkup is then false |
| PollLoop.ApplyOnlyOnChange | jni/main.c:158-195 | a profile is applied only when the mode changes, or for performance when checkup is pending |
| PollLoop.MissingPidForgetsGame | jni/main.c:162-168 | a zero pid clears game and pid, keeps mode and checkup, and applies nothing |
| PollLoop.PerformanceIsSticky | jni/main.c:158-160 | after performance is applied, a tick with the same game, screen on and process alive does nothing |
| PollLoop.LowPowerAndNormalIgnoreCheckup | jni/main.c:177-195 | powersave and normal are skipped when already current, even with checkup pending, which stays pending |
| PollLoop.ScenarioIdleScreenOff | jni/main.c:186-188 | no game, screen off, not low power, already normal: nothing happens |
| PollLoop.ScenarioGameStarts | jni/main.c:134-176 | a newly detected game with the screen on gets performance, priority and preload exactly once, and the mode becomes performance |
| PollLoop.ScenarioGameDiesOnLowPower | jni/main.c:147-185 | the game's process dying in low power forgets the game and applies powersave |
| PollLoop.RunEffectsFollowPerformance | jni/main.c:170-175 | over any run, every priority change directly follows a performance profile, and every preload directly follows a priority change |
| LogCommand.ArgBytes | jni/main.c:66-68 | the source's sum counts at least one byte per word |
| LogCommand.MessageCapacity | jni/main.c:66-71 | the corrected buffer holds the joined message and its terminator for every word list, the empty one included |
| LogCommand.JoinStep | jni/main.c:73-77 | appending word i (after a space unless it is the first) extends the message joined so far by exactly that word |
| LogCommand.ArgBytesFitsJoin | jni/main.c:66-77 | with at least one word, the source's Σ(len+1) bytes hold exactly the joined message and its terminator |
| LogCommand.EmptyMessageOverflows | jni/main.c:66-71 | with argc == 3 the source's buffer has length 0, so `message[0]` is outside it; the corrected buffer has length 1 |
| LogCommand.StrCat | jni/main.c:74-76 | given a C string whose first NUL is at `used` and a NUL-free text that fits, strcat copies the text over the terminator and writes a new terminator after it, leaving no NUL before it |
| LogCommand.AppendWord | jni/main.c:74-76 | one pass of the strcat loop appends word i and, unless it is the last, a space, keeping a terminated C string that fits the buffer |
| LogCommand.BuildMessage | jni/main.c:70-77 | the strcat loop builds exactly the NUL-free words joined by single spaces, keeping a terminated C string inside the buffer |
| LogCommand.LogCli | jni/main.c:54-80 | fewer than three arguments print the usage, a level outside 0..4 is refused, otherwise argv[3..] is logged joined with spaces under tag argv[1] |
| LogCommand.WordLevelIsDebug | jni/main.c:60-64 | a level that is not a number reads as 0 and is accepted as DEBUG |
| Preload.LastField | jni/src/preload_function.c:37-43 | no value exactly when no line reads as `<prefix> <number>` |
| Preload.LastMatchWins | jni/src/preload_function.c:37-43 | the last matching line gives the value, whatever matched before it |
| Preload.MemTotalMb | jni/src/preload_function.c:39-40 | a non-zero total needs a MemTotal line in the file |
| Preload.MemAvailableMb | jni/src/preload_function.c:41-42 | a non-zero available figure needs a MemAvailable line in the file |
| Preload.MemTotalFromLastLine | jni/src/preload_function.c:37-43 | the total is the kB value of the last MemTotal line, in whole MB rounded down |
| Preload.KbToMb | jni/src/preload_function.c:33-42 | a missing line gives 0; a kB value gives whole MB rounded down |
| Preload.TagsExclusive | jni/src/preload_function.c:39-41 | no line starts with both MemTotal: and MemAvailable:, so the else-if loses nothing |
| Preload.ReadMeminfo | jni/src/preload_function.c:33-45 | the loop computes the MB figures of the last MemTotal and MemAvailable lines, or 0 |
| Preload.MissingMemTotalSkipsPreload | jni/src/preload_function.c:33-50 | without a MemTotal line the total is 0, and a named package stops for lack of RAM |
| Preload.Arg | jni/src/preload_function.c:52-63 | every budget argument is four characters ending in M |
| Preload.BaseTier | jni/src/preload_function.c:54-57 | 900M from 12000 MB of total RAM, 700M from 8000 MB, 500M from 6000 MB, 350M below |
| Preload.ChooseBudget | jni/src/preload_function.c:47-63 | no budget below 4000 MB. Below 800 MB available it is 300M, below 1200 MB it is 350M, otherwise the base tier. The clamp never exceeds the base tier |
| Preload.BudgetMonotone | jni/src/preload_function.c:47-63 | more total or available RAM never gives a smaller budget |
| Preload.ApkPath | jni/src/preload_function.c:80-87 | the APK path is a prefix of the output, with no newline and under 512 bytes, ending at the first newline unless cut at 511; none exactly when the command fails or prints nothing |
| Preload.ApkDirectory | jni/src/preload_function.c:89-91 | the directory is the text before the last '/'; none exactly when the path has no '/' |
| Preload.TrimToDirectory | jni/src/preload_function.c:89-91 | the backward search for the last '/' gives exactly that directory |
| Preload.AbiPath | jni/src/preload_function.c:99-100 | the test path fits its buffer and is a prefix of "dir/abi", equal to it when that fits |
| Preload.TargetDirectory | jni/src/preload_function.c:94-118 | the target fits the 512-byte buffer |
| Preload.TargetChoice | jni/src/preload_function.c:95-118 | the target is the APK directory, lib/arm64-v8a or lib/arm64. It is the APK directory iff neither holds a shared object; otherwise it holds one, lib/arm64-v8a wins when it has one, and lib/arm64 is taken only when lib/arm64-v8a has none |
| Preload.ChooseTarget | jni/src/preload_function.c:94-118 | the nested search with its found flag and breaks picks exactly that target |
| Preload.PreloaderCommand | jni/src/preload_function.c:121-123 | the preloader command always fits its 600-byte buffer, so snprintf never cuts it |
| Preload.PagesOn | jni/src/preload_function.c:135-141 | a line reports pages only if it starts with "Touched Pages:" |
| Preload.TouchedLineCounts | jni/src/preload_function.c:135-141 | a newline-free line "Touched Pages:", white space, digits and a non-digit tail reports the value of the digits |
| Preload.TouchedTotalNonNegative | jni/src/preload_function.c:135-141 | the total over lines that each report a non-negative count is non-negative |
| Preload.SumTouchedPages | jni/src/preload_function.c:132-147 | the loop's total is the sum of the Touched Pages values of the lines |
| Preload.TouchedTotalAppend | jni/src/preload_function.c:135-141 | the total over two runs of output is the sum of their totals |
| Preload.UntouchedLinesAddNothing | jni/src/preload_function.c:139-141 | lines not starting with "Touched Pages:" add nothing |
| Preload.PagesToMb | jni/src/preload_function.c:150 | a figure exists exactly when total_pages*4 fits an int; for a non-negative total it is the whole MB in 4 kB pages |
| Preload.PreloadOutcome | jni/src/preload_function.c:26-150 | an empty or null package does nothing. The preloader runs exactly when RAM ≥ 4000 MB and an APK directory is found. Its budget is the clamped tier and its command fits |
| Preload.GamePreload | jni/src/preload_function.c:26-158 | the whole routine, step by step, reaches exactly that outcome |

## Left out

- Sleeping, logging, `notify`/`toast`, `run_profiler`, `set_priority`, and
  `NusantaraPreload` are left out. They appear only as effects, in order.
- jni/src/nusantara_log.c is not part of this model. `external_log` is represented by the `Logged`
  result.
- The start-up checks in `main` are left out: the root check, the dumpsys checks, the lock file,
  `is_kanged`, the gamelist check, `daemon` and the signal handlers. The
  `basename(argv[0])` dispatch is left out too. These are process control and I/O.
- `get_gamestart`, `handle_mlbb`, `mlbb_pid`, `pidof`, `kill(pid, 0)`,
  `get_screenstate` and `get_low_power_state` are per-tick inputs. Their
  code is not part of this model.
- popen, fgets, opendir/readdir and /proc/meminfo are modelled by their
  outputs. fgets splitting a line longer than its buffer is not modelled:
  lines arrive whole. The first-line read of the APK path is the one fgets
  truncation modelled.
- Text.ScanField: a whitespace directive of a scanf format matches
  zero or more blanks. The model needs the literal prefix as written, then
  `%d` with its own white-space skip.
- Text.ScanDecimal: does not model overflow of `%d`, `%ld` or atoi on numbers
  beyond the C integer widths; values are unbounded integers.
- Preload.SumTouchedPages: does not model int overflow of the running
  `total_pages` sum; only the overflow of `total_pages * 4` is modelled, by
  `PagesToMb`.
- The `cmd package path` command line built into a 512-byte buffer is not
  modelled, because its output is the input `apkOutput`. The file-extension
  filter at preload_function.c lines 143-146 only chooses what to log, so it is left out.
- The class `Daemon` holds the loop's locals and the globals `gamestart` and
  `game_pid`. The heap string behind `gamestart` (strdup/free) is a value.
- Preload.TrimToDirectory and Preload.ApkPath work on values: the
  in-place NUL writes into `apk_path` are modelled by taking prefixes.
- Lengths are counted in characters, while the C code counts bytes: MAX_PACKAGE, the 511-byte cuts of the
  APK path and the Σ(len+1) message buffer agree with the model only for
  ASCII text. Dafny strings may hold NUL characters, which a C string cannot;
  where that matters (`StrCat`, `BuildMessage`, `LogCli`) the words are
  required to hold none, as argv strings never do.
- Dumpsys.Step: dump lines are taken without their trailing newline, so the
  `strcspn` cut at dumpsys.c line 41 is already applied; `PagesOn` applies
  the cut of preload_function.c line 136 itself.

## Findings

| source | as written | input that shows it | evidently intended | confidence | as-written member | corrected member |
|---|---|---|---|---|---|---|
| jni/main.c:66-71 | the message buffer has Σ(len+1) bytes over argv[3..], then `message[0] = '\0'` is written | `nusantara_log TAG 1` (argc == 3): the buffer has length 0 and the write is out of bounds | one byte for the terminator even with no words (start the sum at 1) | not executed | LogCommand.EmptyMessageOverflows | LogCommand.BuildMessage |
