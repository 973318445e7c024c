# new_rust_windrv in Dafny

`new_rust_windrv` is an interactive wizard that creates a Rust crate set up
to build a Windows driver. Its `main` (src/main.rs) does three things, and
this project models each of them.

- **The wizard** (module `Prompts`, prompts.dfy) asks for:
  - a crate name, trimmed, lower-cased and non-empty;
  - a driver type, trimmed, upper-cased and one of `WDM`, `KMDF`, `UMDF`;
  - a version-control system, trimmed, lower-cased and non-empty.

  Then it shows a summary and reads a confirmation: blank or `1` confirms,
  `2` goes round again, `3` exits with code 2, and anything else is read
  again. Standard input is a finite sequence of `read_line` results.
  - `LowercaseLoop`, `DriverLoop`, `ConfirmLoop`, `Fields`, `Round`,
    `Collect` and `RunWizard` define the loops as functions.
  - The class `Wizard` holds the answer buffers, the `editing` flag, the
    input cursor and the messages printed. Its methods run the same loops
    with `while` statements and are proved equal to those functions.
- **The texts** (module `Templates`, templates.dfy) are the five file
  constants and the INX template.
  - The template is a list of segments (`Lit`, `Slot0`, `Slot1`) rendered
    by `Render`.
  - `Format` states the rules of Rust's `format!` for `{0}`, `{1}`, `{{`
    and `}}` on the template's format string. It is proved to agree with
    `Render`.
  - Module `Text` (text.dfy) has the string functions the wizard uses:
    `trim`, `to_lowercase`, `to_uppercase` and `parse::<u32>`.
- **The scaffold** (module `Scaffold`, scaffold.dfy) is a fixed plan of
  eleven steps:
  1. `cargo new <name> --lib --vcs <vcs>`;
  2. change into `<name>`;
  3. `cargo add --build wdk-build`;
  4. `cargo add wdk wdk-sys wdk-alloc wdk-panic`;
  5. append to Cargo.toml;
  6. create Makefile.toml;
  7. create the `.cargo` directory;
  8. create `.cargo/config.toml`;
  9. create build.rs;
  10. create and clear src/lib.rs;
  11. create `<name>.inx`.

  The steps run over a file system that is a map from paths (lists of
  components) to files and directories, and stop at the first failure.
  - `Execute` gives the value-level semantics.
  - Module `Executor` (executor.dfy) has the class `Disk`, whose methods
    change the map, the working directory and the list of attempted commands
    in place, in the source's order. They are proved to give the same
    outcome as `Execute`.
  - The directory the program starts in is an explicit `root` rather than
    process state.
  - What child processes do, and which sub-operation an I/O error hits,
    come from an environment `Env` passed in.
  - Failures that follow from the file system itself come from the map.
    These are: appending to a missing file, creating a directory that
    exists, creating a file in a missing directory, and entering something
    that is not a directory.
- **`main` as a whole** (module `Orchestrator`, orchestrator.dfy) runs the
  wizard, the scaffold and then `cmd /c pause`. It ends in one of four
  ways: exit code 0, exit code 2, a panic, or waiting for ever.

Where the code and a plain reading of the program's intent differ, the
model follows the code:
- End of input is not an error. At end of input `read_line` returns
  `Ok(0)` and appends nothing, so a loop that needs a non-empty answer
  waits for ever (`Stuck`). The confirmation loop confirms when its buffer
  is blank.
- The confirmation buffer is trimmed but never cleared. A rejected token
  stays in front of everything read after it, so a blank line after a
  rejected token is rejected again.
- Choosing `2` clears none of the answers, so the next round asks nothing
  and goes straight back to the summary.
- `--vcs` is always passed to `cargo new`.

## Model

| member | source | states |
|---|---|---|
| Text.Trim | src/main.rs:156 | the result of `trim` has no white space at either end and is no longer than its input |
| Text.TrimExact | src/main.rs:156 | reference characterisation: around a trimmed core, all white space on both sides is removed and nothing else |
| Text.TrimIdempotent | src/main.rs:207 | trimming twice is trimming once |
| Text.TrimKeepsHead | src/main.rs:203-207 | when the buffer starts with a non-space character, what is appended after it cannot remove that first character |
| Text.ToLowerAt | src/main.rs:156 | lower-casing maps each character on its own and keeps the length |
| Text.ToUpperAt | src/main.rs:166 | upper-casing maps each character on its own and keeps the length |
| Text.LowerFacts | src/main.rs:191 | lower-casing yields lower case, keeps a trimmed string trimmed, and is the identity on lower-case strings |
| Text.UpperFacts | src/main.rs:166 | upper-casing yields upper case, keeps a trimmed string trimmed, and is the identity on upper-case strings |
| Text.ParseU32 | src/main.rs:215 | an `Ok` result fits in 32 bits; the empty string, and only it, gives the `Empty` error |
| Text.AccumulateValue | src/main.rs:215 | over digits, the digit loop returns the decimal value when it fits in 32 bits and `PosOverflow` otherwise |
| Text.ParseU32Spec | src/main.rs:215 | `parse::<u32>` succeeds exactly on an optional `+` and one or more digits whose value fits, returns that value, and reports too large a value as `PosOverflow` |
| Text.ToLower | src/main.rs:156 | `to_lowercase` keeps the length; its per-character meaning is `ToLowerAt` and `LowerFacts` |
| Text.ToUpper | src/main.rs:166 | `to_uppercase` keeps the length; its per-character meaning is `ToUpperAt` and `UpperFacts` |
| Text.Accumulate | src/main.rs:215 | the digit loop of `parse::<u32>` never gives `Empty` and its `Ok` values fit in 32 bits; its value is stated by `AccumulateValue` |
| Templates.RenderAppend | src/main.rs:362 | rendering distributes over concatenation of templates |
| Templates.RenderAt | src/main.rs:362 | rendering is uniform: at every segment the output holds, between the renderings of what precedes and follows it, the literal's own text, the first argument for `{0}`, or the second for `{1}` |
| Templates.FormatEscaped | src/main.rs:74-137 | in the format string, doubled braces stand for single braces and other text is copied unchanged |
| Templates.Render | src/main.rs:362 | `write!` of the template with its two arguments; its meaning is stated by `RenderAppend`, `RenderAt` and `FormatMatchesRender` |
| Templates.Format | src/main.rs:362 | the rules of `format!` for `{0}`, `{1}`, `{{` and `}}`; stated by `FormatEscaped` and `FormatMatchesRender` |
| Templates.FormatMatchesRender | src/main.rs:362 | formatting the template's format string with `format!` rules never fails and gives exactly the segment rendering |
| Templates.ManifestTail | src/main.rs:289-292 | after the append, Cargo.toml holds its old contents, then `CARGO_TOML_ADDITION`, then the quoted driver type on a newline-terminated line |
| Templates.InxForLowerName | src/main.rs:355-362 | for an already lower-case crate name, the INX text is the template formatted with the name itself and its upper-case form |
| Templates.CargoTomlSuffix | src/main.rs:289-291 | the text appended to Cargo.toml; stated by `ManifestTail` and `Scaffold.TextsForContents` |
| Templates.InxText | src/main.rs:355-362 | the INX file's text for a crate name; stated by `InxForLowerName` and `Orchestrator.InxOfRun` |
| Prompts.LowercaseLoop | src/main.rs:149-157 | a finished name or VCS loop has consumed at least one line and no more than the input |
| Prompts.LowercaseResult | src/main.rs:149-157 | the name or VCS answer is trimmed, lower case and non-empty; it is the last line read, trimmed and lower-cased; every earlier line it consumed was blank |
| Prompts.DriverLoop | src/main.rs:159-181 | a finished driver-type loop returns one of `WDM`, `KMDF`, `UMDF` and has consumed at least one line |
| Prompts.DriverRetries | src/main.rs:159-181 | after k rejected lines, an accepted one ends the loop with exactly that value, having asked exactly k + 1 times |
| Prompts.ConfirmLoop | src/main.rs:200-240 | the confirmation loop consumes input forward only; a decision reached without reading is the verdict on the trimmed buffer |
| Prompts.Judge | src/main.rs:207-238 | the verdict on the trimmed confirmation buffer; stated in both directions by `JudgeMeaning`, with `JudgeSamples` |
| Prompts.Fields | src/main.rs:148-193 | the field loops stay within the input, and leave answers that are all already set exactly as they are, reading nothing |
| Prompts.Round | src/main.rs:146-240 | one outer iteration stays within the input, and a retry has consumed at least one line |
| Prompts.FieldsValid | src/main.rs:148-193 | from answers each empty or already accepted, the field loops leave only accepted answers |
| Prompts.CollectValid | src/main.rs:146-241 | confirmed answers are trimmed, cased and non-empty, and the driver type is one of the three, whatever the input |
| Prompts.Collect | src/main.rs:146-241 | the outer `while editing` loop; stated by `CollectValid`, `CollectAfterRound` and `RetryKeepsAnswers` |
| Prompts.RunWizard | src/main.rs:142-241 | the wizard from three empty answers; stated by `WizardValid` and `Wizard.Run` |
| Prompts.WizardValid | src/main.rs:142-241 | the same, from the initial empty answers |
| Prompts.ConfirmQuiet | src/main.rs:200-240 | the confirmation loop prints none of the three questions |
| Prompts.RetryKeepsAnswers | src/main.rs:146-149 | with all answers set, every later round starts with the same summary, asks no question, and confirms exactly the answers it had |
| Prompts.ConfirmBlank | src/main.rs:207-212 | a blank confirmation line, or end of input, confirms at once from a fresh buffer |
| Prompts.BlankAfterRejection | src/main.rs:200-207 | after a rejected token the buffer still holds it, so a blank line is rejected again with the same complaint |
| Prompts.NonNumericNeverDecides | src/main.rs:200-237 | a buffer starting with a character that is not white space, a digit or `+` can never lead to a decision |
| Prompts.JudgeMeaning | src/main.rs:207-237 | both directions: blank or a value of 1 confirms, 2 retries, 3 quits, and nothing else decides |
| Prompts.JudgeSamples | src/main.rs:207-237 | "1", "01" and "+1" confirm; "2" retries; "3" quits; "0" and "4" are unrecognised; "abc" is an invalid digit |
| Prompts.LowercaseStep | src/main.rs:149-157 | one read of the name or VCS loop: a read error panics, end of input waits for ever, a blank answer asks again, anything else is the answer |
| Prompts.DriverStep | src/main.rs:159-181 | one read of the driver-type loop: accepted, blank (asked again silently), or reported and asked again |
| Prompts.ConfirmStep | src/main.rs:201-240 | one read of the confirmation loop: decided, rejected and read again with the trimmed buffer kept, or waiting for ever at end of input |
| Prompts.CollectAfterRound | src/main.rs:146-241 | a retry continues the outer loop with the same answers further on in the input; any other round ends the wizard |
| Prompts.Wizard.ReadLine | src/main.rs:152 | `read_line` appends the next line to the buffer and advances, or appends nothing at end of input |
| Prompts.Wizard.constructor | src/main.rs:142-145 | the wizard starts editing, with three empty answers, no input read and nothing printed |
| Prompts.Wizard.ReadLowercase | src/main.rs:151-156 | one prompt, read, trim and lower-case moves the run of the loop on exactly as `LowercaseStep` says |
| Prompts.Wizard.CollectLowercase | src/main.rs:149-157 | the name or VCS `while` loop ends as `LowercaseLoop` does, or keeps a field already set |
| Prompts.Wizard.ReadUppercase | src/main.rs:161-166 | one prompt, read, trim and upper-case moves the driver-type loop on as `DriverStep` says |
| Prompts.Wizard.CollectDriverType | src/main.rs:159-181 | the driver-type `while` loop ends as `DriverLoop` does |
| Prompts.Wizard.AskFields | src/main.rs:148-193 | the three field loops end as `Fields` does |
| Prompts.Wizard.ReadTrimmed | src/main.rs:203-207 | one read into the confirmation buffer and its trim move the loop on as `ConfirmStep` says |
| Prompts.Wizard.Confirm | src/main.rs:200-240 | the confirmation loop with a fresh buffer ends as `ConfirmLoop` does |
| Prompts.Wizard.Iterate | src/main.rs:148-240 | one outer iteration ends as `Round` does |
| Prompts.Wizard.Run | src/main.rs:146-241 | the wizard's status, answers, input position and messages are those of `RunWizard` |
| Scaffold.Apply | src/main.rs:245-368 | a failing step is reported at its own index |
| Scaffold.WriteAllResult | src/main.rs:284-292 | the chunk writes all succeed exactly when no write is faulted, and then the file holds its contents followed by every chunk |
| Scaffold.Launch | src/main.rs:245-259 | a cargo call and `handle_process_output!`; stated by `CommandStepsOutcome`, `NewFailureStopsAll` and `Executor.Disk.Spawn` |
| Scaffold.Enter | src/main.rs:263-268 | `set_current_dir`; stated by `CommandStepsOutcome` and `Executor.Disk.SetCurrentDir` |
| Scaffold.CreateDir | src/main.rs:312-313 | `create_dir`; stated by `CreateDirExisting` and `FreshCargoDir` |
| Scaffold.Write | src/main.rs:284-365 | opening, clearing, writing and syncing one file; stated by `WriteCompleted`, `WriteSucceeds` and `Executor.Disk.SaveFile` |
| Scaffold.WriteCompleted | src/main.rs:284-365 | a completed file step could open its file and leaves it holding its old contents (when appending) or nothing, then the chunks |
| Scaffold.WriteSucceeds | src/main.rs:284-365 | a file step that can open its file and has no injected I/O error completes |
| Scaffold.CreateDirExisting | src/main.rs:312-313 | creating `.cargo` fails with AlreadyExists exactly when the path exists, and otherwise adds just that directory |
| Scaffold.ExecuteAppend | src/main.rs:261-368 | running two plans in sequence is running the first, then the second only if the first completed |
| Scaffold.Execute | src/main.rs:261-368 | running steps in order, stopping at the first failure; stated by `ExecuteAppend`, `AbortedIgnoresRest`, `AbortedAt` and `CompletedEach` |
| Scaffold.Steps | src/main.rs:261-368 | the eleven steps, in the source's order, for any texts; stated by `CommandStepsOutcome`, `ScaffoldCompleted` and `ScaffoldSucceeds` |
| Scaffold.Plan | src/main.rs:261-368 | the eleven steps with the program's own texts; stated by `TextsForContents` |
| Scaffold.AbortedIgnoresRest | src/main.rs:261-368 | once a run fails, later steps have no effect |
| Scaffold.AbortedAt | src/main.rs:261-368 | a run failing at step j completed every earlier step, failed at j, keeps what that step left (nothing rolled back), and ran nothing after it |
| Scaffold.CompletedEach | src/main.rs:261-368 | a completed run completed every step from the state its predecessor left |
| Scaffold.FileStepCompleted | src/main.rs:284-368 | a completed file or directory step changes only the files, by exactly its effect |
| Scaffold.ExecuteFileSteps | src/main.rs:284-368 | completed file steps could each run, and leave the files their effects give in order |
| Scaffold.RunnableCompletes | src/main.rs:284-368 | file steps that can each run, with no injected I/O error, complete |
| Scaffold.TargetsDistinct | src/main.rs:284-365 | the seven paths the plan writes are different paths |
| Scaffold.FileStepsEffects | src/main.rs:284-368 | the seven file steps produce `Scaffolded` |
| Scaffold.ReadyStep | src/main.rs:284-368 | each file step can run on a ready crate directory and leaves it ready for the following ones |
| Scaffold.FileStepsRunnable | src/main.rs:284-368 | in a ready crate directory every file step can run |
| Scaffold.CommandStepsOutcome | src/main.rs:261-273 | both directions: the cargo steps complete exactly when each cargo call exits with 0 and the crate directory can be entered; they leave the crate as working directory and the three commands issued in order |
| Scaffold.NewFailureStopsAll | src/main.rs:245-262 | a non-zero exit of `cargo new` stops the plan at step 0 with only that command issued |
| Scaffold.ScaffoldCompleted | src/main.rs:261-368 | a completed plan found Cargo.toml and no `.cargo`, and left the crate's files as `Scaffolded` on top of what cargo left |
| Scaffold.FreshCargoDir | src/main.rs:312-313 | the file steps can all run only where `.cargo` did not exist |
| Scaffold.ScaffoldSucceeds | src/main.rs:261-368 | completed cargo steps, a ready crate directory and no injected I/O error make the whole plan complete |
| Scaffold.ScaffoldedAt | src/main.rs:284-365 | the seven targets hold their texts (Cargo.toml its old contents then the chunks) and every other path is unchanged |
| Scaffold.TextsForContents | src/main.rs:284-365 | Cargo.toml gains exactly the driver-type suffix; Makefile.toml, config.toml, build.rs and lib.rs get their constants; the INX file the rendered template |
| Executor.ExecuteFrom | src/main.rs:261-368 | a run from step i is step i, then the rest only if it completed |
| Executor.Disk.constructor | src/main.rs:139 | the disk starts with the given files, in the root directory, with no command attempted |
| Executor.Disk.Spawn | src/main.rs:245-259 | a cargo call records the command, adopts the files the child left, and fails on a launch error, a missing exit code or a non-zero code, as `Launch` |
| Executor.Disk.SpawnUnchecked | src/main.rs:378 | the pause records its command and reports only whether it could start |
| Executor.Disk.SetCurrentDir | src/main.rs:263-268 | changing directory moves the working directory into an existing directory, as `Enter` |
| Executor.Disk.CreateDirectory | src/main.rs:312-313 | `create_dir` updates the map as `CreateDir` |
| Executor.Disk.SaveFile | src/main.rs:284-365 | opening, clearing, writing each chunk and syncing leaves the state and failure that `Write` gives |
| Executor.Disk.RunCargo | src/main.rs:261-273 | the cargo calls and the change of directory end as `Execute` of steps 0 to 3 |
| Executor.Disk.SetupManifests | src/main.rs:284-313 | Cargo.toml, Makefile.toml and `.cargo` end as `Execute` of steps 4 to 6 |
| Executor.Disk.SetupSources | src/main.rs:314-368 | config.toml, build.rs, lib.rs and the INX file end as `Execute` of steps 7 to 10 |
| Executor.Disk.WriteFiles | src/main.rs:284-368 | the file steps end as `Execute` of steps 4 to 10 |
| Executor.Disk.Scaffold | src/main.rs:261-368 | the whole scaffold ends as `Execute` of the plan, failing fast |
| Orchestrator.Build | src/main.rs:243-378 | after a confirmed wizard, the scaffold and the pause end as `Finish` |
| Orchestrator.Finish | src/main.rs:243-378 | the scaffold and pause after a confirmed wizard; stated by `FinishedScaffold` and `Orchestrator.Build` |
| Orchestrator.Program | src/main.rs:139-379 | the whole run; stated by `BannerFirst`, `QuitTouchesNothing`, `SuccessfulRun`, `RunSucceeds`, `InxOfRun` and `Orchestrator.Start` |
| Orchestrator.BannerFirst | src/main.rs:141-142 | the banner is printed first, then exactly what the wizard printed, whatever the run's ending |
| Orchestrator.Start | src/main.rs:139-379 | the program's ending, messages and final disk are `Program`'s |
| Orchestrator.QuitTouchesNothing | src/main.rs:227-230 | both directions: exit code 2 happens exactly when the user quits, and then no file is touched and no command is attempted |
| Orchestrator.FinishedScaffold | src/main.rs:261-378 | exit code 0 after a confirmed wizard means the three cargo commands and the pause ran in order, and the crate directory is as `Scaffolded` |
| Orchestrator.SuccessfulRun | src/main.rs:139-379 | exit code 0 means valid confirmed answers, the cargo commands and pause in order, the crate directory as working directory, and its files as `Scaffolded` |
| Orchestrator.RunSucceeds | src/main.rs:243-378 | conversely, confirmed answers, successful cargo calls leaving a ready directory, no injected I/O error and a pause that starts give exit code 0 |
| Orchestrator.InxOfRun | src/main.rs:355-365 | after a successful run, `<name>.inx` in the crate directory holds the template formatted with the name and its upper-case form |

## Left out

- Unicode: `trim`, `to_lowercase` and `to_uppercase` are modelled on ASCII only. White space is `' '` and `'\t'` to `'\r'`, and only `A`-`Z` and `a`-`z` change case. Rust's functions also handle non-ASCII white space and case mappings that change length.
- Input that is not UTF-8: `read_line` fails on it. The model only has a `ReadError` element, with no bytes behind it.
- Printed text: the banner, the prompts, the summary and the complaints are kept as message kinds (`Event`), without their wording. A command is recorded in `issued` when it is attempted, even if it could not be launched.
- Panic messages: not modelled.
- The completion messages and the timer: `SystemTime` and the elapsed seconds as `f64` (src/main.rs:243, src/main.rs:369-376) are wall-clock time and floating point.
- Child processes: what `cargo` does is the environment's `run`, given the command, working directory and files. Its exit code is optional, as in `ExitStatus::code`.
- Executor.Disk.SpawnUnchecked: the pause process (src/main.rs:378) counts only as started or not. Its exit status is ignored, as in the source, and any change it makes to files is not modelled.
- I/O errors: injected as at most one faulted sub-operation per step (open, clear, the i-th write, sync, or the directory operation). Only the first failure matters, because it ends the program.
- Scaffold.WriteAll: a `write_all` that fails adds nothing to the file in the model, whereas a real failure can leave part of the chunk written.
- `sync_all`: modelled only as success or failure, with no model of durability.
- Panics: a panic is the ending `Panicked`, without the process exit code or unwinding.
- Tree shape: the file system is a map from paths to nodes. Nothing forces every entry's parent to be a directory. Such structure is assumed only where a step needs it (`Ready`, `CanOpen`).
- Permissions, links and other file kinds are not modelled.
- Crate names are one path component. A name containing a path separator would address a nested path in the source.
- `indoc!`: the constants are written as `indoc!` produces them. The INX text is given as segments rather than derived from the macro source.
