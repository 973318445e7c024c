/** `main` as a whole (src/main.rs:139-379): the wizard, then the scaffold in
    the crate directory below the directory the program starts in, then
    `cmd /c pause`. The program ends with exit code 2 when the user quits,
    exit code 0 after the pause, by panicking at the first failure, or by
    waiting for ever when standard input runs out in a loop that keeps
    reading. */
module Orchestrator {
  import opened Text
  import opened Templates
  import Prompts
  import opened Scaffold
  import opened Executor

  const PAUSE := Command("cmd", ["/c", "pause"])

  datatype Termination = ExitCode(code: int) | Panicked | WaitsForever

  /** How the program ends, the messages printed before the scaffold, and the files,
      working directory and child processes it leaves. */
  datatype Report = Report(ending: Termination, printed: seq<Prompts.Event>, state: State)

  /** What follows a confirmed wizard with answers `a`, having printed
      `log`: the scaffold from `start`, then the pause. */
  function Finish(a: Prompts.Answers, log: seq<Prompts.Event>, start: State, env: Env): Report {
    match Execute(Plan(a.crateName, a.driverType, a.vcsType), 0, start, env)
    case Aborted(_, _, st) => Report(Panicked, log, st)
    case Completed(st) =>
      var paused := st.(issued := st.issued + [PAUSE]);
      if env.run(PAUSE, st.cwd, st.fs).LaunchError? then Report(Panicked, log, paused)
      else Report(ExitCode(0), log, paused)
  }

  /** The run of the program on standard input `input`, in environment
      `env`, started in directory `root` of the file system `fs`. */
  function Program(input: seq<Prompts.Read>, env: Env, root: Path, fs: Fs): Report {
    var start := State(fs, root, []);
    match Prompts.RunWizard(input)
    case Stuck(log) => Report(WaitsForever, [Prompts.Banner] + log, start)
    case Failed(log) => Report(Panicked, [Prompts.Banner] + log, start)
    case Done(ending, _, log) =>
      if ending.ExitRequested? then Report(ExitCode(2), [Prompts.Banner] + log, start)
      else Finish(ending.answers, [Prompts.Banner] + log, start, env)
  }

  /** The scaffold and the pause on `disk`, after the wizard confirmed `a`. */
  method Build(disk: Disk, a: Prompts.Answers, log: seq<Prompts.Event>, env: Env) returns (r: Report)
    modifies disk
    ensures r == Finish(a, log, old(disk.Snapshot()), env)
  {
    var t := TextsFor(a.crateName, a.driverType);
    var at, failure := disk.Scaffold(a.crateName, a.vcsType, t, env);
    if failure.Some? {
      return Report(Panicked, log, disk.Snapshot());
    }
    var launched := disk.SpawnUnchecked(PAUSE, env);
    if !launched {
      return Report(Panicked, log, disk.Snapshot());
    }
    r := Report(ExitCode(0), log, disk.Snapshot());
  }

  /** `main`: the wizard object, then the disk it works on. */
  method Start(input: seq<Prompts.Read>, env: Env, root: Path, fs: Fs) returns (r: Report)
    ensures r == Program(input, env, root, fs)
  {
    var banner := [Prompts.Banner];
    var wizard := new Prompts.Wizard(input);
    var status := wizard.Run();
    var disk := new Disk(fs, root);
    match status {
      case Hang =>
        return Report(WaitsForever, banner + wizard.log, disk.Snapshot());
      case IoPanic =>
        return Report(Panicked, banner + wizard.log, disk.Snapshot());
      case Exit2 =>
        return Report(ExitCode(2), banner + wizard.log, disk.Snapshot());
      case Proceed =>
    }
    r := Build(disk, Prompts.Answers(wizard.crateName, wizard.driverType, wizard.vcsType), banner + wizard.log, env);
  }

  // ------------------------------------------------------------ properties

  /** Exit code 2 comes from the user choosing to quit in the wizard, and
      then no command was attempted and no file touched. */
  lemma QuitTouchesNothing(input: seq<Prompts.Read>, env: Env, root: Path, fs: Fs)
    ensures var r := Program(input, env, root, fs);
      var w := Prompts.RunWizard(input);
      r.ending == ExitCode(2) <==> w.Done? && w.value.ExitRequested?
    ensures var r := Program(input, env, root, fs);
      r.ending == ExitCode(2) ==> r.state == State(fs, root, [])
  {
  }

  /** Whatever happens, the banner is printed first, followed by exactly
      what the wizard printed. */
  lemma BannerFirst(input: seq<Prompts.Read>, env: Env, root: Path, fs: Fs)
    ensures var r := Program(input, env, root, fs);
      |r.printed| >= 1 && r.printed[0] == Prompts.Banner &&
      r.printed[1..] == Prompts.RunWizard(input).log
  {
    var w := Prompts.RunWizard(input);
    assert ([Prompts.Banner] + w.log)[1..] == w.log;
  }

  /** After a confirmed wizard, exit code 0 means the three `cargo`
      commands and the pause ran in that order and the crate directory
      `dir` is the working directory, its files as `Scaffolded` describes on
      top of what `cargo` left. */
  lemma FinishedScaffold(a: Prompts.Answers, log: seq<Prompts.Event>, start: State, env: Env)
    requires start.issued == [] && Finish(a, log, start, env).ending == ExitCode(0)
    ensures var dir := start.cwd + [a.crateName];
      var c := Execute(CommandSteps(a.crateName, a.vcsType), 0, start, env);
      c.Completed? && IsFile(c.state.fs, dir + CARGO_TOML) &&
      Finish(a, log, start, env).state ==
        State(Scaffolded(c.state.fs, dir, a.crateName, TextsFor(a.crateName, a.driverType)), dir,
              [NewCommand(a.crateName, a.vcsType), ADD_BUILD_DEPENDENCY, ADD_DEPENDENCIES, PAUSE])
  {
    ScaffoldCompleted(a.crateName, a.vcsType, TextsFor(a.crateName, a.driverType), start, env);
    CommandStepsOutcome(a.crateName, a.vcsType, start, env);
  }

  /** A run that ends with exit code 0 confirmed valid answers in the
      wizard, ran the three `cargo` commands and the pause in that order,
      and left the crate directory `root + [name]` as the working directory
      and its files as `Scaffolded` describes on top of what `cargo` left. */
  lemma SuccessfulRun(input: seq<Prompts.Read>, env: Env, root: Path, fs: Fs)
    requires Program(input, env, root, fs).ending == ExitCode(0)
    ensures var w := Prompts.RunWizard(input);
      w.Done? && w.value.Confirmed? && Prompts.ValidAnswers(w.value.answers)
    ensures var a := Prompts.RunWizard(input).value.answers;
      var dir := root + [a.crateName];
      var c := Execute(CommandSteps(a.crateName, a.vcsType), 0, State(fs, root, []), env);
      c.Completed? && IsFile(c.state.fs, dir + CARGO_TOML) &&
      Program(input, env, root, fs).state ==
        State(Scaffolded(c.state.fs, dir, a.crateName, TextsFor(a.crateName, a.driverType)), dir,
              [NewCommand(a.crateName, a.vcsType), ADD_BUILD_DEPENDENCY, ADD_DEPENDENCIES, PAUSE])
  {
    var w := Prompts.RunWizard(input);
    Prompts.WizardValid(input);
    FinishedScaffold(w.value.answers, w.log, State(fs, root, []), env);
  }

  /** Conversely, confirmed answers lead to exit code 0 when the `cargo`
      commands complete and leave a ready crate directory, no I/O error is
      injected into the file steps, and the pause starts. */
  lemma RunSucceeds(input: seq<Prompts.Read>, env: Env, root: Path, fs: Fs)
    requires var w := Prompts.RunWizard(input);
      w.Done? && w.value.Confirmed?
    requires var a := Prompts.RunWizard(input).value.answers;
      var c := Execute(CommandSteps(a.crateName, a.vcsType), 0, State(fs, root, []), env);
      c.Completed? && Ready(c.state.fs, root + [a.crateName], a.crateName)
    requires forall j :: 4 <= j < 11 ==> j !in env.faults
    requires forall cwd, files :: !env.run(PAUSE, cwd, files).LaunchError?
    ensures Program(input, env, root, fs).ending == ExitCode(0)
  {
    var a := Prompts.RunWizard(input).value.answers;
    var start := State(fs, root, []);
    ScaffoldSucceeds(a.crateName, a.vcsType, TextsFor(a.crateName, a.driverType), start, env);
  }

  /** The INX file of a successful run is named after the crate and holds
      the template formatted with the name as it was entered (already lower
      case) and its upper-case form. */
  lemma InxOfRun(input: seq<Prompts.Read>, env: Env, root: Path, fs: Fs)
    requires Program(input, env, root, fs).ending == ExitCode(0)
    ensures var a := Prompts.RunWizard(input).value.answers;
      var out := Program(input, env, root, fs).state.fs;
      var inx := root + [a.crateName] + [a.crateName + ".inx"];
      inx in out && out[inx].File? &&
      Format(FormatString(INX_TEMPLATE), a.crateName, ToUpper(a.crateName)) == Ok(out[inx].content)
  {
    SuccessfulRun(input, env, root, fs);
    var a := Prompts.RunWizard(input).value.answers;
    var dir := root + [a.crateName];
    var c := Execute(CommandSteps(a.crateName, a.vcsType), 0, State(fs, root, []), env);
    var t := TextsFor(a.crateName, a.driverType);
    ScaffoldedAt(c.state.fs, dir, a.crateName, t);
    InxForLowerName(a.crateName);
  }
}
