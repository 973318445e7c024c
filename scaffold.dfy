/** The scaffold (src/main.rs:245-368): three `cargo` invocations, a change of
    directory, and the writes that configure the new crate, run in a fixed
    order where the first failure stops everything and nothing is undone.

    The file system is a map from absolute paths (lists of components) to
    files and directories. The working directory is part of the executor's
    state instead of the process's. What the environment decides is an
    oracle (`Env`): what a child process does and how it exits, and which
    sub-operation of a step an I/O error hits. Failures that follow from the
    file system itself (appending to a missing file, creating a directory
    that exists, creating a file in a missing directory, entering something
    that is not a directory) are decided by the map. */
module Scaffold {
  import opened Text
  import opened Templates

  datatype Option<T> = None | Some(value: T)

  /** A path from the file-system root, one string per component. */
  type Path = seq<string>

  datatype Node = File(content: string) | Dir

  type Fs = map<Path, Node>

  predicate IsDir(fs: Fs, p: Path) {
    p in fs && fs[p].Dir?
  }

  predicate IsFile(fs: Fs, p: Path) {
    p in fs && fs[p].File?
  }

  function Parent(p: Path): Path
    requires p != []
  {
    p[..|p| - 1]
  }

  /** A child process: program and argument vector. */
  datatype Command = Command(program: string, args: seq<string>)

  /** What `Command::status()` yields: the process could not be started, or
      it exited with a code (`None` when it has none, e.g. killed by a
      signal), leaving the file system as `after`. */
  datatype Exit = LaunchError | Exited(code: Option<int>, after: Fs)

  /** The sub-operations of a step that an I/O error can hit. */
  datatype Op = OpenOp | ClearOp | WriteOp(index: nat) | SyncOp | DirOp

  /** The environment: how each child process behaves, given its command,
      working directory and the file system it starts on; and, for each step
      index, the sub-operation (if any) that fails with an I/O error. */
  datatype Env = Env(run: (Command, Path, Fs) -> Exit, faults: map<nat, Op>)

  predicate Faulted(env: Env, k: nat, op: Op) {
    k in env.faults && env.faults[k] == op
  }

  /** `append(true).open` (no create), `File::create`, and `File::create`
      followed by `set_len(0)`. */
  datatype Mode = AppendExisting | Create | CreateCleared

  /** One step of the scaffold. Paths are relative to the working directory;
      `chunks` are the successive `write_all` calls. */
  datatype Step =
    | Run(cmd: Command)
    | EnterDir(name: string)
    | MakeDir(dir: Path)
    | WriteFile(file: Path, mode: Mode, chunks: seq<string>)

  /** Why a step failed; each one is a panic in the source. */
  datatype Cause =
    | LaunchFailed
    | NoExitCode
    | NonZeroExit(code: int)
    | EnterFailed
    | AlreadyExists
    | MakeDirFailed
    | OpenFailed
    | ClearFailed
    | WriteFailed
    | SyncFailed

  /** The files, the working directory, and the commands attempted so far
      (a command is recorded even when it could not be launched). */
  datatype State = State(fs: Fs, cwd: Path, issued: seq<Command>)

  /** A run of steps either completes, or stops at the first failing step
      (its index and cause) with whatever state that step left. */
  datatype Outcome = Completed(state: State) | Aborted(step: nat, cause: Cause, state: State)

  // ------------------------------------------------------------- the plan

  function NewCommand(crateName: string, vcsType: string): Command {
    Command("cargo", ["new", crateName, "--lib", "--vcs", vcsType])
  }

  const ADD_BUILD_DEPENDENCY := Command("cargo", ["add", "--build", "wdk-build"])

  const ADD_DEPENDENCIES := Command("cargo", ["add", "wdk", "wdk-sys", "wdk-alloc", "wdk-panic"])

  /** The relative paths the plan writes, in order. */
  const CARGO_TOML: Path := ["Cargo.toml"]
  const MAKEFILE_TOML: Path := ["Makefile.toml"]
  const CARGO_DIR: Path := [".cargo"]
  const CONFIG_TOML: Path := [".cargo", "config.toml"]
  const BUILD_RS: Path := ["build.rs"]
  const LIB_RS: Path := ["src", "lib.rs"]

  function InxPath(crateName: string): Path {
    [crateName + ".inx"]
  }

  /** What the file steps write: the successive `write_all` chunks for
      Cargo.toml and the bodies of the other files. */
  datatype Texts = Texts(cargo: seq<string>, makefile: string, config: string, buildRs: string,
                         libRs: string, inx: string)

  /** The texts of src/main.rs:289-362 for a crate and a driver type. */
  function TextsFor(crateName: string, driverType: string): Texts {
    Texts([CARGO_TOML_ADDITION, "\"" + driverType + "\"\n"], MAKEFILE_TOML_CONTENT, CONFIG_TOML_CONTENT,
          BUILD_RS_CONTENT, LIB_RS_CONTENT, InxText(crateName))
  }

  /** Steps 0 to 3 (src/main.rs:261-273): create the crate, enter it, add the
      build dependency and the runtime dependencies. */
  function CommandSteps(crateName: string, vcsType: string): seq<Step> {
    [ Run(NewCommand(crateName, vcsType)),
      EnterDir(crateName),
      Run(ADD_BUILD_DEPENDENCY),
      Run(ADD_DEPENDENCIES) ]
  }

  /** Steps 4 to 10 (src/main.rs:284-368), writing the texts `t`. */
  function FileStepsFor(crateName: string, t: Texts): seq<Step> {
    [ WriteFile(CARGO_TOML, AppendExisting, t.cargo),
      WriteFile(MAKEFILE_TOML, Create, [t.makefile]),
      MakeDir(CARGO_DIR),
      WriteFile(CONFIG_TOML, Create, [t.config]),
      WriteFile(BUILD_RS, Create, [t.buildRs]),
      WriteFile(LIB_RS, CreateCleared, [t.libRs]),
      WriteFile(InxPath(crateName), Create, [t.inx]) ]
  }

  /** The eleven steps of the scaffold, in the order they run, writing the
      texts `t`. */
  function Steps(crateName: string, vcsType: string, t: Texts): seq<Step> {
    CommandSteps(crateName, vcsType) + FileStepsFor(crateName, t)
  }

  /** The scaffold for the wizard's answers. */
  function Plan(crateName: string, driverType: string, vcsType: string): seq<Step> {
    Steps(crateName, vcsType, TextsFor(crateName, driverType))
  }

  // ------------------------------------------------------ one step, as a value

  function Concat(chunks: seq<string>): string {
    if chunks == [] then [] else chunks[0] + Concat(chunks[1..])
  }

  /** `write_all` of `chunks[i..]` in turn after `content`, up to the first
      write the environment fails: the content reached, and whether every
      write succeeded. */
  function WriteAll(chunks: seq<string>, i: nat, content: string, env: Env, k: nat): (string, bool)
    decreases |chunks| - i
  {
    if i >= |chunks| then (content, true)
    else if Faulted(env, k, WriteOp(i)) then (content, false)
    else WriteAll(chunks, i + 1, content + chunks[i], env, k)
  }

  /** Whether the file at `p` can be opened in `mode`: appending needs an
      existing file; creating needs the parent directory and no directory at
      `p`. */
  predicate CanOpen(fs: Fs, p: Path, mode: Mode) {
    if mode == AppendExisting then IsFile(fs, p)
    else p != [] && IsDir(fs, Parent(p)) && (p !in fs || fs[p].File?)
  }

  function PutFile(st: State, p: Path, content: string): State {
    st.(fs := st.fs[p := File(content)])
  }

  /** The `handle_process_output!` macro: a launch error, a missing exit code
      (`code().unwrap()`) or a non-zero code is a failure. The files the child
      left stay as they are in every case. */
  function Launch(cmd: Command, k: nat, st: State, env: Env): Outcome {
    var attempted := st.(issued := st.issued + [cmd]);
    match env.run(cmd, st.cwd, st.fs)
    case LaunchError => Aborted(k, LaunchFailed, attempted)
    case Exited(code, after) =>
      var ended := attempted.(fs := after);
      if code.None? then Aborted(k, NoExitCode, ended)
      else if code.value != 0 then Aborted(k, NonZeroExit(code.value), ended)
      else Completed(ended)
  }

  /** `set_current_dir(name)`, relative to the working directory. */
  function Enter(name: string, k: nat, st: State, env: Env): Outcome {
    var p := st.cwd + [name];
    if IsDir(st.fs, p) && !Faulted(env, k, DirOp) then Completed(st.(cwd := p))
    else Aborted(k, EnterFailed, st)
  }

  /** `create_dir`: fails when the path exists, whatever it is. */
  function CreateDir(dir: Path, k: nat, st: State, env: Env): Outcome {
    var p := st.cwd + dir;
    if p in st.fs then Aborted(k, AlreadyExists, st)
    else if p == [] || !IsDir(st.fs, Parent(p)) || Faulted(env, k, DirOp) then Aborted(k, MakeDirFailed, st)
    else Completed(st.(fs := st.fs[p := Dir]))
  }

  /** Open the file, clear it if the mode says so, write the chunks, sync. */
  function Write(file: Path, mode: Mode, chunks: seq<string>, k: nat, st: State, env: Env): Outcome {
    var p := st.cwd + file;
    if !CanOpen(st.fs, p, mode) || Faulted(env, k, OpenOp) then Aborted(k, OpenFailed, st)
    else
      var base := if mode == AppendExisting then st.fs[p].content else [];
      if mode == CreateCleared && Faulted(env, k, ClearOp) then Aborted(k, ClearFailed, PutFile(st, p, base))
      else
        var w := WriteAll(chunks, 0, base, env, k);
        var written := PutFile(st, p, w.0);
        if !w.1 then Aborted(k, WriteFailed, written)
        else if Faulted(env, k, SyncOp) then Aborted(k, SyncFailed, written)
        else Completed(written)
  }

  /** Step `s`, the `k`-th of the plan, from state `st`. */
  function Apply(s: Step, k: nat, st: State, env: Env): (r: Outcome)
    ensures r.Aborted? ==> r.step == k
  {
    match s
    case Run(cmd) => Launch(cmd, k, st, env)
    case EnterDir(name) => Enter(name, k, st, env)
    case MakeDir(dir) => CreateDir(dir, k, st, env)
    case WriteFile(file, mode, chunks) => Write(file, mode, chunks, k, st, env)
  }

  /** The steps in order from index `k`, stopping at the first failure. */
  function Execute(plan: seq<Step>, k: nat, st: State, env: Env): Outcome
    decreases |plan|
  {
    if plan == [] then Completed(st)
    else
      var r := Apply(plan[0], k, st, env);
      if r.Aborted? then r else Execute(plan[1..], k + 1, r.state, env)
  }

  /** Continue a run with `rest` from step `k` unless it has already stopped. */
  function Then(r: Outcome, rest: seq<Step>, k: nat, env: Env): Outcome {
    if r.Aborted? then r else Execute(rest, k, r.state, env)
  }

  /** The state a step leaves (failed or not), as a `Completed` or
      `Aborted` outcome, from what a method reports. */
  function Settle(k: nat, failure: Option<Cause>, st: State): Outcome {
    if failure.Some? then Aborted(k, failure.value, st) else Completed(st)
  }

  // ---------------------------------------------------------- step lemmas

  lemma {:induction false} WriteAllResult(chunks: seq<string>, i: nat, content: string, env: Env, k: nat)
    requires i <= |chunks|
    ensures var w := WriteAll(chunks, i, content, env, k);
      w.1 <==> (forall j :: i <= j < |chunks| ==> !Faulted(env, k, WriteOp(j)))
    ensures var w := WriteAll(chunks, i, content, env, k);
      w.1 ==> w.0 == content + Concat(chunks[i..])
    decreases |chunks| - i
  {
    if i < |chunks| {
      WriteAllResult(chunks, i + 1, content + chunks[i], env, k);
      assert chunks[i..] == [chunks[i]] + chunks[i + 1..];
      assert Concat(chunks[i..]) == chunks[i] + Concat(chunks[i + 1..]);
    } else {
      assert chunks[i..] == [];
    }
  }

  /** A completed write leaves the file holding what was there (when
      appending) followed by every chunk, changes no other path, and keeps
      the working directory and the commands attempted. */
  lemma WriteCompleted(file: Path, mode: Mode, chunks: seq<string>, k: nat, st: State, env: Env)
    requires Write(file, mode, chunks, k, st, env).Completed?
    ensures var p := st.cwd + file;
      CanOpen(st.fs, p, mode) &&
      Write(file, mode, chunks, k, st, env).state ==
        PutFile(st, p, (if mode == AppendExisting then st.fs[p].content else []) + Concat(chunks))
  {
    var p := st.cwd + file;
    var base := if mode == AppendExisting then st.fs[p].content else [];
    WriteAllResult(chunks, 0, base, env, k);
    assert chunks[0..] == chunks;
  }

  /** When nothing stands in its way, a write completes. */
  lemma WriteSucceeds(file: Path, mode: Mode, chunks: seq<string>, k: nat, st: State, env: Env)
    requires CanOpen(st.fs, st.cwd + file, mode)
    requires k !in env.faults
    ensures Write(file, mode, chunks, k, st, env).Completed?
  {
    var p := st.cwd + file;
    var base := if mode == AppendExisting then st.fs[p].content else [];
    WriteAllResult(chunks, 0, base, env, k);
  }

  /** `create_dir` fails with AlreadyExists exactly when the path is taken;
      the `.cargo` step is not tolerant of an existing directory. */
  lemma CreateDirExisting(dir: Path, k: nat, st: State, env: Env)
    ensures CreateDir(dir, k, st, env).Aborted? && CreateDir(dir, k, st, env).cause == AlreadyExists
      <==> st.cwd + dir in st.fs
    ensures CreateDir(dir, k, st, env).Completed? ==>
      CreateDir(dir, k, st, env).state == st.(fs := st.fs[st.cwd + dir := Dir])
  {
  }

  // ------------------------------------------------------- fail-fast lemmas

  /** Running `p1 + p2` is running `p1` and then, only if it completed,
      `p2` from where it left off. */
  lemma {:induction false} ExecuteAppend(p1: seq<Step>, p2: seq<Step>, k: nat, st: State, env: Env)
    ensures Execute(p1 + p2, k, st, env) == Then(Execute(p1, k, st, env), p2, k + |p1|, env)
    decreases |p1|
  {
    if p1 == [] {
      assert p1 + p2 == p2;
    } else {
      assert (p1 + p2)[0] == p1[0];
      assert (p1 + p2)[1..] == p1[1..] + p2;
      var r := Apply(p1[0], k, st, env);
      if r.Completed? {
        ExecuteAppend(p1[1..], p2, k + 1, r.state, env);
      }
    }
  }

  /** Once a run stops, no later step has any effect: whatever follows, the
      outcome is the same. */
  lemma AbortedIgnoresRest(p1: seq<Step>, p2: seq<Step>, k: nat, st: State, env: Env)
    requires Execute(p1, k, st, env).Aborted?
    ensures Execute(p1 + p2, k, st, env) == Execute(p1, k, st, env)
  {
    ExecuteAppend(p1, p2, k, st, env);
  }

  /** A run that stops at step `j` ran every earlier step to completion and
      then failed at step `j`, keeping what that step left: earlier effects
      are not rolled back, and no later step runs. */
  lemma {:induction false} AbortedAt(plan: seq<Step>, k: nat, st: State, env: Env)
    requires Execute(plan, k, st, env).Aborted?
    ensures var r := Execute(plan, k, st, env);
      k <= r.step < k + |plan| &&
      Execute(plan[..r.step - k], k, st, env).Completed? &&
      Apply(plan[r.step - k], r.step, Execute(plan[..r.step - k], k, st, env).state, env) == r
    decreases |plan|
  {
    var first := Apply(plan[0], k, st, env);
    if first.Aborted? {
      assert plan[..0] == [];
    } else {
      AbortedAt(plan[1..], k + 1, first.state, env);
      var r := Execute(plan, k, st, env);
      var j := r.step - k;
      assert plan[1..][..j - 1] == plan[1..j];
      assert plan[..j] == [plan[0]] + plan[1..j];
      ExecuteAppend([plan[0]], plan[1..j], k, st, env);
      assert plan[1..][j - 1] == plan[j];
    }
  }

  /** A completed run completed every step, each from the state the
      previous one left. */
  lemma {:induction false} CompletedEach(plan: seq<Step>, k: nat, st: State, env: Env, i: nat)
    requires Execute(plan, k, st, env).Completed? && i < |plan|
    ensures Execute(plan[..i], k, st, env).Completed?
    ensures Apply(plan[i], k + i, Execute(plan[..i], k, st, env).state, env).Completed?
  {
    assert plan == plan[..i] + plan[i..];
    ExecuteAppend(plan[..i], plan[i..], k, st, env);
    assert plan[i..][0] == plan[i];
  }


  // -------------------------------------------- what file steps do, in general

  lemma ConcatOne(s: string)
    ensures Concat([s]) == s
  {
    assert [s][1..] == [];
  }

  predicate FileSteps(plan: seq<Step>) {
    forall i :: 0 <= i < |plan| ==> plan[i].WriteFile? || plan[i].MakeDir?
  }

  /** What a completed file or directory step does to the file system. */
  function Effect(s: Step, cwd: Path, fs: Fs): Fs
    requires s.WriteFile? || s.MakeDir?
  {
    match s
    case MakeDir(dir) => fs[cwd + dir := Dir]
    case WriteFile(file, mode, chunks) =>
      var p := cwd + file;
      var base := if mode == AppendExisting && IsFile(fs, p) then fs[p].content else [];
      fs[p := File(base + Concat(chunks))]
  }

  /** The effects of file and directory steps, one after the other. */
  function Effects(plan: seq<Step>, cwd: Path, fs: Fs): Fs
    requires FileSteps(plan)
    decreases |plan|
  {
    if plan == [] then fs else Effects(plan[1..], cwd, Effect(plan[0], cwd, fs))
  }

  /** Whether step `s` can run on `fs` from `cwd` when no I/O error is
      injected. */
  predicate CanRun(s: Step, cwd: Path, fs: Fs)
    requires s.WriteFile? || s.MakeDir?
  {
    match s
    case WriteFile(file, mode, _) => CanOpen(fs, cwd + file, mode)
    case MakeDir(dir) => cwd + dir !in fs && cwd + dir != [] && IsDir(fs, Parent(cwd + dir))
  }

  /** Every step can run on what the steps before it left. */
  predicate Runnable(plan: seq<Step>, cwd: Path, fs: Fs)
    requires FileSteps(plan)
    decreases |plan|
  {
    plan == [] || (CanRun(plan[0], cwd, fs) && Runnable(plan[1..], cwd, Effect(plan[0], cwd, fs)))
  }

  /** One completed file or directory step has exactly its effect, and
      keeps the working directory and the commands attempted. */
  lemma FileStepCompleted(s: Step, k: nat, st: State, env: Env)
    requires s.WriteFile? || s.MakeDir?
    requires Apply(s, k, st, env).Completed?
    ensures CanRun(s, st.cwd, st.fs)
    ensures Apply(s, k, st, env).state == st.(fs := Effect(s, st.cwd, st.fs))
  {
    match s {
      case WriteFile(file, mode, chunks) =>
        WriteCompleted(file, mode, chunks, k, st, env);
      case MakeDir(dir) =>
        CreateDirExisting(dir, k, st, env);
    }
  }

  /** A completed run of file and directory steps keeps the working
      directory and the commands attempted, and leaves the file system that
      their effects produce in order. */
  lemma {:induction false} ExecuteFileSteps(plan: seq<Step>, k: nat, st: State, env: Env)
    requires FileSteps(plan) && Execute(plan, k, st, env).Completed?
    ensures Runnable(plan, st.cwd, st.fs)
    ensures Execute(plan, k, st, env).state == st.(fs := Effects(plan, st.cwd, st.fs))
    decreases |plan|
  {
    if plan != [] {
      FileStepCompleted(plan[0], k, st, env);
      ExecuteFileSteps(plan[1..], k + 1, Apply(plan[0], k, st, env).state, env);
    }
  }

  /** File and directory steps that can each run, with no I/O error injected
      at their indices, complete. */
  lemma {:induction false} RunnableCompletes(plan: seq<Step>, k: nat, st: State, env: Env)
    requires FileSteps(plan) && Runnable(plan, st.cwd, st.fs)
    requires forall j :: k <= j < k + |plan| ==> j !in env.faults
    ensures Execute(plan, k, st, env).Completed?
    decreases |plan|
  {
    if plan != [] {
      match plan[0] {
        case WriteFile(file, mode, chunks) =>
          WriteSucceeds(file, mode, chunks, k, st, env);
        case MakeDir(dir) =>
      }
      FileStepCompleted(plan[0], k, st, env);
      RunnableCompletes(plan[1..], k + 1, Apply(plan[0], k, st, env).state, env);
    }
  }

  // ---------------------------------------------------- the plan's effects

  /** What the file steps of the plan make of `fs` in the crate directory
      `dir`: Cargo.toml gains the chunks after what it held, every other
      file holds exactly its text, `.cargo` is a new directory. */
  function Scaffolded(fs: Fs, dir: Path, crateName: string, t: Texts): Fs
    requires IsFile(fs, dir + CARGO_TOML)
  {
    fs[dir + CARGO_TOML := File(fs[dir + CARGO_TOML].content + Concat(t.cargo))]
      [dir + MAKEFILE_TOML := File(t.makefile)]
      [dir + CARGO_DIR := Dir]
      [dir + CONFIG_TOML := File(t.config)]
      [dir + BUILD_RS := File(t.buildRs)]
      [dir + LIB_RS := File(t.libRs)]
      [dir + InxPath(crateName) := File(t.inx)]
  }

  lemma SubpathsDiffer(dir: Path, a: Path, b: Path)
    requires a != b
    ensures dir + a != dir + b
  {
    assert (dir + a)[|dir|..] == a;
    assert (dir + b)[|dir|..] == b;
  }

  lemma InxPathDistinct(crateName: string)
    ensures InxPath(crateName) !in {CARGO_TOML, MAKEFILE_TOML, CARGO_DIR, CONFIG_TOML, BUILD_RS, LIB_RS}
  {
    var n := crateName + ".inx";
    assert n[|n| - 1] == 'x';
  }

  /** The seven paths the plan writes, inside `dir`, are different paths. */
  lemma TargetsDistinct(dir: Path, crateName: string)
    ensures var inx := dir + InxPath(crateName);
      dir + CARGO_TOML != dir + MAKEFILE_TOML && dir + CARGO_TOML != dir + CARGO_DIR &&
      dir + CARGO_TOML != dir + CONFIG_TOML && dir + CARGO_TOML != dir + BUILD_RS &&
      dir + CARGO_TOML != dir + LIB_RS && dir + CARGO_TOML != inx &&
      dir + MAKEFILE_TOML != dir + CARGO_DIR && dir + MAKEFILE_TOML != dir + CONFIG_TOML &&
      dir + MAKEFILE_TOML != dir + BUILD_RS && dir + MAKEFILE_TOML != dir + LIB_RS && dir + MAKEFILE_TOML != inx &&
      dir + CARGO_DIR != dir + CONFIG_TOML && dir + CARGO_DIR != dir + BUILD_RS &&
      dir + CARGO_DIR != dir + LIB_RS && dir + CARGO_DIR != inx &&
      dir + CONFIG_TOML != dir + BUILD_RS && dir + CONFIG_TOML != dir + LIB_RS && dir + CONFIG_TOML != inx &&
      dir + BUILD_RS != dir + LIB_RS && dir + BUILD_RS != inx &&
      dir + LIB_RS != inx
  {
    InxPathDistinct(crateName);
    var ts := [CARGO_TOML, MAKEFILE_TOML, CARGO_DIR, CONFIG_TOML, BUILD_RS, LIB_RS, InxPath(crateName)];
    forall i, j | 0 <= i < j < |ts|
      ensures dir + ts[i] != dir + ts[j]
    {
      SubpathsDiffer(dir, ts[i], ts[j]);
    }
    assert ts[0] == CARGO_TOML && ts[1] == MAKEFILE_TOML && ts[2] == CARGO_DIR && ts[3] == CONFIG_TOML;
    assert ts[4] == BUILD_RS && ts[5] == LIB_RS && ts[6] == InxPath(crateName);
  }

  lemma ParentOfChild(dir: Path, name: string)
    ensures Parent(dir + [name]) == dir
  {
    assert (dir + [name])[..|dir|] == dir;
  }

  /** No path the plan writes is the crate directory or its `src`. */
  lemma TargetsBelow(dir: Path, rest: Path)
    requires rest != [] && rest != ["src"]
    ensures dir + rest != dir && dir + rest != dir + ["src"]
  {
    assert |dir + rest| > |dir|;
    SubpathsDiffer(dir, rest, ["src"]);
  }

  /** The file steps, run from `dir`, produce `Scaffolded`. */
  lemma {:induction false} FileStepsEffects(crateName: string, t: Texts, dir: Path, fs: Fs)
    requires IsFile(fs, dir + CARGO_TOML)
    ensures FileSteps(FileStepsFor(crateName, t))
    ensures Effects(FileStepsFor(crateName, t), dir, fs) == Scaffolded(fs, dir, crateName, t)
  {
    var f := FileStepsFor(crateName, t);
    ConcatOne(t.makefile);
    ConcatOne(t.config);
    ConcatOne(t.buildRs);
    ConcatOne(t.libRs);
    ConcatOne(t.inx);
    var fs1 := Effect(f[0], dir, fs);
    var fs2 := Effect(f[1], dir, fs1);
    var fs3 := Effect(f[2], dir, fs2);
    var fs4 := Effect(f[3], dir, fs3);
    var fs5 := Effect(f[4], dir, fs4);
    var fs6 := Effect(f[5], dir, fs5);
    var fs7 := Effect(f[6], dir, fs6);
    assert fs2 == fs1[dir + MAKEFILE_TOML := File(t.makefile)] by {
      assert [] + t.makefile == t.makefile;
    }
    assert fs4 == fs3[dir + CONFIG_TOML := File(t.config)] by {
      assert [] + t.config == t.config;
    }
    assert fs5 == fs4[dir + BUILD_RS := File(t.buildRs)] by {
      assert [] + t.buildRs == t.buildRs;
    }
    assert fs6 == fs5[dir + LIB_RS := File(t.libRs)] by {
      assert [] + t.libRs == t.libRs;
    }
    assert fs7 == fs6[dir + InxPath(crateName) := File(t.inx)] by {
      assert [] + t.inx == t.inx;
    }
    assert Effects(f[7..], dir, fs7) == fs7;
    assert Effects(f[6..], dir, fs6) == Effects(f[7..], dir, fs7) by { assert f[6..][1..] == f[7..]; }
    assert Effects(f[5..], dir, fs5) == Effects(f[6..], dir, fs6) by { assert f[5..][1..] == f[6..]; }
    assert Effects(f[4..], dir, fs4) == Effects(f[5..], dir, fs5) by { assert f[4..][1..] == f[5..]; }
    assert Effects(f[3..], dir, fs3) == Effects(f[4..], dir, fs4) by { assert f[3..][1..] == f[4..]; }
    assert Effects(f[2..], dir, fs2) == Effects(f[3..], dir, fs3) by { assert f[2..][1..] == f[3..]; }
    assert Effects(f[1..], dir, fs1) == Effects(f[2..], dir, fs2) by { assert f[1..][1..] == f[2..]; }
  }

  predicate NotDir(fs: Fs, p: Path) {
    p !in fs || fs[p].File?
  }

  /** What the file steps need from the crate directory `dir` that the
      `cargo` commands left: the directory itself and `src` exist, Cargo.toml
      is a file, `.cargo` does not exist yet, and no file the plan creates is
      taken by a directory. */
  predicate Ready(fs: Fs, dir: Path, crateName: string) {
    IsDir(fs, dir) && IsDir(fs, dir + ["src"]) && IsFile(fs, dir + CARGO_TOML) &&
    dir + CARGO_DIR !in fs && NotDir(fs, dir + CONFIG_TOML) &&
    NotDir(fs, dir + MAKEFILE_TOML) && NotDir(fs, dir + BUILD_RS) &&
    NotDir(fs, dir + LIB_RS) && NotDir(fs, dir + InxPath(crateName))
  }

  /** What file steps `i` to 6 still need. */
  predicate ReadyFrom(i: nat, fs: Fs, dir: Path, crateName: string) {
    IsDir(fs, dir) && IsDir(fs, dir + ["src"]) &&
    (i <= 0 ==> IsFile(fs, dir + CARGO_TOML)) &&
    (i <= 1 ==> NotDir(fs, dir + MAKEFILE_TOML)) &&
    (i <= 2 ==> dir + CARGO_DIR !in fs) &&
    (i == 3 ==> IsDir(fs, dir + CARGO_DIR)) &&
    (i <= 3 ==> NotDir(fs, dir + CONFIG_TOML)) &&
    (i <= 4 ==> NotDir(fs, dir + BUILD_RS)) &&
    (i <= 5 ==> NotDir(fs, dir + LIB_RS)) &&
    (i <= 6 ==> NotDir(fs, dir + InxPath(crateName)))
  }

  /** File step `i` can run on a file system that is ready from `i` on,
      and leaves one that is ready from `i + 1` on. */
  lemma ReadyStep(i: nat, crateName: string, t: Texts, dir: Path, fs: Fs)
    requires i < 7 && ReadyFrom(i, fs, dir, crateName)
    ensures var s := FileStepsFor(crateName, t)[i];
      (s.WriteFile? || s.MakeDir?) && CanRun(s, dir, fs) && ReadyFrom(i + 1, Effect(s, dir, fs), dir, crateName)
  {
    if i == 0 {
      TargetsBelow(dir, CARGO_TOML);
      SubpathsDiffer(dir, CARGO_TOML, CARGO_DIR);
    } else if i == 1 {
      ParentOfChild(dir, "Makefile.toml");
      TargetsBelow(dir, MAKEFILE_TOML);
      SubpathsDiffer(dir, MAKEFILE_TOML, CARGO_DIR);
    } else if i == 2 {
      ParentOfChild(dir, ".cargo");
      TargetsBelow(dir, CARGO_DIR);
      SubpathsDiffer(dir, CARGO_DIR, CONFIG_TOML);
      SubpathsDiffer(dir, CARGO_DIR, BUILD_RS);
      SubpathsDiffer(dir, CARGO_DIR, LIB_RS);
      InxPathDistinct(crateName);
      SubpathsDiffer(dir, CARGO_DIR, InxPath(crateName));
    } else if i == 3 {
      ParentOfChild(dir + CARGO_DIR, "config.toml");
      assert dir + CONFIG_TOML == dir + CARGO_DIR + ["config.toml"];
      TargetsBelow(dir, CONFIG_TOML);
    } else if i == 4 {
      ParentOfChild(dir, "build.rs");
      TargetsBelow(dir, BUILD_RS);
    } else if i == 5 {
      ParentOfChild(dir + ["src"], "lib.rs");
      assert dir + LIB_RS == dir + ["src"] + ["lib.rs"];
      TargetsBelow(dir, LIB_RS);
    } else {
      ParentOfChild(dir, crateName + ".inx");
      InxPathDistinct(crateName);
      TargetsBelow(dir, InxPath(crateName));
    }
  }

  lemma {:induction false} RunnableFrom(i: nat, crateName: string, t: Texts, dir: Path, fs: Fs)
    requires i <= 7 && ReadyFrom(i, fs, dir, crateName)
    ensures FileSteps(FileStepsFor(crateName, t)[i..])
    ensures Runnable(FileStepsFor(crateName, t)[i..], dir, fs)
    decreases 7 - i
  {
    var f := FileStepsFor(crateName, t);
    if i < 7 {
      ReadyStep(i, crateName, t, dir, fs);
      RunnableFrom(i + 1, crateName, t, dir, Effect(f[i], dir, fs));
      assert f[i..][1..] == f[i + 1..];
    }
  }

  /** From a ready crate directory, every file step can run. */
  lemma FileStepsRunnable(crateName: string, t: Texts, dir: Path, fs: Fs)
    requires Ready(fs, dir, crateName)
    ensures FileSteps(FileStepsFor(crateName, t))
    ensures Runnable(FileStepsFor(crateName, t), dir, fs)
  {
    RunnableFrom(0, crateName, t, dir, fs);
    assert FileStepsFor(crateName, t)[0..] == FileStepsFor(crateName, t);
  }

  // ------------------------------------------------------ the whole plan

  /** A child process that ran and exited with code 0. */
  predicate ExitsZero(e: Exit) {
    e.Exited? && e.code == Some(0)
  }

  /** The four command steps complete exactly when `cargo new` exits with
      code 0 having made the crate directory, the directory can be entered,
      and both `cargo add` calls, run inside it, exit with code 0. They then
      leave the working directory in the crate, the three commands issued in
      order, and the files the last `cargo add` left. */
  lemma CommandStepsOutcome(crateName: string, vcsType: string, st: State, env: Env)
    ensures var dir := st.cwd + [crateName];
      var e1 := env.run(NewCommand(crateName, vcsType), st.cwd, st.fs);
      Execute(CommandSteps(crateName, vcsType), 0, st, env).Completed? <==>
        ExitsZero(e1) && IsDir(e1.after, dir) && !Faulted(env, 1, DirOp) &&
        ExitsZero(env.run(ADD_BUILD_DEPENDENCY, dir, e1.after)) &&
        ExitsZero(env.run(ADD_DEPENDENCIES, dir, env.run(ADD_BUILD_DEPENDENCY, dir, e1.after).after))
    ensures var dir := st.cwd + [crateName];
      var r := Execute(CommandSteps(crateName, vcsType), 0, st, env);
      r.Completed? ==>
        var e1 := env.run(NewCommand(crateName, vcsType), st.cwd, st.fs);
        var e2 := env.run(ADD_BUILD_DEPENDENCY, dir, e1.after);
        r.state == State(env.run(ADD_DEPENDENCIES, dir, e2.after).after, dir,
                         st.issued + [NewCommand(crateName, vcsType), ADD_BUILD_DEPENDENCY, ADD_DEPENDENCIES])
  {
    var c := CommandSteps(crateName, vcsType);
    var r1 := Apply(c[0], 0, st, env);
    assert Execute(c, 0, st, env) == if r1.Aborted? then r1 else Execute(c[1..], 1, r1.state, env);
    if r1.Completed? {
      var r2 := Apply(c[1], 1, r1.state, env);
      assert c[1..][0] == c[1] && c[1..][1..] == c[2..];
      assert Execute(c[1..], 1, r1.state, env) == if r2.Aborted? then r2 else Execute(c[2..], 2, r2.state, env);
      if r2.Completed? {
        var r3 := Apply(c[2], 2, r2.state, env);
        assert c[2..][0] == c[2] && c[2..][1..] == c[3..];
        assert Execute(c[2..], 2, r2.state, env) == if r3.Aborted? then r3 else Execute(c[3..], 3, r3.state, env);
        if r3.Completed? {
          var r4 := Apply(c[3], 3, r3.state, env);
          assert c[3..][0] == c[3] && c[3..][1..] == [];
          assert Execute(c[3..], 3, r3.state, env) == if r4.Aborted? then r4 else Completed(r4.state);
          assert st.issued + [c[0].cmd] + [c[2].cmd] + [c[3].cmd] ==
            st.issued + [NewCommand(crateName, vcsType), ADD_BUILD_DEPENDENCY, ADD_DEPENDENCIES];
        }
      }
    }
  }

  /** A run of the plan in which `cargo new` exits with a non-zero code
      stops there: the working directory is unchanged, only that command
      was issued, and the files are what it left. */
  lemma NewFailureStopsAll(crateName: string, vcsType: string, t: Texts, st: State, env: Env)
    requires var e := env.run(NewCommand(crateName, vcsType), st.cwd, st.fs);
      e.Exited? && e.code.Some? && e.code.value != 0
    ensures var e := env.run(NewCommand(crateName, vcsType), st.cwd, st.fs);
      Execute(Steps(crateName, vcsType, t), 0, st, env) ==
        Aborted(0, NonZeroExit(e.code.value), State(e.after, st.cwd, st.issued + [NewCommand(crateName, vcsType)]))
  {
  }

  /** A completed run of the plan ran the `cargo` commands to completion
      from `st`, found Cargo.toml in the crate directory and no `.cargo`
      there, and left the crate's files as `Scaffolded` describes; nothing
      else about the state changed. */
  lemma ScaffoldCompleted(crateName: string, vcsType: string, t: Texts, st: State, env: Env)
    requires Execute(Steps(crateName, vcsType, t), 0, st, env).Completed?
    ensures var c := Execute(CommandSteps(crateName, vcsType), 0, st, env);
      var dir := st.cwd + [crateName];
      c.Completed? && c.state.cwd == dir && IsFile(c.state.fs, dir + CARGO_TOML) && dir + CARGO_DIR !in c.state.fs &&
      Execute(Steps(crateName, vcsType, t), 0, st, env).state ==
        c.state.(fs := Scaffolded(c.state.fs, dir, crateName, t))
  {
    var f := FileStepsFor(crateName, t);
    var dir := st.cwd + [crateName];
    ExecuteAppend(CommandSteps(crateName, vcsType), f, 0, st, env);
    var c := Execute(CommandSteps(crateName, vcsType), 0, st, env);
    CommandStepsOutcome(crateName, vcsType, st, env);
    FileStepsEffects(crateName, t, dir, c.state.fs);
    ExecuteFileSteps(f, 4, c.state, env);
    FreshCargoDir(crateName, t, dir, c.state.fs);
  }

  /** The file steps can only all run where `.cargo` did not exist: the
      two writes before it do not create it. */
  lemma FreshCargoDir(crateName: string, t: Texts, dir: Path, fs: Fs)
    requires FileSteps(FileStepsFor(crateName, t)) && Runnable(FileStepsFor(crateName, t), dir, fs)
    ensures dir + CARGO_DIR !in fs
  {
    var f := FileStepsFor(crateName, t);
    var fs1 := Effect(f[0], dir, fs);
    var fs2 := Effect(f[1], dir, fs1);
    assert f[1..][0] == f[1] && f[1..][1..] == f[2..];
    assert Runnable(f[1..], dir, fs1);
    assert Runnable(f[2..], dir, fs2);
    assert f[2..][0] == MakeDir(CARGO_DIR);
    assert dir + CARGO_DIR !in fs2;
    SubpathsDiffer(dir, CARGO_TOML, CARGO_DIR);
    SubpathsDiffer(dir, MAKEFILE_TOML, CARGO_DIR);
  }

  /** Conversely, when the `cargo` commands complete and leave a ready crate
      directory, and no I/O error is injected into the file steps, the
      whole plan completes. */
  lemma ScaffoldSucceeds(crateName: string, vcsType: string, t: Texts, st: State, env: Env)
    requires Execute(CommandSteps(crateName, vcsType), 0, st, env).Completed?
    requires Ready(Execute(CommandSteps(crateName, vcsType), 0, st, env).state.fs, st.cwd + [crateName], crateName)
    requires forall j :: 4 <= j < 11 ==> j !in env.faults
    ensures Execute(Steps(crateName, vcsType, t), 0, st, env).Completed?
  {
    var f := FileStepsFor(crateName, t);
    ExecuteAppend(CommandSteps(crateName, vcsType), f, 0, st, env);
    var c := Execute(CommandSteps(crateName, vcsType), 0, st, env);
    CommandStepsOutcome(crateName, vcsType, st, env);
    FileStepsRunnable(crateName, t, st.cwd + [crateName], c.state.fs);
    RunnableCompletes(f, 4, c.state, env);
  }

  /** What `Scaffolded` leaves at each path: the seven targets hold their
      texts (Cargo.toml its old contents and then the chunks, `.cargo` a
      directory) and every other path is as it was. */
  lemma ScaffoldedAt(fs: Fs, dir: Path, crateName: string, t: Texts)
    requires IsFile(fs, dir + CARGO_TOML)
    ensures var out := Scaffolded(fs, dir, crateName, t);
      out[dir + CARGO_TOML] == File(fs[dir + CARGO_TOML].content + Concat(t.cargo)) &&
      out[dir + MAKEFILE_TOML] == File(t.makefile) && out[dir + CARGO_DIR] == Dir &&
      out[dir + CONFIG_TOML] == File(t.config) && out[dir + BUILD_RS] == File(t.buildRs) &&
      out[dir + LIB_RS] == File(t.libRs) && out[dir + InxPath(crateName)] == File(t.inx)
    ensures var out := Scaffolded(fs, dir, crateName, t);
      forall q :: q !in {dir + CARGO_TOML, dir + MAKEFILE_TOML, dir + CARGO_DIR, dir + CONFIG_TOML,
                         dir + BUILD_RS, dir + LIB_RS, dir + InxPath(crateName)} ==>
        (q in out <==> q in fs) && (q in fs ==> out[q] == fs[q])
  {
    TargetsDistinct(dir, crateName);
  }

  lemma CargoChunks(addition: string, driverType: string)
    ensures Concat([addition, "\"" + driverType + "\"\n"]) == addition + "\"" + driverType + "\"\n"
  {
    var tail := "\"" + driverType + "\"\n";
    assert [addition, tail][1..] == [tail];
    ConcatOne(tail);
  }

  /** The texts the scaffold writes: Cargo.toml gains exactly the suffix
      naming the driver type; Makefile.toml, .cargo/config.toml, build.rs
      and src/lib.rs get their constants; `<name>.inx` the rendered INX
      template. */
  lemma TextsForContents(crateName: string, driverType: string)
    ensures var t := TextsFor(crateName, driverType);
      Concat(t.cargo) == CargoTomlSuffix(driverType) &&
      t.makefile == MAKEFILE_TOML_CONTENT && t.config == CONFIG_TOML_CONTENT &&
      t.buildRs == BUILD_RS_CONTENT && t.libRs == LIB_RS_CONTENT && t.inx == InxText(crateName)
  {
    CargoChunks(CARGO_TOML_ADDITION, driverType);
  }
}
