/** The scaffold as `main` performs it (src/main.rs:245-368): one statement
    after another, each changing the files or the working directory in
    place, and a panic at the first failure. Every method is proved to
    leave the state that the value-level semantics of module `Scaffold`
    gives for the same step or steps. */
module Executor {
  import opened Scaffold

  /** One step of `plan`, from the middle of a run: run step `i` (the
      `k`-th of the whole run), then the rest unless it failed. */
  lemma ExecuteFrom(plan: seq<Step>, i: nat, k: nat, st: State, env: Env)
    requires i < |plan|
    ensures Execute(plan[i..], k, st, env) == Then(Apply(plan[i], k, st, env), plan[i + 1..], k + 1, env)
  {
  }

  /** The files, the process's working directory, and the child processes
      attempted, including one that could not be launched. */
  class Disk {
    var fs: Fs
    var cwd: Path
    var issued: seq<Command>

    function Snapshot(): State
      reads this
    {
      State(fs, cwd, issued)
    }

    constructor (fs0: Fs, root: Path)
      ensures Snapshot() == State(fs0, root, [])
    {
      fs, cwd, issued := fs0, root, [];
    }

    /** `Command::new(..).args(..).status()` followed by
        `handle_process_output!` (src/main.rs:245-259). */
    method Spawn(cmd: Command, k: nat, env: Env) returns (failure: Option<Cause>)
      modifies this
      ensures Settle(k, failure, Snapshot()) == Launch(cmd, k, old(Snapshot()), env)
    {
      var e := env.run(cmd, cwd, fs);
      issued := issued + [cmd];
      match e {
        case LaunchError =>
          failure := Some(LaunchFailed);
        case Exited(code, after) =>
          fs := after;
          if code.None? {
            failure := Some(NoExitCode);
          } else if code.value != 0 {
            failure := Some(NonZeroExit(code.value));
          } else {
            failure := None;
          }
      }
    }

    /** `Command::new(..).args(..).status().unwrap()` (src/main.rs:378): only
        a failure to start the process matters, and what it does is not
        part of the model. */
    method SpawnUnchecked(cmd: Command, env: Env) returns (launched: bool)
      modifies this
      ensures launched <==> !env.run(cmd, old(cwd), old(fs)).LaunchError?
      ensures Snapshot() == old(Snapshot()).(issued := old(issued) + [cmd])
    {
      launched := !env.run(cmd, cwd, fs).LaunchError?;
      issued := issued + [cmd];
    }

    /** `set_current_dir(name)` (src/main.rs:263-268). */
    method SetCurrentDir(name: string, k: nat, env: Env) returns (failure: Option<Cause>)
      modifies this
      ensures Settle(k, failure, Snapshot()) == Enter(name, k, old(Snapshot()), env)
    {
      var p := cwd + [name];
      if IsDir(fs, p) && !Faulted(env, k, DirOp) {
        cwd := p;
        failure := None;
      } else {
        failure := Some(EnterFailed);
      }
    }

    /** `create_dir(dir)` (src/main.rs:312-313). */
    method CreateDirectory(dir: Path, k: nat, env: Env) returns (failure: Option<Cause>)
      modifies this
      ensures Settle(k, failure, Snapshot()) == CreateDir(dir, k, old(Snapshot()), env)
    {
      var p := cwd + dir;
      if p in fs {
        failure := Some(AlreadyExists);
      } else if p == [] || !IsDir(fs, Parent(p)) || Faulted(env, k, DirOp) {
        failure := Some(MakeDirFailed);
      } else {
        fs := fs[p := Dir];
        failure := None;
      }
    }

    /** Open `file` in `mode`, clear it when the mode says so, `write_all`
        each chunk in turn, then `sync_all` (src/main.rs:284-365). */
    method SaveFile(file: Path, mode: Mode, chunks: seq<string>, k: nat, env: Env) returns (failure: Option<Cause>)
      modifies this
      ensures Settle(k, failure, Snapshot()) == Write(file, mode, chunks, k, old(Snapshot()), env)
    {
      var p := cwd + file;
      if !CanOpen(fs, p, mode) || Faulted(env, k, OpenOp) {
        return Some(OpenFailed);
      }
      var content := if mode == AppendExisting then fs[p].content else [];
      ghost var base := content;
      fs := fs[p := File(content)];
      if mode == CreateCleared && Faulted(env, k, ClearOp) {
        return Some(ClearFailed);
      }
      var i := 0;
      while i < |chunks|
        invariant i <= |chunks|
        invariant fs == old(fs)[p := File(content)] && cwd == old(cwd) && issued == old(issued)
        invariant WriteAll(chunks, i, content, env, k) == WriteAll(chunks, 0, base, env, k)
      {
        if Faulted(env, k, WriteOp(i)) {
          return Some(WriteFailed);
        }
        content := content + chunks[i];
        fs := fs[p := File(content)];
        i := i + 1;
      }
      if Faulted(env, k, SyncOp) {
        return Some(SyncFailed);
      }
      failure := None;
    }

    /** The three `cargo` calls and the change of directory, in order
        (src/main.rs:261-273): steps 0 to 3 of the plan. */
    method RunCargo(crateName: string, vcsType: string, env: Env) returns (at: nat, failure: Option<Cause>)
      modifies this
      ensures Settle(at, failure, Snapshot()) == Execute(CommandSteps(crateName, vcsType), 0, old(Snapshot()), env)
    {
      ghost var c := CommandSteps(crateName, vcsType);
      assert c[0..] == c;
      ExecuteFrom(c, 0, 0, Snapshot(), env);
      at := 0;
      failure := Spawn(NewCommand(crateName, vcsType), 0, env);
      if failure.Some? {
        return;
      }
      ExecuteFrom(c, 1, 1, Snapshot(), env);
      at := 1;
      failure := SetCurrentDir(crateName, 1, env);
      if failure.Some? {
        return;
      }
      ExecuteFrom(c, 2, 2, Snapshot(), env);
      at := 2;
      failure := Spawn(ADD_BUILD_DEPENDENCY, 2, env);
      if failure.Some? {
        return;
      }
      ExecuteFrom(c, 3, 3, Snapshot(), env);
      at := 3;
      failure := Spawn(ADD_DEPENDENCIES, 3, env);
      if failure.Some? {
        return;
      }
      assert c[4..] == [];
      at := 4;
    }

    /** Cargo.toml, Makefile.toml and the `.cargo` directory, in order
        (src/main.rs:284-313): steps 4 to 6 of the plan. */
    method SetupManifests(crateName: string, t: Texts, env: Env) returns (at: nat, failure: Option<Cause>)
      modifies this
      ensures Settle(at, failure, Snapshot()) ==
        Execute(FileStepsFor(crateName, t)[..3], 4, old(Snapshot()), env)
    {
      ghost var f := FileStepsFor(crateName, t)[..3];
      assert f == [WriteFile(CARGO_TOML, AppendExisting, t.cargo), WriteFile(MAKEFILE_TOML, Create, [t.makefile]),
                   MakeDir(CARGO_DIR)];
      assert f[0..] == f;
      ExecuteFrom(f, 0, 4, Snapshot(), env);
      at := 4;
      failure := SaveFile(CARGO_TOML, AppendExisting, t.cargo, 4, env);
      if failure.Some? {
        return;
      }
      ExecuteFrom(f, 1, 5, Snapshot(), env);
      at := 5;
      failure := SaveFile(MAKEFILE_TOML, Create, [t.makefile], 5, env);
      if failure.Some? {
        return;
      }
      ExecuteFrom(f, 2, 6, Snapshot(), env);
      at := 6;
      failure := CreateDirectory(CARGO_DIR, 6, env);
      if failure.Some? {
        return;
      }
      assert f[3..] == [];
      at := 7;
    }

    /** .cargo/config.toml, build.rs, src/lib.rs and the INX file, in order
        (src/main.rs:314-368): steps 7 to 10 of the plan. */
    method SetupSources(crateName: string, t: Texts, env: Env) returns (at: nat, failure: Option<Cause>)
      modifies this
      ensures Settle(at, failure, Snapshot()) ==
        Execute(FileStepsFor(crateName, t)[3..], 7, old(Snapshot()), env)
    {
      ghost var f := FileStepsFor(crateName, t)[3..];
      assert f[0..] == f;
      ExecuteFrom(f, 0, 7, Snapshot(), env);
      at := 7;
      failure := SaveFile(CONFIG_TOML, Create, [t.config], 7, env);
      if failure.Some? {
        return;
      }
      ExecuteFrom(f, 1, 8, Snapshot(), env);
      at := 8;
      failure := SaveFile(BUILD_RS, Create, [t.buildRs], 8, env);
      if failure.Some? {
        return;
      }
      ExecuteFrom(f, 2, 9, Snapshot(), env);
      at := 9;
      failure := SaveFile(LIB_RS, CreateCleared, [t.libRs], 9, env);
      if failure.Some? {
        return;
      }
      ExecuteFrom(f, 3, 10, Snapshot(), env);
      at := 10;
      failure := SaveFile(InxPath(crateName), Create, [t.inx], 10, env);
      if failure.Some? {
        return;
      }
      assert f[4..] == [];
      at := 11;
    }

    /** The file and directory steps, in order (src/main.rs:284-368): steps
        4 to 10 of the plan, writing the texts `t`. */
    method WriteFiles(crateName: string, t: Texts, env: Env) returns (at: nat, failure: Option<Cause>)
      modifies this
      ensures Settle(at, failure, Snapshot()) == Execute(FileStepsFor(crateName, t), 4, old(Snapshot()), env)
    {
      ghost var f := FileStepsFor(crateName, t);
      assert f == f[..3] + f[3..];
      ExecuteAppend(f[..3], f[3..], 4, Snapshot(), env);
      at, failure := SetupManifests(crateName, t, env);
      if failure.Some? {
        return;
      }
      at, failure := SetupSources(crateName, t, env);
    }

    /** The whole scaffold, writing the texts `t`: the `cargo` steps and,
        only if they all succeeded, the file steps. */
    method Scaffold(crateName: string, vcsType: string, t: Texts, env: Env)
      returns (at: nat, failure: Option<Cause>)
      modifies this
      ensures Settle(at, failure, Snapshot()) == Execute(Steps(crateName, vcsType, t), 0, old(Snapshot()), env)
    {
      ExecuteAppend(CommandSteps(crateName, vcsType), FileStepsFor(crateName, t), 0, Snapshot(), env);
      at, failure := RunCargo(crateName, vcsType, env);
      if failure.Some? {
        return;
      }
      at, failure := WriteFiles(crateName, t, env);
    }
  }
}
