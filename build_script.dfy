/**
 * `main` of build.rs: print three rerun directives for cargo, read and
 * validate the environment, write `$OUT_DIR/build_rev.rs`, then run the
 * varlink binding generator. Every failure panics, which aborts the build.
 *
 * The run is specified by the function Run, from the environment and the
 * host's state before the run to the outcome and the state after it; the
 * method BuildMain performs the same steps one effect at a time on a Host.
 */
module BuildScript {
  import opened Wrappers
  import opened RustUsize
  import opened BuildRev

  /** The process environment; a variable that is unset or not Unicode is absent. */
  type Env = map<string, string>

  const BUILD_REV_COUNT: string := "BUILD_REV_COUNT"
  const RUN_TIME_CLOSURE: string := "RUN_TIME_CLOSURE"
  const OUT_DIR: string := "OUT_DIR"
  const VERSION_MAJOR: string := "CARGO_PKG_VERSION_MAJOR"
  const VERSION_MINOR: string := "CARGO_PKG_VERSION_MINOR"

  /** The lines printed first, in this order, for cargo to read. */
  const RERUN_DIRECTIVES: seq<string> := [
    "cargo:rerun-if-env-changed=BUILD_REV_COUNT",
    "cargo:rerun-if-env-changed=RUN_TIME_CLOSURE",
    "cargo:rerun-if-changed=build.rs"
  ]

  const REV_COUNT_NOT_SET: string := "BUILD_REV_COUNT not set, please reload nix-shell"
  const REV_COUNT_NOT_USIZE: string := "BUILD_REV_COUNT should be parseable as usize"
  const CLOSURE_NOT_SET: string := "RUN_TIME_CLOSURE not set, please reload nix-shell"

  /** The interface definition handed to the generator. */
  const VARLINK_FILE: string := "src/com.target.lorri.varlink"

  const OUTPUT_FILE: string := "build_rev.rs"

  /** `Path::new(out_dir).join("build_rev.rs")`: the output directory, a separator, then the file name. */
  function OutputPath(outDir: string): (r: string)
    ensures outDir <= r && r[|outDir|..] == "/" + OUTPUT_FILE
  {
    outDir + "/" + OUTPUT_FILE
  }

  /** Why a run aborted. */
  datatype Reason =
    | Expect(message: string)  // an `expect` failed; the message is the one the script gives
    | Unwrap(variable: string) // `env::var(variable).unwrap()` failed
    | WriteFailed(path: string) // `fs::write(path, ..).unwrap()` failed
    | GeneratorFailed          // the binding generator ended the process from inside its own crate

  datatype Outcome = Ok | Abort(reason: Reason)

  /** What the run does to the outside world, in order. */
  datatype Effect =
    | Printed(line: string)
    | Wrote(path: string)
    | Generated(varlinkFile: string, rustfmt: bool)

  /** The outside world: the effects so far, and the files by path. */
  datatype HostState = HostState(log: seq<Effect>, files: map<string, string>)

  /** The environment values the script uses, once validated. */
  datatype Inputs = Inputs(outDir: string, major: string, minor: string, revCount: nat, closure: string)

  function Prints(lines: seq<string>): (r: seq<Effect>)
    ensures |r| == |lines|
    ensures forall i :: 0 <= i < |lines| ==> r[i] == Printed(lines[i])
  {
    if lines == [] then [] else [Printed(lines[0])] + Prints(lines[1..])
  }

  /** The host state after the rerun directives and nothing else. */
  function AfterDirectives(s: HostState): (r: HostState)
    ensures r.files == s.files && |r.log| == |s.log| + |RERUN_DIRECTIVES|
    ensures r.log[..|s.log|] == s.log
    ensures forall i :: 0 <= i < |RERUN_DIRECTIVES| ==> r.log[|s.log| + i] == Printed(RERUN_DIRECTIVES[i])
  {
    s.(log := s.log + Prints(RERUN_DIRECTIVES))
  }

  /**
   * The environment reads of `main`, in the order Rust evaluates them:
   * BUILD_REV_COUNT and its parse, then the arguments of `fs::write` left to
   * right (OUT_DIR for the path, then the `format!` arguments).
   */
  function ReadInputs(env: Env): (r: Result<Inputs, Reason>)
    ensures r.Success? ==>
              && BUILD_REV_COUNT in env && ParseUsize(env[BUILD_REV_COUNT]) == Some(r.value.revCount)
              && OUT_DIR in env && r.value.outDir == env[OUT_DIR]
              && VERSION_MAJOR in env && r.value.major == env[VERSION_MAJOR]
              && VERSION_MINOR in env && r.value.minor == env[VERSION_MINOR]
              && RUN_TIME_CLOSURE in env && r.value.closure == env[RUN_TIME_CLOSURE]
    ensures r.Failure? && r.error.Unwrap? ==>
              r.error.variable in {OUT_DIR, VERSION_MAJOR, VERSION_MINOR} && r.error.variable !in env
    ensures r.Failure? ==> r.error.Expect? || r.error.Unwrap?
  {
    if BUILD_REV_COUNT !in env then Failure(Expect(REV_COUNT_NOT_SET))
    else
      match ParseUsize(env[BUILD_REV_COUNT])
      case None => Failure(Expect(REV_COUNT_NOT_USIZE))
      case Some(revCount) =>
        if OUT_DIR !in env then Failure(Unwrap(OUT_DIR))
        else if VERSION_MAJOR !in env then Failure(Unwrap(VERSION_MAJOR))
        else if VERSION_MINOR !in env then Failure(Unwrap(VERSION_MINOR))
        else if RUN_TIME_CLOSURE !in env then Failure(Expect(CLOSURE_NOT_SET))
        else Success(Inputs(env[OUT_DIR], env[VERSION_MAJOR], env[VERSION_MINOR], revCount, env[RUN_TIME_CLOSURE]))
  }

  /**
   * One run of `main` from state `s`. `readOnly` are the paths where
   * `fs::write` fails; `generatorFails` says whether the generator fails.
   */
  function Run(env: Env, readOnly: set<string>, generatorFails: bool, s: HostState): (r: (Outcome, HostState))
    ensures |r.1.log| >= |s.log| + |RERUN_DIRECTIVES|
    ensures r.1.log[..|s.log| + |RERUN_DIRECTIVES|] == s.log + Prints(RERUN_DIRECTIVES)
    ensures r.0.Ok? <==>
              ReadInputs(env).Success? && OutputPath(ReadInputs(env).value.outDir) !in readOnly && !generatorFails
    ensures (r.0.Abort? && !r.0.reason.GeneratorFailed?) <==> r.1 == AfterDirectives(s)
  {
    var printed := AfterDirectives(s);
    match ReadInputs(env)
    case Failure(reason) => (Abort(reason), printed)
    case Success(inputs) =>
      var path := OutputPath(inputs.outDir);
      if path in readOnly then (Abort(WriteFailed(path)), printed)
      else
        var contents := Render(inputs.major, inputs.minor, inputs.revCount, inputs.closure);
        var generated := HostState(
          printed.log + [Wrote(path), Generated(VARLINK_FILE, true)],
          printed.files[path := contents]);
        (if generatorFails then Abort(GeneratorFailed) else Ok, generated)
  }

  /** The host the script runs on: its output log and its file system. */
  class Host {
    var log: seq<Effect>
    var files: map<string, string>
    /** Paths where a write fails. */
    const readOnly: set<string>
    /** Whether the binding generator fails. */
    const generatorFails: bool

    constructor (files: map<string, string>, readOnly: set<string>, generatorFails: bool)
      ensures this.log == [] && this.files == files
      ensures this.readOnly == readOnly && this.generatorFails == generatorFails
    {
      this.log := [];
      this.files := files;
      this.readOnly := readOnly;
      this.generatorFails := generatorFails;
    }

    ghost function State(): HostState
      reads this
    {
      HostState(log, files)
    }

    /** `println!`. */
    method Println(line: string)
      modifies this
      ensures log == old(log) + [Printed(line)] && files == old(files)
    {
      log := log + [Printed(line)];
    }

    /** `fs::write`: replaces the whole file, or fails and changes nothing. */
    method Write(path: string, contents: string) returns (ok: bool)
      modifies this
      ensures ok <==> path !in readOnly
      ensures ok ==> log == old(log) + [Wrote(path)] && files == old(files)[path := contents]
      ensures !ok ==> log == old(log) && files == old(files)
    {
      ok := path !in readOnly;
      if ok {
        log := log + [Wrote(path)];
        files := files[path := contents];
      }
    }

    /** `varlink_generator::cargo_build_tosource`: logged; what it writes is not modelled. */
    method CargoBuildToSource(varlinkFile: string, rustfmt: bool) returns (ok: bool)
      modifies this
      ensures ok <==> !generatorFails
      ensures log == old(log) + [Generated(varlinkFile, rustfmt)] && files == old(files)
    {
      log := log + [Generated(varlinkFile, rustfmt)];
      ok := !generatorFails;
    }
  }

  /** `main`, step by step, with a panic as an early return of Abort. */
  method BuildMain(env: Env, host: Host) returns (outcome: Outcome)
    modifies host
    ensures (outcome, host.State()) == Run(env, host.readOnly, host.generatorFails, old(host.State()))
  {
    host.Println("cargo:rerun-if-env-changed=BUILD_REV_COUNT");
    host.Println("cargo:rerun-if-env-changed=RUN_TIME_CLOSURE");
    host.Println("cargo:rerun-if-changed=build.rs");
    assert host.log == old(host.log) + Prints(RERUN_DIRECTIVES);

    if BUILD_REV_COUNT !in env {
      return Abort(Expect(REV_COUNT_NOT_SET));
    }
    var parsed := ParseUsize(env[BUILD_REV_COUNT]);
    if parsed.None? {
      return Abort(Expect(REV_COUNT_NOT_USIZE));
    }
    var revCount := parsed.value;

    if OUT_DIR !in env {
      return Abort(Unwrap(OUT_DIR));
    }
    var path := OutputPath(env[OUT_DIR]);
    if VERSION_MAJOR !in env {
      return Abort(Unwrap(VERSION_MAJOR));
    }
    if VERSION_MINOR !in env {
      return Abort(Unwrap(VERSION_MINOR));
    }
    if RUN_TIME_CLOSURE !in env {
      return Abort(Expect(CLOSURE_NOT_SET));
    }
    var contents := Render(env[VERSION_MAJOR], env[VERSION_MINOR], revCount, env[RUN_TIME_CLOSURE]);
    var written := host.Write(path, contents);
    if !written {
      return Abort(WriteFailed(path));
    }

    var generated := host.CargoBuildToSource(VARLINK_FILE, true);
    assert host.log == old(host.log) + Prints(RERUN_DIRECTIVES) + [Wrote(path), Generated(VARLINK_FILE, true)];
    if !generated {
      return Abort(GeneratorFailed);
    }
    return Ok;
  }
}
