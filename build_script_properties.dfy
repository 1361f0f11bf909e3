/**
 * What a run of the build script does, stated about Run: which
 * environments abort it and how, exactly what it writes when it does not,
 * and that running it again changes no file.
 */
module BuildScriptProperties {
  import opened Wrappers
  import opened RustUsize
  import opened BuildRev
  import opened BuildScript

  /** Every variable the script reads is set, and BUILD_REV_COUNT is a usize. */
  predicate WellConfigured(env: Env) {
    && BUILD_REV_COUNT in env && IsUsizeText(env[BUILD_REV_COUNT])
    && OUT_DIR in env && VERSION_MAJOR in env && VERSION_MINOR in env && RUN_TIME_CLOSURE in env
  }

  /** An unset BUILD_REV_COUNT aborts with its own message, after the directives and before anything else. */
  lemma RevCountUnsetAborts(env: Env, readOnly: set<string>, generatorFails: bool, s: HostState)
    requires BUILD_REV_COUNT !in env
    ensures Run(env, readOnly, generatorFails, s) == (Abort(Expect(REV_COUNT_NOT_SET)), AfterDirectives(s))
  {
  }

  /** A BUILD_REV_COUNT that is not a usize aborts with its own message, after the directives and before anything else. */
  lemma RevCountMalformedAborts(env: Env, readOnly: set<string>, generatorFails: bool, s: HostState)
    requires BUILD_REV_COUNT in env && !IsUsizeText(env[BUILD_REV_COUNT])
    ensures Run(env, readOnly, generatorFails, s) == (Abort(Expect(REV_COUNT_NOT_USIZE)), AfterDirectives(s))
  {
    ParseUsizeSpec(env[BUILD_REV_COUNT]);
  }

  /**
   * Any unset variable among OUT_DIR, the two version components and
   * RUN_TIME_CLOSURE aborts before the write: no file changes and the
   * generator is not called. The reason names an unset variable or is one
   * of the script's `expect` messages.
   */
  lemma UnsetVariableAborts(env: Env, readOnly: set<string>, generatorFails: bool, s: HostState, v: string)
    requires v in {OUT_DIR, VERSION_MAJOR, VERSION_MINOR, RUN_TIME_CLOSURE} && v !in env
    ensures Run(env, readOnly, generatorFails, s).1 == AfterDirectives(s)
    ensures var o := Run(env, readOnly, generatorFails, s).0;
            o.Abort? && (o.reason.Unwrap? ==> o.reason.variable !in env)
            && (o.reason.Expect? ==> o.reason.message in {REV_COUNT_NOT_SET, REV_COUNT_NOT_USIZE, CLOSURE_NOT_SET})
  {
  }

  /** With everything else in place, an unset RUN_TIME_CLOSURE aborts with its own message. */
  lemma ClosureUnsetAborts(env: Env, readOnly: set<string>, generatorFails: bool, s: HostState)
    requires BUILD_REV_COUNT in env && IsUsizeText(env[BUILD_REV_COUNT])
    requires OUT_DIR in env && VERSION_MAJOR in env && VERSION_MINOR in env
    requires RUN_TIME_CLOSURE !in env
    ensures Run(env, readOnly, generatorFails, s) == (Abort(Expect(CLOSURE_NOT_SET)), AfterDirectives(s))
  {
    ParseUsizeSpec(env[BUILD_REV_COUNT]);
  }

  /** The script gets past its environment checks exactly when it is well configured. */
  lemma ReadInputsSucceeds(env: Env)
    ensures ReadInputs(env).Success? <==> WellConfigured(env)
  {
    if BUILD_REV_COUNT in env {
      ParseUsizeSpec(env[BUILD_REV_COUNT]);
    }
  }

  /**
   * A well-configured run whose write succeeds writes exactly one file,
   * `$OUT_DIR/build_rev.rs`, holding the template with the version
   * components and the closure verbatim and the value of BUILD_REV_COUNT;
   * only then is the generator called, once, on the varlink file with
   * rustfmt on; the run succeeds unless the generator fails.
   */
  lemma WritesConstantsModule(env: Env, readOnly: set<string>, generatorFails: bool, s: HostState)
    requires WellConfigured(env)
    requires OutputPath(env[OUT_DIR]) !in readOnly
    ensures var path := OutputPath(env[OUT_DIR]);
            var r := Run(env, readOnly, generatorFails, s);
            && r.1.files == s.files[path := Render(env[VERSION_MAJOR], env[VERSION_MINOR],
                                                   Value(Digits(env[BUILD_REV_COUNT])), env[RUN_TIME_CLOSURE])]
            && r.1.log == s.log + Prints(RERUN_DIRECTIVES) + [Wrote(path), Generated(VARLINK_FILE, true)]
            && (r.0.Ok? <==> !generatorFails)
  {
    ParseUsizeSpec(env[BUILD_REV_COUNT]);
  }

  /** A well-configured run whose write fails aborts naming the path, and nothing but the directives happens. */
  lemma WriteFailureAborts(env: Env, readOnly: set<string>, generatorFails: bool, s: HostState)
    requires WellConfigured(env)
    requires OutputPath(env[OUT_DIR]) in readOnly
    ensures Run(env, readOnly, generatorFails, s) == (Abort(WriteFailed(OutputPath(env[OUT_DIR]))), AfterDirectives(s))
  {
    ParseUsizeSpec(env[BUILD_REV_COUNT]);
  }

  /**
   * When cargo supplies digit-only version components, the written module
   * reads back as exactly those components, the revision count the
   * environment denotes, and the closure path.
   */
  lemma WrittenModuleReadsBack(env: Env, readOnly: set<string>, generatorFails: bool, s: HostState)
    requires WellConfigured(env)
    requires OutputPath(env[OUT_DIR]) !in readOnly
    requires AllDigits(env[VERSION_MAJOR]) && AllDigits(env[VERSION_MINOR])
    ensures var path := OutputPath(env[OUT_DIR]);
            var files := Run(env, readOnly, generatorFails, s).1.files;
            path in files
            && ReadBack(files[path]) == Some(Constants(env[VERSION_MAJOR], env[VERSION_MINOR],
                                                       Value(Digits(env[BUILD_REV_COUNT])), env[RUN_TIME_CLOSURE]))
  {
    WritesConstantsModule(env, readOnly, generatorFails, s);
    ReadBackRender(env[VERSION_MAJOR], env[VERSION_MINOR], Value(Digits(env[BUILD_REV_COUNT])), env[RUN_TIME_CLOSURE]);
  }

  /**
   * Running the script again with the same environment on the same host
   * ends the same way and leaves every file as the first run left it.
   */
  lemma RerunIsIdempotent(env: Env, readOnly: set<string>, generatorFails: bool, s: HostState)
    ensures var first := Run(env, readOnly, generatorFails, s);
            var second := Run(env, readOnly, generatorFails, first.1);
            second.0 == first.0 && second.1.files == first.1.files
  {
  }

  /** Only the five variables the script reads matter; the rest of the environment does not. */
  lemma OnlyReadVariablesMatter(env: Env, env': Env, readOnly: set<string>, generatorFails: bool, s: HostState)
    requires forall v | v in {BUILD_REV_COUNT, OUT_DIR, VERSION_MAJOR, VERSION_MINOR, RUN_TIME_CLOSURE} ::
               (v in env <==> v in env') && (v in env ==> env[v] == env'[v])
    ensures Run(env, readOnly, generatorFails, s) == Run(env', readOnly, generatorFails, s)
  {
  }

  /**
   * BUILD_REV_COUNT "142", RUN_TIME_CLOSURE "/nix/store/abc-closure" and
   * version 1.5 write a module whose constants read back as "1", "5", 142
   * and the closure path.
   */
  lemma ExampleBuild(s: HostState)
    ensures var env := map[BUILD_REV_COUNT := "142", RUN_TIME_CLOSURE := "/nix/store/abc-closure",
                           VERSION_MAJOR := "1", VERSION_MINOR := "5", OUT_DIR := "/out"];
            var r := Run(env, {}, false, s);
            && r.0 == Ok
            && "/out/build_rev.rs" in r.1.files
            && ReadBack(r.1.files["/out/build_rev.rs"]) == Some(Constants("1", "5", 142, "/nix/store/abc-closure"))
  {
    var env := map[BUILD_REV_COUNT := "142", RUN_TIME_CLOSURE := "/nix/store/abc-closure",
                   VERSION_MAJOR := "1", VERSION_MINOR := "5", OUT_DIR := "/out"];
    assert IsUsizeText("142") && Value(Digits("142")) == 142 by {
      assert Digits("142") == "142";
      assert "142"[..2] == "14" && "14"[..1] == "1" && "1"[..0] == [];
    }
    assert WellConfigured(env);
    assert OutputPath(env[OUT_DIR]) == "/out/build_rev.rs";
    assert AllDigits(env[VERSION_MAJOR]) && AllDigits(env[VERSION_MINOR]);
    WritesConstantsModule(env, {}, false, s);
    WrittenModuleReadsBack(env, {}, false, s);
  }
}
