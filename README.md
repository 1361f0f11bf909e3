# lorri build script, modelled in Dafny

lorri's cargo build script (`build.rs`) runs once per compilation. It does four things in order:

1. It prints three `cargo:rerun-if-…` directives.
2. It reads `BUILD_REV_COUNT` and parses it as a `usize`.
3. It writes `$OUT_DIR/build_rev.rs`. This file is a small Rust module with three constants:
   - `LORRI_VERSION = "{major}.{minor}"`
   - `VERSION_BUILD_REV = {rev_count}`
   - `RUN_TIME_CLOSURE = "{closure}"`
4. It calls the varlink binding generator on `src/com.target.lorri.varlink`.

If a variable is missing, if `BUILD_REV_COUNT` is not a `usize`, or if the write fails, the script panics. The build then stops.

The project has five modules:

- `Wrappers` (wrappers.dfy): `Option` and `Result`.
- `RustUsize` (usize.dfy): `str::parse::<usize>` and the `Display` of a `usize`.
  - `ParseUsize` follows Rust's digit loop. It accepts one optional `+`, then ASCII digits, and fails on overflow (checked multiply and checked add).
  - It is proved equal to a separate definition: optional `+`, one or more digits, and a value of at most `USIZE_MAX`. The value is the number the digits denote.
  - `DecimalText` is the canonical decimal. Its round trips with the parser are proved.
- `BuildRev` (build_rev.dfy): the `format!` template (`Render`) and its decoder (`ReadBack`).
  - The proved round trip shows that each value appears once, in its own constant, and can be read back.
- `BuildScript` (build_script.dfy): `main`.
  - `ReadInputs` is the environment validation, in Rust's evaluation order.
  - `Run` is a function from the environment and the host state to the outcome and the new host state. The host state is an effect log plus a map from paths to file contents.
  - `Host` is a class with the log and the file map as fields. `BuildMain` runs `main` step by step on a `Host`, with a panic as an early return of `Abort`. Its postcondition ties it to `Run`.
- `BuildScriptProperties` (build_script_properties.dfy): lemmas about `Run`.
  - which environments abort the run, and with which reason;
  - that an abort before the write leaves the files alone and does not call the generator;
  - exactly what text is written, and that it reads back;
  - that a second run is idempotent on files;
  - that variables the script does not read have no effect.

One might expect the version components to be parsed as integers and the closure path to be checked for being non-empty. The code does neither, and the model follows the code:

- The version components `CARGO_PKG_VERSION_MAJOR` and `CARGO_PKG_VERSION_MINOR` are never parsed as integers. Any string is embedded verbatim. `BuildRev.VerbatimVersionsCollide` shows a consequence: versions `1.2`/`3` and `1`/`2.3` render the same text. The read-back theorem therefore assumes digit-only versions, which is what cargo supplies.
- `RUN_TIME_CLOSURE` is not checked for being non-empty, nor for anything else.

Cargo does not care in which order the three directives come. The code prints them in a fixed order, and the model records that order.

## Model

| member | source | states |
|---|---|---|
| RustUsize.ParseUsize | build.rs:15-16 | a parsed `usize` never exceeds `USIZE_MAX` |
| RustUsize.Accumulate | build.rs:15-16 | the checked digit loop only grows its accumulator and never exceeds `USIZE_MAX` |
| RustUsize.AccumulateValue | build.rs:15-16 | the checked loop gives the value of all digits read so far. It fails exactly on a non-digit, or when that value exceeds `USIZE_MAX` |
| RustUsize.ParseUsizeSpec | build.rs:13-16 | `parse::<usize>` succeeds if and only if the text is an optional `+`, then one or more ASCII digits, with a value of at most `USIZE_MAX`; the result is that value. So empty, whitespace, `-` and overflow all fail |
| RustUsize.DecimalText | build.rs:27 | the rendered revision count is non-empty, all ASCII digits, and has no leading zero unless the number is 0 |
| RustUsize.ValueOfDecimalText | build.rs:27 | the rendered digits denote the number rendered |
| RustUsize.ParseDecimalText | build.rs:27 | round trip: the rendered text of any `usize` parses back to the same value |
| RustUsize.DecimalTextOfValue | build.rs:27 | every canonical digit string is the rendering of the number it denotes |
| RustUsize.ParsedThenDisplayed | build.rs:13-27 | the value written for an accepted `BUILD_REV_COUNT` is its digits without the `+` and without leading zeros |
| RustUsize.PlusAndLeadingZeros | build.rs:13-27 | `+007` is accepted, and 7 is written as `7` |
| BuildRev.Render | build.rs:21-40 | the fixed template with major, minor and closure inserted verbatim and the count as its canonical decimal: the text opens with `LORRI_VERSION` holding `major.minor`, ends with the closure path and the closing `";`, and each value adds exactly its own length (no escaping). ReadBackRender is its inverse |
| BuildRev.ReadBackRender | build.rs:21-40 | with digit-only versions and a `usize` revision count, the generated module reads back as exactly the four values: major, minor, count and closure, in their own constants |
| BuildRev.VerbatimVersionsCollide | build.rs:24-36 | version components are embedded verbatim, so versions `1.2`/`3` and `1`/`2.3` give the same text |
| BuildScript.OutputPath | build.rs:20 | the output path is `OUT_DIR` followed by `/build_rev.rs`; the join's special cases are listed under Left out |
| BuildScript.ReadInputs | build.rs:13-39 | on success, every field is the variable's own value, and the count is the parse of `BUILD_REV_COUNT`. An `unwrap` failure names an unset `OUT_DIR` or version variable |
| BuildScript.Run | build.rs:8-50 | the three directives always come first, even on an abort. The run succeeds if and only if the inputs validate, the write succeeds and the generator succeeds. It aborts without touching files or the generator exactly when it aborts for a reason other than a generator failure |
| BuildScript.BuildMain | build.rs:8-50 | running `main` on a host leaves the outcome and host state that `Run` gives; so the run is deterministic |
| BuildScript.Host.Println | build.rs:9-11 | a directive is appended to the log, and files are unchanged |
| BuildScript.Host.Write | build.rs:18-43 | a whole-file overwrite of one path. A failing write changes nothing |
| BuildScript.Host.CargoBuildToSource | build.rs:46-49 | the generator call is logged with its two arguments; the modelled files are unchanged |
| BuildScriptProperties.RevCountUnsetAborts | build.rs:13-14 | unset `BUILD_REV_COUNT` aborts with "BUILD_REV_COUNT not set, please reload nix-shell". Only the directives happen |
| BuildScriptProperties.RevCountMalformedAborts | build.rs:15-16 | a `BUILD_REV_COUNT` that is not a `usize` aborts with "BUILD_REV_COUNT should be parseable as usize". Only the directives happen |
| BuildScriptProperties.UnsetVariableAborts | build.rs:18-39 | an unset `OUT_DIR`, version variable or `RUN_TIME_CLOSURE` aborts before the write: no file changes and no generator call |
| BuildScriptProperties.ClosureUnsetAborts | build.rs:38-39 | with everything else valid, an unset `RUN_TIME_CLOSURE` aborts with "RUN_TIME_CLOSURE not set, please reload nix-shell" |
| BuildScriptProperties.ReadInputsSucceeds | build.rs:13-39 | validation passes if and only if all five variables are set and `BUILD_REV_COUNT` is a `usize` |
| BuildScriptProperties.WritesConstantsModule | build.rs:18-49 | on success, the only file changed is `$OUT_DIR/build_rev.rs`. It holds the template with the versions and closure verbatim and the count's value. The write comes before exactly one generator call, on the varlink file with rustfmt on |
| BuildScriptProperties.WriteFailureAborts | build.rs:18-43 | a failing write aborts, naming the path. Only the directives happen |
| BuildScriptProperties.WrittenModuleReadsBack | build.rs:18-43 | with digit-only versions, the written module reads back as the environment's versions, count and closure |
| BuildScriptProperties.RerunIsIdempotent | build.rs:8-50 | a second run with the same environment ends the same way and leaves every file byte-identical |
| BuildScriptProperties.OnlyReadVariablesMatter | build.rs:13-39 | environments that agree on the five variables give identical runs |
| BuildScriptProperties.ExampleBuild | build.rs:8-50 | `BUILD_REV_COUNT=142`, closure `/nix/store/abc-closure` and version 1.5 succeed, and write a module whose constants read back as `1`, `5`, 142 and the closure |

## Left out

- The width of `usize` is fixed at 64 bits (`USIZE_MAX` = 2^64 - 1). Other targets are not modelled.
- `ParseUsize` distinguishes success from failure. It does not model the error kinds of `ParseIntError` (invalid digit versus overflow).
- A panic is modelled as an `Abort` with a reason. Rust's panic text is not modelled:
  - `expect(msg)` appends `: {err:?}` to the script's message. `Reason.Expect` holds only the script's own message.
  - For the `unwrap`s of `env::var` (build.rs:20, 35, 36), the reason names the variable. For the `unwrap` of `fs::write` (build.rs:43), it names the path.
- `Path::join` is modelled as `OUT_DIR + "/build_rev.rs"`. A trailing `/` or an empty `OUT_DIR` are not treated specially.
- Real file-system I/O is not modelled. Whether `fs::write` fails is an input: the host's set of `readOnly` paths.
- The varlink generator (an external crate) is modelled only as a logged call with its two arguments, plus an input saying whether it fails. How it parses the interface file, what it generates and where it writes are not modelled.
- build.rs shows no failure path for the generator call: `cargo_build_tosource` returns `()`. `Abort(GeneratorFailed)` models a failure inside the external crate, which ends the process there.
- Environment values that are not Unicode make `env::var` fail. They are modelled as absent variables.
- How cargo interprets the directives is not modelled. Reading the environment has no effect, so "before any environment read" reduces to "before any write or generator call".
- Panic unwinding and the process exit are not modelled. An abort simply ends the run.
