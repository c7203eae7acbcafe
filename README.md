# cargo-wix packaging core, modelled in Dafny

`cargo-wix` turns a Rust crate into a Windows Installer (MSI) package. It reads
`Cargo.toml` and takes the package's version, name, description, first author
and optional binary name from it. It then runs four external tools in a fixed
order: `cargo build --release`, the WiX compiler `candle`, the WiX linker
`light`, and, on request, `signtool`. The run stops at the first tool that
reports failure and returns a coded error.

This project models that core (all of it lives in `src/lib.rs`):

- `wrappers.dfy`, module `Wrappers`: `Option` and `Result`. `OkOr` and `UnwrapOr` stand for Rust's `ok_or` and `unwrap_or`.
- `errors.dfy`, module `Errors`: the eight-variant `Error`, with its exit codes, descriptions, display messages and causes.
- `platforms.dfy`, module `Platforms`: `Platform` and its two names. The host default takes the host architecture as a parameter.
- `manifest.dfy`, module `Manifest`: the parsed manifest as a value tree, and the ordered extraction of the required fields.
  `Unreadable`, `Unparsable` and `Parsed` stand for what opening, reading and parsing the file gave.
- `paths.dfy`, module `Paths`: paths as component sequences. It models `PathBuf::push`, `PathBuf::set_extension` with the standard library's file-stem rule, and the three artifact paths.
- `commands.dfy`, module `Commands`: the exact program names and argument lists of the four stages.
  It also reads a variable definition or a flag's value back out of an argument list.
- `pipeline.dfy`, module `Pipeline`: the `Wix` builder class and its `Run` method.
  Each stage's process outcome is an input: it could not be spawned, or it exited with success or failure.
  `Run` returns the result and the trace of commands it attempted. It is proved equal to `RunSpec`.
  `RunSpec` runs a generic, recursive `Sequence` over the planned stage list.

Two behaviours of the code are worth stating up front:

- A process that cannot be spawned or waited on is passed over. `.ok()` turns the error into `None` (src/lib.rs:260-274, and likewise for each later stage), so the run continues.
- The missing-field message reads `No '<field>' field found in the package's manifest (Cargo.toml)` (src/lib.rs:112).

## Model

| member | source | states |
|---|---|---|
| `Errors.Code` | src/lib.rs:67-78 | every error has an exit code between 1 and 8 |
| `Errors.CodeIdentifiesVariant` | src/lib.rs:61-78 | two errors have the same code exactly when they are the same variant, so codes can be used to compare errors |
| `Errors.Description` | src/lib.rs:82-93 | every error has a non-empty description |
| `Errors.DescriptionIdentifiesVariant` | src/lib.rs:82-93 | two descriptions are equal exactly when the errors are the same variant |
| `Errors.Message` | src/lib.rs:104-116 | a missing-field message is the fixed prefix, then the field name, then the fixed suffix; every other variant displays its payload unchanged |
| `Errors.ManifestMessageInjective` | src/lib.rs:112 | two missing-field messages are equal exactly when the field names are equal |
| `Errors.Cause` | src/lib.rs:95-101 | only `Io` (code 4) and `Toml` (code 8) have a cause, and it renders as the error's own message |
| `Platforms.Arch` | src/lib.rs:138-143 | the arch tag is "i686" for X86 and "x86_64" for X64, and it contains no '.' |
| `Platforms.Display` | src/lib.rs:146-153 | the short name is "x86" for X86 and "x64" for X64 |
| `Platforms.NamesIdentifyPlatform` | src/lib.rs:137-153 | each name determines the platform, and a platform's arch tag never equals any short name |
| `Platforms.Default` | src/lib.rs:155-162 | the platform is X64 exactly when the host is x86_64 |
| `Manifest.Extract` | src/lib.rs:197-231 | extraction can fail only with `Manifest(f)`, where `f` is one of version, name, description or authors |
| `Manifest.Load` | src/lib.rs:191-224 | a file that cannot be read gives `Io`, text that cannot be parsed gives `Toml`, and a parsed manifest gives exactly what field extraction gives |
| `Manifest.PresentMeansFound` | src/lib.rs:197-224 | the option-chained lookups find a field exactly when the manifest holds it with the right type |
| `Manifest.ExtractReportsFirstMissing` | src/lib.rs:197-224 | extraction fails with `Manifest(f)` exactly when `f` is the first unusable required field in the order version, name, description, authors |
| `Manifest.ExtractSucceedsWhenAllPresent` | src/lib.rs:197-231 | extraction succeeds exactly when all four required fields are usable; it then returns the manifest's own strings, and the binary name is `bin.name` or else the package name |
| `Manifest.MissingPackageReportsVersion` | src/lib.rs:197-202 | when `package` is missing or is not a table, the error is `Manifest("version")` |
| `Manifest.OnlyFirstAuthorMatters` | src/lib.rs:217-224 | the author is the first element of `authors`; the rest of the list plays no part |
| `Manifest.EmptyAuthorsIsMissing` | src/lib.rs:217-224 | an empty `authors` array is reported as `Manifest("authors")` |
| `Manifest.BinNameFallsBack` | src/lib.rs:226-231 | the binary name is `bin.name` when `bin` is a table with a string `name`, and the package name otherwise; it never fails |
| `Manifest.BinArrayIsIgnored` | src/lib.rs:226-231 | a `bin` given as an array is ignored, so the package name is used |
| `Paths.Push` | src/lib.rs:239-250 | pushing a name keeps the path and adds the name as its last component |
| `Paths.LastDot` | src/lib.rs:241 | gives the index of the last '.' in a name, or -1 when the name has none |
| `Paths.FileStem` | src/lib.rs:241 | the stem is a prefix of the name; it is shorter exactly when the name has a '.' after its first character, and then it ends right before the name's last '.' |
| `Paths.SetExtension` | src/lib.rs:241 | `set_extension` changes only the last component, keeps the number of components, and makes the last component its stem followed by '.' and the extension (just the stem for an empty extension) |
| `Paths.SetExtensionOfPlainName` | src/lib.rs:239-247 | on a name with no '.', `set_extension` appends '.' and the extension |
| `Paths.MsiName` | src/lib.rs:255 | the installer name is the package name, '-', the version unchanged, '-', the arch tag and ".msi" |
| `Paths.MsiPath` | src/lib.rs:249-255 | the installer is `target/wix/<MSI name>`; its last component is never `build` |
| `Paths.ArtifactPathsFromPushes` | src/lib.rs:239-255 | the pushes and `set_extension` calls give `wix/main.wxs`, `target/wix/build/main.wixobj` and `target/wix/<MSI name>` |
| `Paths.BuildArtifactPaths` | src/lib.rs:239-255 | building the three paths step by step, as the run does, yields exactly `wix/main.wxs`, `target/wix/build/main.wixobj` and the installer path |
| `Paths.StemOfJoin` | src/lib.rs:251-254 | when only the second of four joined parts has a '.', the stem of the whole ends right before that part's last '.' |
| `Paths.SetExtensionWouldCorruptVersion` | src/lib.rs:251-254 | when the version contains a '.', `set_extension("msi")` on `name-version-arch` gives `name-<version up to its last '.'>.msi`, dropping the last version part and the architecture, so it is never the installer path |
| `Commands.CompilerArgs` | src/lib.rs:283-291 | the compiler gets nine arguments: six definitions, then `-o`, the object path and the source path |
| `Commands.LinkerArgs` | src/lib.rs:307-312 | the linker gets six arguments: `-ext` reads `WixUIExtension`, the culture is `en-us`, the object path is fourth, and `-out` reads the installer path |
| `Commands.SignerArgs` | src/lib.rs:329-333 | the signing tool gets `sign /a` (any available certificate) followed by the installer path |
| `Commands.DefineNotShadowed` | src/lib.rs:283-288 | no variable's `-d<key>=` prefix matches another variable's argument, whatever its value |
| `Commands.CompilerSeesPackageInfo` | src/lib.rs:283-288 | reading the compiler's arguments back gives, for each variable, exactly the manifest string or the platform short name |
| `Commands.StageArtifactsChain` | src/lib.rs:283-312 | reading the flags back, the compiler's `-o` value is the object the linker links, and the linker's `-out` value is the installer path |
| `Commands.LinkerAndSignerFlags` | src/lib.rs:307-333 | read back, the linker's `-ext` value is `WixUIExtension` and it is given `-cultures:en-us`; the signing tool's `sign` is followed by `/a` |
| `Pipeline.Planned` | src/lib.rs:259-341 | the stages are build, compile, link, then sign; sign is planned exactly when signing is on |
| `Pipeline.StageError` | src/lib.rs:270-339 | a failed stage is reported with its own error variant: `Build`, `Compile`, `Link` or `Sign` |
| `Pipeline.Sequence` | src/lib.rs:259-342 | the stages invoked are a prefix of the plan; a failure is the error of the last stage invoked |
| `Pipeline.SequenceOkIffNoStageStops` | src/lib.rs:259-342 | the stages succeed exactly when no planned stage exits with failure; then every stage is invoked |
| `Pipeline.SequenceStopsAtFirstFailure` | src/lib.rs:259-342 | on failure, the last stage invoked exited with failure and every earlier one did not |
| `Pipeline.SpawnFailureIsIgnored` | src/lib.rs:260-274 | a stage whose process cannot be spawned counts the same as one that exited with success |
| `Pipeline.RunIgnoresSpawnFailure` | src/lib.rs:260-340 | the whole run is unchanged when a spawn failure is replaced by a successful exit |
| `Pipeline.ManifestFailureInvokesNothing` | src/lib.rs:190-224 | a manifest that cannot be read, parsed or used gives its error before any process is started |
| `Pipeline.BuildFailureStopsRun` | src/lib.rs:259-274 | a failed release build gives `Build`, and only `cargo` was started |
| `Pipeline.RunOkIff` | src/lib.rs:259-342 | a run succeeds exactly when the manifest is usable and no planned stage exits with failure; it then attempted every planned stage |
| `Pipeline.NoSigningWithoutSign` | src/lib.rs:321-341 | with signing off, `signtool` is never started and its outcome cannot change the run |
| `Pipeline.RunSpecStraightLine` | src/lib.rs:259-342 | written out case by case, the first stage that fails decides the error, and the trace holds exactly the commands up to it |
| `Pipeline.Wix.constructor` | src/lib.rs:171-176 | a new builder does not sign and captures output |
| `Pipeline.Wix.CaptureOutput` | src/lib.rs:178-181 | sets only the capture flag |
| `Pipeline.Wix.Sign` | src/lib.rs:183-186 | sets only the signing flag |
| `Pipeline.Wix.Run` | src/lib.rs:190-342 | given the manifest source and each process's outcome, `Run` returns the result and trace that `RunSpec` specifies |

## Left out

- `print_template` writes a bundled template file to standard output. That is I/O only.
- Opening and reading `Cargo.toml` and parsing it as TOML are foreign I/O and a foreign parser. They are the `ManifestSource` input; only how their failures map to `Io` and `Toml` is modelled.
- Spawning and waiting on `cargo`, `candle`, `light` and `signtool` are external processes. Each becomes a `Status` input, and the trace records the command that would be started.
- `capture_output` sends child output to the null sink. That effect is I/O. The model records it only as the `silenced` flag of each command.
- The `debug!` and `info!` logging calls are left out, because they are diagnostic output only.
- The `From` conversions, and the cause as an error object, are left out. `Io` and `Toml` payloads are modelled only by their rendered text.
- The compile-time `cfg!(target_arch = "x86_64")` check becomes a boolean parameter, because it depends on the build host.
- `Wix::default` is left out, because it only calls `Wix::new`, which the constructor models.
- TOML numbers, booleans and dates are all `Other`, and table key order is not modelled. Extraction looks only at strings, arrays and tables.
- Paths are component sequences. Separators and their rendering as OS strings are not modelled.
- `Paths.MsiPath`: the installer's file name is treated as one relative component pushed onto `target/wix`. A package name or version holding a separator, a root (`/opt/x`, `\x`) or a drive prefix (`C:x`) would make `PathBuf::push` replace or extend the directory; that is not modelled.
