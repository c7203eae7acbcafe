/** The packaging pipeline: the `Wix` builder and its run over the four
    external stages, with the outcome of each external process as input. */
module Pipeline {
  import opened Wrappers
  import opened Errors
  import opened Platforms
  import opened Paths
  import opened Manifest
  import opened Commands

  datatype Stage = BuildStage | CompileStage | LinkStage | SignStage

  /** What waiting on a stage's process gave: no status at all (the process
      could not be spawned or waited on), or an exit status. */
  datatype Status = SpawnFailed | Exited(success: bool)

  /** The status each stage's process would give if it were run. */
  datatype Statuses = Statuses(build: Status, compile: Status, link: Status, sign: Status)

  function StatusOf(st: Statuses, s: Stage): Status
  {
    match s
    case BuildStage => st.build
    case CompileStage => st.compile
    case LinkStage => st.link
    case SignStage => st.sign
  }

  /** `st` with the status of stage `s` replaced by `v`. */
  function WithStatus(st: Statuses, s: Stage, v: Status): (r: Statuses)
    ensures StatusOf(r, s) == v
    ensures forall t :: t != s ==> StatusOf(r, t) == StatusOf(st, t)
  {
    match s
    case BuildStage => st.(build := v)
    case CompileStage => st.(compile := v)
    case LinkStage => st.(link := v)
    case SignStage => st.(sign := v)
  }

  /** A stage stops the pipeline only when its exit status was obtained and
      reports failure. */
  predicate Stops(status: Status)
  {
    status.Exited? && !status.success
  }

  /** The stages to run, in order: signing only when it was asked for. */
  function Planned(sign: bool): (stages: seq<Stage>)
    ensures |stages| == if sign then 4 else 3
    ensures stages[..3] == [BuildStage, CompileStage, LinkStage]
    ensures SignStage in stages <==> sign
  {
    if sign then [BuildStage, CompileStage, LinkStage, SignStage] else [BuildStage, CompileStage, LinkStage]
  }

  /** The error a failed stage is reported with. */
  function StageError(s: Stage): (e: Error)
    ensures Code(e) in {1, 2, 5, 7}
    ensures e.Build? <==> s == BuildStage
    ensures e.Compile? <==> s == CompileStage
    ensures e.Link? <==> s == LinkStage
    ensures e.Sign? <==> s == SignStage
  {
    match s
    case BuildStage => Build("Failed to build the release executable")
    case CompileStage => Compile("Failed to compile the installer")
    case LinkStage => Link("Failed to link the installer")
    case SignStage => Sign("Failed to sign the installer")
  }

  /** The result of a sequence of stages and the stages actually invoked. */
  datatype StageRun = StageRun(result: Result<(), Error>, invoked: seq<Stage>)

  /** Runs `stages` in order, stopping at the first one that stops. The
      stages invoked are a prefix of the plan; a failure is reported with the
      error of the last stage invoked. */
  function Sequence(stages: seq<Stage>, st: Statuses): (run: StageRun)
    ensures run.invoked <= stages
    ensures run.result.Err? ==> run.invoked != [] && run.result.error == StageError(run.invoked[|run.invoked| - 1])
    decreases |stages|
  {
    if stages == [] then StageRun(Ok(()), [])
    else if Stops(StatusOf(st, stages[0])) then StageRun(Err(StageError(stages[0])), [stages[0]])
    else
      var rest := Sequence(stages[1..], st);
      StageRun(rest.result, [stages[0]] + rest.invoked)
  }

  /** The sequence succeeds exactly when no stage of the plan stops, and it
      then invokes every stage. */
  lemma {:induction false} SequenceOkIffNoStageStops(stages: seq<Stage>, st: Statuses)
    ensures Sequence(stages, st).result.Ok? <==> forall i :: 0 <= i < |stages| ==> !Stops(StatusOf(st, stages[i]))
    ensures Sequence(stages, st).result.Ok? ==> Sequence(stages, st) == StageRun(Ok(()), stages)
    decreases |stages|
  {
    if stages != [] && !Stops(StatusOf(st, stages[0])) {
      SequenceOkIffNoStageStops(stages[1..], st);
      assert forall i :: 1 <= i < |stages| ==> stages[i] == stages[1..][i - 1];
    }
  }

  /** On failure, the last stage invoked is the first that stopped: every
      stage before it went on, and no stage after it was invoked. */
  lemma {:induction false} SequenceStopsAtFirstFailure(stages: seq<Stage>, st: Statuses)
    ensures var run := Sequence(stages, st);
            run.result.Err? ==>
              && Stops(StatusOf(st, run.invoked[|run.invoked| - 1]))
              && forall j :: 0 <= j < |run.invoked| - 1 ==> !Stops(StatusOf(st, run.invoked[j]))
    decreases |stages|
  {
    if stages != [] && !Stops(StatusOf(st, stages[0])) {
      SequenceStopsAtFirstFailure(stages[1..], st);
    }
  }

  /** A stage whose process could not be spawned is passed over as if it had
      succeeded: the run is the same either way. */
  lemma {:induction false} SpawnFailureIsIgnored(stages: seq<Stage>, st: Statuses, s: Stage)
    requires StatusOf(st, s) == SpawnFailed
    ensures Sequence(stages, st) == Sequence(stages, WithStatus(st, s, Exited(true)))
    decreases |stages|
  {
    if stages != [] {
      SpawnFailureIsIgnored(stages[1..], st, s);
    }
  }

  /** The command a stage runs, given the package data, the platform, the
      three artifact paths and whether output is captured. */
  function CommandFor(s: Stage, info: PackageInfo, p: Platform, wxs: Path, wixobj: Path, msi: Path, capture: bool): Command
  {
    match s
    case BuildStage => Command(Cargo, BuildArgs, capture)
    case CompileStage => Command(Compiler, CompilerArgs(info, p, wixobj, wxs), capture)
    case LinkStage => Command(Linker, LinkerArgs(wixobj, msi), capture)
    case SignStage => Command(SignTool, SignerArgs(msi), capture)
  }

  /** The commands of `stages`, in order. */
  function CommandsFor(stages: seq<Stage>, info: PackageInfo, p: Platform, capture: bool): (cs: seq<Command>)
    ensures |cs| == |stages|
    ensures forall i :: 0 <= i < |stages| ==>
              cs[i] == CommandFor(stages[i], info, p, WxsPath, WixobjPath, MsiPath(info.name, info.version, p), capture)
  {
    seq(|stages|, i requires 0 <= i < |stages| =>
      CommandFor(stages[i], info, p, WxsPath, WixobjPath, MsiPath(info.name, info.version, p), capture))
  }

  /** The outcome of a whole run: its result and the commands it invoked. */
  datatype Outcome = Outcome(result: Result<(), Error>, trace: seq<Command>)

  /** What a run does: read the manifest (invoking nothing when that fails),
      then run the planned stages on the host's platform. */
  function RunSpec(sign: bool, capture: bool, src: ManifestSource, hostIsX86_64: bool, st: Statuses): Outcome
  {
    match Load(src)
    case Err(e) => Outcome(Err(e), [])
    case Ok(info) =>
      var run := Sequence(Planned(sign), st);
      Outcome(run.result, CommandsFor(run.invoked, info, Default(hostIsX86_64), capture))
  }

  /** A manifest that cannot be read, parsed or used stops the run before
      any process is started. */
  lemma ManifestFailureInvokesNothing(sign: bool, capture: bool, src: ManifestSource, hostIsX86_64: bool, st: Statuses)
    requires Load(src).Err?
    ensures RunSpec(sign, capture, src, hostIsX86_64, st) == Outcome(Err(Load(src).error), [])
  {
  }

  /** A failed release build is reported as `Build`, and only the build was
      invoked: no compiler, linker or signing tool runs. */
  lemma BuildFailureStopsRun(sign: bool, capture: bool, src: ManifestSource, hostIsX86_64: bool, st: Statuses)
    requires Load(src).Ok? && Stops(st.build)
    ensures var o := RunSpec(sign, capture, src, hostIsX86_64, st);
            && o.result.Err? && o.result.error.Build?
            && |o.trace| == 1 && o.trace[0].program == Cargo
  {
  }

  /** A run succeeds exactly when the manifest is usable and no planned
      stage's process reports failure; it then invokes every planned stage. */
  lemma RunOkIff(sign: bool, capture: bool, src: ManifestSource, hostIsX86_64: bool, st: Statuses)
    ensures var o := RunSpec(sign, capture, src, hostIsX86_64, st);
            && (o.result.Ok? <==>
                  && Load(src).Ok?
                  && !Stops(st.build) && !Stops(st.compile) && !Stops(st.link)
                  && (sign ==> !Stops(st.sign)))
            && (o.result.Ok? ==> |o.trace| == |Planned(sign)|)
  {
    if Load(src).Ok? {
      RunSpecStraightLine(sign, capture, src, hostIsX86_64, st);
    }
  }

  /** Without signing, the signing tool is never invoked, and the run does
      not depend on what the signing tool would have done. */
  lemma NoSigningWithoutSign(capture: bool, src: ManifestSource, hostIsX86_64: bool, st: Statuses, signStatus: Status)
    ensures forall c :: c in RunSpec(false, capture, src, hostIsX86_64, st).trace ==> c.program != SignTool
    ensures RunSpec(false, capture, src, hostIsX86_64, st) == RunSpec(false, capture, src, hostIsX86_64, st.(sign := signStatus))
  {
    if Load(src).Ok? {
      RunSpecStraightLine(false, capture, src, hostIsX86_64, st);
      RunSpecStraightLine(false, capture, src, hostIsX86_64, st.(sign := signStatus));
    }
  }

  /** A process that could not be spawned does not stop the run: the run is
      the same as if that process had exited successfully. */
  lemma RunIgnoresSpawnFailure(sign: bool, capture: bool, src: ManifestSource, hostIsX86_64: bool, st: Statuses, s: Stage)
    requires StatusOf(st, s) == SpawnFailed
    ensures RunSpec(sign, capture, src, hostIsX86_64, st)
         == RunSpec(sign, capture, src, hostIsX86_64, WithStatus(st, s, Exited(true)))
  {
    SpawnFailureIsIgnored(Planned(sign), st, s);
  }

  /** When stage `k` is the first of the plan to stop, the sequence fails
      with its error after invoking exactly the stages up to it. */
  lemma {:induction false} SequenceStopsAt(stages: seq<Stage>, st: Statuses, k: nat)
    requires k < |stages| && Stops(StatusOf(st, stages[k]))
    requires forall j :: 0 <= j < k ==> !Stops(StatusOf(st, stages[j]))
    ensures Sequence(stages, st) == StageRun(Err(StageError(stages[k])), stages[..k + 1])
    decreases k
  {
    if k > 0 {
      SequenceStopsAt(stages[1..], st, k - 1);
      assert [stages[0]] + stages[1..][..k] == stages[..k + 1];
    }
  }

  /** The command of stage `s` on the artifact paths. */
  function StageCommand(s: Stage, info: PackageInfo, p: Platform, capture: bool): Command
  {
    CommandFor(s, info, p, WxsPath, WixobjPath, MsiPath(info.name, info.version, p), capture)
  }

  /** The commands the run writes out, on the artifact paths, are the
      commands of the stages. */
  lemma StageCommandsOnArtifactPaths(info: PackageInfo, p: Platform, capture: bool)
    ensures Command(Cargo, [Text("build"), Text("--release")], capture) == StageCommand(BuildStage, info, p, capture)
    ensures Command(Compiler, CompilerArgs(info, p, WixobjPath, WxsPath), capture) == StageCommand(CompileStage, info, p, capture)
    ensures var msi := MsiPath(info.name, info.version, p);
            && Command(Linker, LinkerArgs(WixobjPath, msi), capture) == StageCommand(LinkStage, info, p, capture)
            && Command(SignTool, SignerArgs(msi), capture) == StageCommand(SignStage, info, p, capture)
  {
  }

  /** The commands of the first `k + 1` planned stages, one appended after
      the other. */
  lemma CommandsOfPlanPrefix(sign: bool, info: PackageInfo, p: Platform, capture: bool, k: nat)
    requires k < |Planned(sign)|
    ensures CommandsFor(Planned(sign)[..k + 1], info, p, capture) == PlanPrefixCommands(k, info, p, capture)
  {
  }

  /** The commands of the first `k + 1` of the four stages, appended one by one. */
  function PlanPrefixCommands(k: nat, info: PackageInfo, p: Platform, capture: bool): seq<Command>
  {
    var b, c, l, s := StageCommand(BuildStage, info, p, capture), StageCommand(CompileStage, info, p, capture),
                      StageCommand(LinkStage, info, p, capture), StageCommand(SignStage, info, p, capture);
    if k == 0 then [b] else if k == 1 then [b] + [c] else if k == 2 then [b] + [c] + [l] else [b] + [c] + [l] + [s]
  }

  /** A run whose manifest is usable fails at the first planned stage that
      stops, with that stage's error, after starting the commands of the
      stages up to it. */
  lemma RunSpecStopsAt(sign: bool, capture: bool, src: ManifestSource, hostIsX86_64: bool, st: Statuses, k: nat)
    requires Load(src).Ok? && k < |Planned(sign)|
    requires Stops(StatusOf(st, Planned(sign)[k]))
    requires forall j :: 0 <= j < k ==> !Stops(StatusOf(st, Planned(sign)[j]))
    ensures RunSpec(sign, capture, src, hostIsX86_64, st)
         == Outcome(Err(StageError(Planned(sign)[k])), PlanPrefixCommands(k, Load(src).value, Default(hostIsX86_64), capture))
  {
    SequenceStopsAt(Planned(sign), st, k);
    CommandsOfPlanPrefix(sign, Load(src).value, Default(hostIsX86_64), capture, k);
  }

  /** A run whose manifest is usable and none of whose planned stages stops
      succeeds after starting the commands of all of them. */
  lemma RunSpecCompletes(sign: bool, capture: bool, src: ManifestSource, hostIsX86_64: bool, st: Statuses)
    requires Load(src).Ok?
    requires forall j :: 0 <= j < |Planned(sign)| ==> !Stops(StatusOf(st, Planned(sign)[j]))
    ensures RunSpec(sign, capture, src, hostIsX86_64, st)
         == Outcome(Ok(()), PlanPrefixCommands(|Planned(sign)| - 1, Load(src).value, Default(hostIsX86_64), capture))
  {
    var plan := Planned(sign);
    SequenceOkIffNoStageStops(plan, st);
    CommandsOfPlanPrefix(sign, Load(src).value, Default(hostIsX86_64), capture, |plan| - 1);
    assert plan[..|plan|] == plan;
  }

  /** The run of the four planned stages written out case by case: each
      stage is started only when no earlier one stopped, and the first one
      that stops decides the error. */
  lemma RunSpecStraightLine(sign: bool, capture: bool, src: ManifestSource, hostIsX86_64: bool, st: Statuses)
    requires Load(src).Ok?
    ensures var info, p := Load(src).value, Default(hostIsX86_64);
            var b, c, l, s := StageCommand(BuildStage, info, p, capture), StageCommand(CompileStage, info, p, capture),
                              StageCommand(LinkStage, info, p, capture), StageCommand(SignStage, info, p, capture);
            RunSpec(sign, capture, src, hostIsX86_64, st) ==
              if Stops(st.build) then Outcome(Err(StageError(BuildStage)), [b])
              else if Stops(st.compile) then Outcome(Err(StageError(CompileStage)), [b] + [c])
              else if Stops(st.link) then Outcome(Err(StageError(LinkStage)), [b] + [c] + [l])
              else if sign && Stops(st.sign) then Outcome(Err(StageError(SignStage)), [b] + [c] + [l] + [s])
              else Outcome(Ok(()), if sign then [b] + [c] + [l] + [s] else [b] + [c] + [l])
  {
    if Stops(st.build) {
      RunSpecStopsAt(sign, capture, src, hostIsX86_64, st, 0);
    } else if Stops(st.compile) {
      RunSpecStopsAt(sign, capture, src, hostIsX86_64, st, 1);
    } else if Stops(st.link) {
      RunSpecStopsAt(sign, capture, src, hostIsX86_64, st, 2);
    } else if sign && Stops(st.sign) {
      RunSpecStopsAt(sign, capture, src, hostIsX86_64, st, 3);
    } else {
      RunSpecCompletes(sign, capture, src, hostIsX86_64, st);
    }
  }

  /** The packager: two options and the run that uses them. */
  class Wix {
    /** Whether the signing stage runs. */
    var sign: bool
    /** Whether the child processes' output is sent to the null sink. */
    var captureOutput: bool

    /** The defaults: no signing, output captured. */
    constructor ()
      ensures !sign && captureOutput
    {
      sign := false;
      captureOutput := true;
    }

    /** Sets whether output is captured, and nothing else. */
    method CaptureOutput(c: bool)
      modifies this
      ensures captureOutput == c && sign == old(sign)
    {
      captureOutput := c;
    }

    /** Sets whether the installer is signed, and nothing else. */
    method Sign(s: bool)
      modifies this
      ensures sign == s && captureOutput == old(captureOutput)
    {
      sign := s;
    }

    /** Reads the manifest, builds the paths step by step, then builds,
        compiles, links and possibly signs, returning at the first stage
        whose process reports failure. The trace lists the commands attempted. */
    method Run(src: ManifestSource, hostIsX86_64: bool, st: Statuses) returns (result: Result<(), Error>, trace: seq<Command>)
      ensures Outcome(result, trace) == RunSpec(sign, captureOutput, src, hostIsX86_64, st)
    {
      var loaded := Load(src);
      if loaded.Err? {
        return Err(loaded.error), [];
      }
      var info := loaded.value;
      var platform := Default(hostIsX86_64);

      var mainWxs, mainWixobj, mainMsi := BuildArtifactPaths(info.name, info.version, platform);

      RunSpecStraightLine(sign, captureOutput, src, hostIsX86_64, st);
      var build := Command(Cargo, [Text("build"), Text("--release")], captureOutput);
      var compile := Command(Compiler, CompilerArgs(info, platform, mainWixobj, mainWxs), captureOutput);
      var link := Command(Linker, LinkerArgs(mainWixobj, mainMsi), captureOutput);
      var signing := Command(SignTool, SignerArgs(mainMsi), captureOutput);
      StageCommandsOnArtifactPaths(info, platform, captureOutput);

      trace := [build];
      var status := st.build;
      if status.Exited? && !status.success {
        return Err(Build("Failed to build the release executable")), trace;
      }

      trace := trace + [compile];
      status := st.compile;
      if status.Exited? && !status.success {
        return Err(Compile("Failed to compile the installer")), trace;
      }

      trace := trace + [link];
      status := st.link;
      if status.Exited? && !status.success {
        return Err(Link("Failed to link the installer")), trace;
      }

      if sign {
        trace := trace + [signing];
        status := st.sign;
        if status.Exited? && !status.success {
          return Err(Errors.Sign("Failed to sign the installer")), trace;
        }
      }
      result := Ok(());
    }
  }
}
