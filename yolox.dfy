/**
 * The `Yolox` operations: install, zoo, demo, convert and inference. Each checks
 * that the toolkit checkout and its virtual environment exist, issues a fixed
 * sequence of shell commands, and stops at the first non-zero return code.
 * The shell is a `Host`: an oracle of return codes and a log of issued steps.
 */
module Yolox {
  import opened Wrappers
  import opened Values
  import opened Common
  import Decimal
  import Paths

  /** `Path('./YOLOX')`, the toolkit checkout every command but the clone runs in. */
  const ToolkitDir := Paths.PurePath(Paths.NoRoot, ["YOLOX"])
  /** `cwd / 'YOLOX_outputs'`, where the demo script saves its pictures. */
  const DemoOutputs := Paths.PurePath(Paths.NoRoot, ["YOLOX", "YOLOX_outputs"])

  const ZooSite := "https://github.com/Megvii-BaseDetection/YOLOX/#benchmark"
  const NotInstalled := "YOLOX is not installed. Run the command 'pth2onnx -m yolox -c install -f'."
  const InstallSucceeded := "Install successed."

  function FailedMessage(phase: string, code: int): string
  {
    phase + " failed. returncode=" + Decimal.IntToString(code)
  }

  /** An error message names its return code: two codes never give the same message. */
  lemma FailedMessageNamesCode(phase: string, a: int, b: int)
    ensures FailedMessage(phase, a) == FailedMessage(phase, b) ==> a == b
  {
    var prefix := phase + " failed. returncode=";
    if FailedMessage(phase, a) == FailedMessage(phase, b) {
      assert FailedMessage(phase, a)[|prefix|..] == Decimal.IntToString(a);
      assert FailedMessage(phase, b)[|prefix|..] == Decimal.IntToString(b);
      Decimal.IntToStringInjective(a, b);
    }
  }

  // ---------------------------------------------------------------------------
  // Commands

  /** One shell command an operation issues, with the text interpolated into it. */
  datatype Step =
    | Clone
    | CreateVenv(python: string)
    | UpgradePip
    | InstallRequirements(pip: string)
    | InstallOnnxRuntime(pip: string)
    | InstallEditable(pip: string)
    | RunDemo(python: string, model: string, weight: string, image: string, conf: string, nms: string, size: string)
    | ExportOnnx(python: string, model: string, weight: string, output: string)
    | RunOnnxInference(python: string, onnx: string, image: string, outputDir: string, score: string, size: string)

  /** The working directory a step runs in: the clone in ".", everything else in the checkout. */
  function WorkDir(step: Step): Paths.PurePath
  {
    if step.Clone? then Paths.PurePath(Paths.NoRoot, []) else ToolkitDir
  }

  /** The activation prefix: install sources `bin/activate`; the other operations name `Scripts/activate`. */
  function Activation(windows: bool, installing: bool): string
  {
    if windows then ".venv\\Scripts\\activate.bat"
    else if installing then ". .venv/bin/activate"
    else ".venv/Scripts/activate"
  }

  /** Every step but the clone and the creation of the environment runs inside the environment. */
  predicate InsideEnvironment(step: Step) { !step.Clone? && !step.CreateVenv? }

  /** The pip commands of install. */
  predicate PackageStep(step: Step)
  {
    step.UpgradePip? || step.InstallRequirements? || step.InstallOnnxRuntime? || step.InstallEditable?
  }

  /** The command a step runs, after the environment's activation where there is one. */
  function Invocation(step: Step): string
  {
    match step
    case Clone => "git clone https://github.com/Megvii-BaseDetection/YOLOX"
    case CreateVenv(py) => py + " -m venv .venv"
    case UpgradePip => "python -m pip install --upgrade pip"
    case InstallRequirements(pip) => pip + " install -r requirements.txt"
    case InstallOnnxRuntime(pip) => pip + " install onnxruntime"
    case InstallEditable(pip) => pip + " install -v -e ."
    case RunDemo(py, model, weight, image, conf, nms, size) =>
      py + " tools/demo.py image -n " + model + " -c " + weight + " --path " + image
      + " --conf " + conf + " --nms " + nms + " --tsize " + size + " --save_result --device [cpu/gpu]"
    case ExportOnnx(py, model, weight, output) =>
      py + " tools/export_onnx.py -n " + model + " -c " + weight + " --output-name " + output + " --no-onnxsim"
    case RunOnnxInference(py, onnx, image, outputDir, score, size) =>
      py + " demo/ONNXRuntime/onnx_inference.py -m " + onnx + " --image_path " + image
      + " --output_dir " + outputDir + " --score_thr " + score + " --input_shape " + size + "," + size
  }

  /**
   * The command line a logged step stands for. The host logs the step itself, not
   * this text; a step and its platform determine the text.
   */
  function CommandLine(step: Step, windows: bool): string
  {
    if InsideEnvironment(step) then Activation(windows, PackageStep(step)) + " && " + Invocation(step)
    else Invocation(step)
  }

  // ---------------------------------------------------------------------------
  // The outside world

  /**
   * What the operations observe: the platform, whether `./YOLOX` and
   * `./YOLOX/.venv` exist when checked, the return code of the n-th command issued,
   * and which JPEG files a recursive glob lists under a directory.
   */
  datatype Env = Env(
    windows: bool,
    toolkitPresent: bool,
    venvPresent: bool,
    exitCode: nat -> int,
    jpgs: Paths.PurePath -> seq<FileStat>)

  predicate Installed(env: Env) { env.toolkitPresent && env.venvPresent }

  /**
   * The command runner (`common.cmd`): it logs every step it is given, which stands for
   * `CommandLine(step, env.windows)` run in `WorkDir(step)`, and returns the oracle's code.
   */
  class Host {
    const env: Env
    var issued: seq<Step>

    constructor (env: Env)
      ensures this.env == env && issued == []
    {
      this.env := env;
      issued := [];
    }

    method Run(step: Step) returns (rc: int)
      modifies this
      ensures issued == old(issued) + [step]
      ensures rc == env.exitCode(|old(issued)|)
    {
      rc := env.exitCode(|issued|);
      issued := issued + [step];
    }
  }

  // ---------------------------------------------------------------------------
  // Running a sequence of steps

  /** Every one of the `count` commands issued from the n-th on returned 0. */
  ghost predicate Succeeded(exitCode: nat -> int, n: nat, count: nat)
    decreases count
  {
    count == 0 || (exitCode(n) == 0 && Succeeded(exitCode, n + 1, count - 1))
  }

  lemma {:induction false} SucceededMeans(exitCode: nat -> int, n: nat, count: nat)
    ensures Succeeded(exitCode, n, count) <==> forall j :: n <= j < n + count ==> exitCode(j) == 0
    decreases count
  {
    if count > 0 {
      SucceededMeans(exitCode, n + 1, count - 1);
    }
  }

  lemma {:induction false} SucceededExtend(exitCode: nat -> int, n: nat, count: nat)
    requires Succeeded(exitCode, n, count) && exitCode(n + count) == 0
    ensures Succeeded(exitCode, n, count + 1)
    decreases count
  {
    if count > 0 {
      SucceededExtend(exitCode, n + 1, count - 1);
    }
  }

  /**
   * The steps of `plan` that are issued when the command issued n-th returns
   * `exitCode(n)`: in order, up to and including the first that fails.
   */
  function Execute(plan: seq<Step>, exitCode: nat -> int, n: nat): (ran: seq<Step>)
    ensures |ran| <= |plan|
    ensures plan != [] ==> ran != [] && ran[0] == plan[0]
    decreases |plan|
  {
    if plan == [] then []
    else if exitCode(n) != 0 then [plan[0]]
    else [plan[0]] + Execute(plan[1..], exitCode, n + 1)
  }

  /** The code of the first step of `plan` that fails, if one does. */
  function Failure(plan: seq<Step>, exitCode: nat -> int, n: nat): (r: Option<int>)
    ensures r.Some? ==> r.value != 0
    decreases |plan|
  {
    if plan == [] then None
    else if exitCode(n) != 0 then Some(exitCode(n))
    else Failure(plan[1..], exitCode, n + 1)
  }

  /** What a run issues is a prefix of its plan. */
  lemma {:induction false} ExecuteIsPrefix(plan: seq<Step>, exitCode: nat -> int, n: nat)
    ensures Execute(plan, exitCode, n) == plan[..|Execute(plan, exitCode, n)|]
    decreases |plan|
  {
    if plan != [] && exitCode(n) == 0 {
      ExecuteIsPrefix(plan[1..], exitCode, n + 1);
      var rest := Execute(plan[1..], exitCode, n + 1);
      assert [plan[0]] + plan[1..][..|rest|] == plan[..|rest| + 1];
    }
  }

  /**
   * A run issues all of its plan when no step fails, and otherwise every step up
   * to the failing one, whose code is the failure.
   */
  lemma {:induction false} ExecuteStopsAtFirstFailure(plan: seq<Step>, exitCode: nat -> int, n: nat)
    ensures var ran := Execute(plan, exitCode, n);
      && ran == plan[..|ran|]
      && (Failure(plan, exitCode, n).None? <==> Succeeded(exitCode, n, |plan|))
      && (Failure(plan, exitCode, n).None? ==> ran == plan)
      && (Failure(plan, exitCode, n).Some? ==>
            ran != [] && Succeeded(exitCode, n, |ran| - 1) && Failure(plan, exitCode, n).value == exitCode(n + |ran| - 1))
    decreases |plan|
  {
    ExecuteIsPrefix(plan, exitCode, n);
    if plan != [] && exitCode(n) == 0 {
      ExecuteStopsAtFirstFailure(plan[1..], exitCode, n + 1);
    }
  }

  /** A failure after k successes issues exactly the first k + 1 steps. */
  lemma {:induction false} ExecuteStopsAtFailure(plan: seq<Step>, exitCode: nat -> int, n: nat, k: nat)
    requires k < |plan|
    requires Succeeded(exitCode, n, k)
    requires exitCode(n + k) != 0
    ensures Execute(plan, exitCode, n) == plan[..k + 1]
    ensures Failure(plan, exitCode, n) == Some(exitCode(n + k))
    decreases k
  {
    if k > 0 {
      ExecuteStopsAtFailure(plan[1..], exitCode, n + 1, k - 1);
      assert [plan[0]] + plan[1..][..k] == plan[..k + 1];
    }
  }

  /** When every step succeeds, the whole plan is issued. */
  lemma {:induction false} ExecuteRunsAll(plan: seq<Step>, exitCode: nat -> int, n: nat)
    requires Succeeded(exitCode, n, |plan|)
    ensures Execute(plan, exitCode, n) == plan
    ensures Failure(plan, exitCode, n) == None
    decreases |plan|
  {
    if plan != [] {
      ExecuteRunsAll(plan[1..], exitCode, n + 1);
    }
  }

  lemma AppendAssociates(s: seq<Step>, t: seq<Step>, u: seq<Step>)
    ensures s + (t + u) == (s + t) + u
  {
  }

  /** After a plan that runs to the end, the plan that follows it runs as if alone. */
  lemma ExecuteAfterSuccess(a: seq<Step>, b: seq<Step>, exitCode: nat -> int, n: nat)
    requires Failure(a, exitCode, n).None?
    ensures Execute(a + b, exitCode, n) == a + Execute(b, exitCode, n + |a|)
    ensures Failure(a + b, exitCode, n) == Failure(b, exitCode, n + |a|)
  {
    RunsOnAfterSuccess(a, b, exitCode, n);
    FailsOnAfterSuccess(a, b, exitCode, n);
  }

  lemma {:induction false} RunsOnAfterSuccess(a: seq<Step>, b: seq<Step>, exitCode: nat -> int, n: nat)
    requires Failure(a, exitCode, n).None?
    ensures Execute(a + b, exitCode, n) == a + Execute(b, exitCode, n + |a|)
    decreases |a|
  {
    if a == [] {
      assert a + b == b;
    } else {
      var rest := Execute(b, exitCode, n + |a|);
      RunsOnAfterSuccess(a[1..], b, exitCode, n + 1);
      ExecuteFirst(a, b, exitCode, n);
      AppendAssociates([a[0]], a[1..], rest);
      assert [a[0]] + a[1..] == a;
    }
  }

  /** A first step that succeeds is followed by the rest of the plan. */
  lemma ExecuteFirst(a: seq<Step>, b: seq<Step>, exitCode: nat -> int, n: nat)
    requires a != [] && exitCode(n) == 0
    ensures Execute(a + b, exitCode, n) == [a[0]] + Execute(a[1..] + b, exitCode, n + 1)
  {
    assert (a + b)[1..] == a[1..] + b;
  }

  lemma {:induction false} FailsOnAfterSuccess(a: seq<Step>, b: seq<Step>, exitCode: nat -> int, n: nat)
    requires Failure(a, exitCode, n).None?
    ensures Failure(a + b, exitCode, n) == Failure(b, exitCode, n + |a|)
    decreases |a|
  {
    if a == [] {
      assert a + b == b;
    } else {
      assert (a + b)[0] == a[0] && (a + b)[1..] == a[1..] + b;
      FailsOnAfterSuccess(a[1..], b, exitCode, n + 1);
    }
  }

  /** A plan that fails stops the plan that follows it from running at all. */
  lemma {:induction false} ExecuteAfterFailure(a: seq<Step>, b: seq<Step>, exitCode: nat -> int, n: nat)
    requires Failure(a, exitCode, n).Some?
    ensures Execute(a + b, exitCode, n) == Execute(a, exitCode, n)
    ensures Failure(a + b, exitCode, n) == Failure(a, exitCode, n)
    decreases |a|
  {
    assert (a + b)[0] == a[0];
    if exitCode(n) == 0 {
      assert (a + b)[1..] == a[1..] + b;
      ExecuteAfterFailure(a[1..], b, exitCode, n + 1);
    }
  }

  // ---------------------------------------------------------------------------
  // The operations

  /** A call of one `Yolox` method, with the arguments it was given. */
  datatype Operation =
    | Install(pycmd: Value, pipcmd: Value)
    | Zoo
    | Demo(modelName: Value, weightFile: Value, inputImage: Value, modelImgSize: Value,
           clsth: Value, nms: Value, outputPreview: Value, pycmd: Value)
    | Convert(modelName: Value, weightFile: Value, outputFile: Value, pycmd: Value)
    | Inference(onnxFile: Value, inputImage: Value, outputDir: Value, scoreTh: Value,
                inputSize: Value, outputPreview: Value, pycmd: Value)

  /** install's first phase: clone the toolkit and create its environment, each unless present. */
  function SetupSteps(env: Env, pycmd: Value): seq<Step>
  {
    (if env.toolkitPresent then [] else [Clone]) + (if env.venvPresent then [] else [CreateVenv(Show(pycmd))])
  }

  /** install's second phase: the four pip commands run inside the environment. */
  function PackageSteps(pipcmd: Value): seq<Step>
  {
    [UpgradePip, InstallRequirements(Show(pipcmd)), InstallOnnxRuntime(Show(pipcmd)), InstallEditable(Show(pipcmd))]
  }

  function InstallPlan(env: Env, pycmd: Value, pipcmd: Value): seq<Step>
  {
    SetupSteps(env, pycmd) + PackageSteps(pipcmd)
  }

  function DemoStep(op: Operation): Step
    requires op.Demo?
  {
    RunDemo(Show(op.pycmd), Show(op.modelName), Show(AsPath(op.weightFile)), Show(AsPath(op.inputImage)),
            Show(op.clsth), Show(op.nms), Show(op.modelImgSize))
  }

  /**
   * `convert`'s output path: the given one, else `weight_file.parent / (model_name + '.onnx')`,
   * which raises when the weight file is not a path or the model name not a string.
   */
  function OnnxOutput(modelName: Value, weightFile: Value, outputFile: Value): Result<Value>
  {
    if AsPath(outputFile) != NoneVal then Ok(AsPath(outputFile))
    else if !AsPath(weightFile).PathVal? then Err("AttributeError")
    else if !modelName.Str? then Err("TypeError")
    else Ok(PathVal(Paths.Join(Paths.Parent(AsPath(weightFile).path), Paths.Parse(modelName.s + ".onnx"))))
  }

  /**
   * Without an output file, the ONNX file lands beside the weight file and is
   * named after the model.
   */
  lemma DefaultOnnxBesideWeights(modelName: string, weightFile: string)
    requires Paths.Component(modelName + ".onnx")
    ensures OnnxOutput(Str(modelName), Str(weightFile), NoneVal).Ok?
    ensures var out := OnnxOutput(Str(modelName), Str(weightFile), NoneVal).value;
      && out.PathVal?
      && Paths.WellFormed(out.path)
      && out.path.parts != []
      && Paths.Parent(out.path) == Paths.Parent(Paths.Parse(weightFile))
      && out.path.parts[|out.path.parts| - 1] == modelName + ".onnx"
  {
    Paths.ParseComponent(modelName + ".onnx");
  }

  function ExportStep(op: Operation, output: Value): Step
    requires op.Convert?
  {
    ExportOnnx(Show(op.pycmd), Show(op.modelName), Show(AsPath(op.weightFile)), Show(output))
  }

  function InferenceStep(op: Operation): Step
    requires op.Inference?
  {
    RunOnnxInference(Show(op.pycmd), Show(AsPath(op.onnxFile)), Show(AsPath(op.inputImage)), Show(AsPath(op.outputDir)),
                     Show(op.scoreTh), Show(op.inputSize))
  }

  /** `cwd / output_dir`, which raises TypeError unless the output directory is a path. */
  function InferenceOutputs(outputDir: Value): Result<Paths.PurePath>
  {
    if AsPath(outputDir).PathVal? then Ok(Paths.Join(ToolkitDir, AsPath(outputDir).path)) else Err("TypeError")
  }

  /** The steps an operation would issue if every one of them succeeded. */
  function Plan(env: Env, op: Operation): seq<Step>
  {
    match op
    case Install(pycmd, pipcmd) => InstallPlan(env, pycmd, pipcmd)
    case Zoo => []
    case Demo(_, _, _, _, _, _, _, _) => if Installed(env) then [DemoStep(op)] else []
    case Convert(modelName, weightFile, outputFile, _) =>
      if Installed(env) && OnnxOutput(modelName, weightFile, outputFile).Ok?
      then [ExportStep(op, OnnxOutput(modelName, weightFile, outputFile).value)] else []
    case Inference(_, _, _, _, _, _, _) => if Installed(env) then [InferenceStep(op)] else []
  }

  /** The steps an operation issues when the first of them is the n-th command of the run. */
  function Issued(env: Env, op: Operation, n: nat): seq<Step>
  {
    Execute(Plan(env, op), env.exitCode, n)
  }

  /** install's reply: the first non-zero return code, or success. */
  function InstallOutcome(env: Env, pycmd: Value, pipcmd: Value, n: nat): Result<Reply>
  {
    var failure := Failure(InstallPlan(env, pycmd, pipcmd), env.exitCode, n);
    if failure.Some? then Ok(Error(FailedMessage("Install", failure.value))) else Ok(Success(InstallSucceeded))
  }

  /** What an operation returns (or raises) when its first command is the n-th of the run. */
  function Outcome(env: Env, op: Operation, n: nat): Result<Reply>
  {
    match op
    case Install(pycmd, pipcmd) => InstallOutcome(env, pycmd, pipcmd, n)
    case Zoo => Ok(Site(ZooSite))
    case Demo(_, _, _, _, _, _, _, _) =>
      if !Installed(env) then Ok(Error(NotInstalled))
      else if env.exitCode(n) != 0 then Ok(Error(FailedMessage("Demo", env.exitCode(n))))
      else
        var outfile := FindMaxUpdateFile(env.jpgs(DemoOutputs));
        if outfile.Err? then Err(outfile.exception) else Ok(Success("outfile=" + outfile.value))
    case Convert(modelName, weightFile, outputFile, _) =>
      if !Installed(env) then Ok(Error(NotInstalled))
      else
        var output := OnnxOutput(modelName, weightFile, outputFile);
        if output.Err? then Err(output.exception)
        else if env.exitCode(n) != 0 then Ok(Error(FailedMessage("Convert", env.exitCode(n))))
        else Ok(Success("outfile=" + Show(output.value)))
    case Inference(_, _, outputDir, _, _, outputPreview, _) =>
      if !Installed(env) then Ok(Error(NotInstalled))
      else if env.exitCode(n) != 0 then Ok(Error(FailedMessage("Onnx inference", env.exitCode(n))))
      else
        var dir := InferenceOutputs(outputDir);
        if dir.Err? then Err(dir.exception)
        else
          var outfile := FindMaxUpdateFile(env.jpgs(dir.value));
          if outfile.Err? then Err(outfile.exception)
          else if Truthy(outputPreview) then Ok(Success("outfile=" + outfile.value))
          else Ok(NoReply)
  }

  // ---------------------------------------------------------------------------
  // Properties of the operations

  /**
   * install clones only without a checkout and creates the environment only
   * without one, then always upgrades pip and installs the requirements, the
   * ONNX runtime and the toolkit itself, in that order.
   */
  lemma InstallCommandOrder(env: Env, pycmd: Value, pipcmd: Value)
    ensures var plan := Plan(env, Install(pycmd, pipcmd));
      && (Clone in plan <==> !env.toolkitPresent)
      && (CreateVenv(Show(pycmd)) in plan <==> !env.venvPresent)
      && |plan| == 4 + (if env.toolkitPresent then 0 else 1) + (if env.venvPresent then 0 else 1)
      && (!env.toolkitPresent ==> plan[0] == Clone)
      && plan[|plan| - 4..] == [UpgradePip, InstallRequirements(Show(pipcmd)), InstallOnnxRuntime(Show(pipcmd)), InstallEditable(Show(pipcmd))]
  {
    var plan := Plan(env, Install(pycmd, pipcmd));
    if env.toolkitPresent {
      assert Clone !in plan[..|plan| - 4];
    }
  }

  /** `pre` starts `s`. */
  predicate StartsWith(s: string, pre: string)
  {
    |pre| <= |s| && s[..|pre|] == pre
  }

  lemma StartsWithAppend(pre: string, rest: string)
    ensures StartsWith(pre + rest, pre)
  {
    assert (pre + rest)[..|pre|] == pre;
  }

  /**
   * Every command an operation runs inside the environment starts by activating it:
   * install sources `bin/activate` while demo, convert and inference name
   * `Scripts/activate` (both `activate.bat` on Windows). Only install's clone runs
   * outside the checkout.
   */
  lemma CommandsActivateEnvironment(env: Env, op: Operation)
    ensures forall step :: step in Plan(env, op) && InsideEnvironment(step) ==>
      StartsWith(CommandLine(step, env.windows), Activation(env.windows, op.Install?) + " && ")
    ensures forall step :: step in Plan(env, op) && !op.Install? ==> WorkDir(step) == ToolkitDir
  {
    forall step | step in Plan(env, op) && InsideEnvironment(step)
      ensures StartsWith(CommandLine(step, env.windows), Activation(env.windows, op.Install?) + " && ")
    {
      assert PackageStep(step) == op.Install?;
      StartsWithAppend(Activation(env.windows, op.Install?) + " && ", Invocation(step));
    }
  }

  /**
   * install succeeds exactly when every command it issues returns 0; otherwise it
   * reports the code of the last command it issued, which is the first that failed.
   */
  lemma InstallReportsFirstFailure(env: Env, pycmd: Value, pipcmd: Value, n: nat)
    ensures var op := Install(pycmd, pipcmd);
      var ran := Issued(env, op, n);
      && (Outcome(env, op, n) == Ok(Success(InstallSucceeded)) <==> forall j :: n <= j < n + |Plan(env, op)| ==> env.exitCode(j) == 0)
      && (Outcome(env, op, n) != Ok(Success(InstallSucceeded)) ==>
            && ran != []
            && env.exitCode(n + |ran| - 1) != 0
            && Outcome(env, op, n) == Ok(Error(FailedMessage("Install", env.exitCode(n + |ran| - 1)))))
  {
    var op := Install(pycmd, pipcmd);
    var plan := InstallPlan(env, pycmd, pipcmd);
    assert Plan(env, op) == plan && Issued(env, op, n) == Execute(plan, env.exitCode, n);
    assert Outcome(env, op, n) == InstallOutcome(env, pycmd, pipcmd, n);
    FirstFailureReported(plan, env.exitCode, n);
  }

  /** A plan fails exactly when some command it would run fails, and then with the code of the last one issued. */
  lemma FirstFailureReported(plan: seq<Step>, exitCode: nat -> int, n: nat)
    ensures Failure(plan, exitCode, n).None? <==> forall j :: n <= j < n + |plan| ==> exitCode(j) == 0
    ensures var ran := Execute(plan, exitCode, n);
      Failure(plan, exitCode, n).Some? ==> ran != [] && exitCode(n + |ran| - 1) == Failure(plan, exitCode, n).value
  {
    ExecuteStopsAtFirstFailure(plan, exitCode, n);
    SucceededMeans(exitCode, n, |plan|);
  }

  /** zoo issues no command and always returns the benchmark site. */
  lemma ZooIssuesNothing(env: Env, n: nat)
    ensures Issued(env, Zoo, n) == [] && Outcome(env, Zoo, n) == Ok(Site(ZooSite))
  {
  }

  /** demo, convert and inference issue nothing and report so when the toolkit or its environment is missing. */
  lemma NotInstalledIssuesNothing(env: Env, op: Operation, n: nat)
    requires op.Demo? || op.Convert? || op.Inference?
    requires !Installed(env)
    ensures Issued(env, op, n) == [] && Outcome(env, op, n) == Ok(Error(NotInstalled))
  {
  }

  /**
   * With the toolkit installed, demo and inference issue exactly one command, and
   * a non-zero code is reported as that operation's failure.
   */
  lemma SingleCommandOperations(env: Env, op: Operation, n: nat)
    requires op.Demo? || op.Inference?
    requires Installed(env)
    ensures |Issued(env, op, n)| == 1
    ensures env.exitCode(n) != 0 ==>
      Outcome(env, op, n) == Ok(Error(FailedMessage(if op.Demo? then "Demo" else "Onnx inference", env.exitCode(n))))
  {
  }

  /**
   * convert issues one command when its output path can be formed and none when
   * forming it raises; a non-zero code is reported as a convert failure.
   */
  lemma ConvertCommand(env: Env, op: Operation, n: nat)
    requires op.Convert? && Installed(env)
    ensures |Issued(env, op, n)| == (if OnnxOutput(op.modelName, op.weightFile, op.outputFile).Ok? then 1 else 0)
    ensures OnnxOutput(op.modelName, op.weightFile, op.outputFile).Ok? && env.exitCode(n) != 0 ==>
      Outcome(env, op, n) == Ok(Error(FailedMessage("Convert", env.exitCode(n))))
  {
  }

  /**
   * A successful convert without an output file reports the ONNX file beside the
   * weight file, named after the model.
   */
  lemma ConvertReportsDefaultOutput(env: Env, modelName: string, weightFile: string, pycmd: Value, n: nat)
    requires Installed(env) && env.exitCode(n) == 0
    ensures var out := Paths.Join(Paths.Parent(Paths.Parse(weightFile)), Paths.Parse(modelName + ".onnx"));
      Outcome(env, Convert(Str(modelName), Str(weightFile), NoneVal, pycmd), n) == Ok(Success("outfile=" + Paths.Render(out)))
  {
  }

  /**
   * inference replies with its output file only when a preview was asked for;
   * without one it returns None even though the command succeeded.
   */
  lemma InferenceRepliesOnlyWithPreview(env: Env, op: Operation, n: nat)
    requires op.Inference?
    ensures Outcome(env, op, n).Ok? && Outcome(env, op, n).value.Success? ==> Truthy(op.outputPreview)
    ensures Installed(env) && env.exitCode(n) == 0 && !Truthy(op.outputPreview) ==>
      Outcome(env, op, n).Err? || Outcome(env, op, n) == Ok(NoReply)
  {
  }

  /** demo returns the same result whether or not a preview was asked for. */
  lemma DemoIgnoresPreview(env: Env, modelName: Value, weightFile: Value, inputImage: Value, modelImgSize: Value,
                           clsth: Value, nms: Value, pycmd: Value, n: nat)
    ensures Outcome(env, Demo(modelName, weightFile, inputImage, modelImgSize, clsth, nms, Bool(true), pycmd), n)
         == Outcome(env, Demo(modelName, weightFile, inputImage, modelImgSize, clsth, nms, Bool(false), pycmd), n)
  {
  }

  /** The first k steps of `plan` were issued after `base`, and each returned 0. */
  ghost predicate Progress(plan: seq<Step>, exitCode: nat -> int, n: nat, k: nat, base: seq<Step>, log: seq<Step>)
  {
    && k <= |plan|
    && |base| == n
    && log == base + plan[..k]
    && Succeeded(exitCode, n, k)
  }

  /** A failing setup phase is all of install that runs, and its failure is install's. */
  lemma InstallStopsInSetup(env: Env, pycmd: Value, pipcmd: Value, n: nat)
    requires Failure(SetupSteps(env, pycmd), env.exitCode, n).Some?
    ensures Execute(InstallPlan(env, pycmd, pipcmd), env.exitCode, n) == Execute(SetupSteps(env, pycmd), env.exitCode, n)
    ensures Failure(InstallPlan(env, pycmd, pipcmd), env.exitCode, n) == Failure(SetupSteps(env, pycmd), env.exitCode, n)
  {
    ExecuteAfterFailure(SetupSteps(env, pycmd), PackageSteps(pipcmd), env.exitCode, n);
  }

  /**
   * After a setup phase that succeeded, install's run is the setup followed by the
   * package phase issued right after it, and install fails as the package phase does.
   */
  lemma InstallContinuesAfterSetup(env: Env, pycmd: Value, pipcmd: Value, before: seq<Step>, prepared: seq<Step>, after: seq<Step>)
    requires Failure(SetupSteps(env, pycmd), env.exitCode, |before|).None?
    requires prepared == before + Execute(SetupSteps(env, pycmd), env.exitCode, |before|)
    requires after == prepared + Execute(PackageSteps(pipcmd), env.exitCode, |prepared|)
    ensures after == before + Execute(InstallPlan(env, pycmd, pipcmd), env.exitCode, |before|)
    ensures Failure(InstallPlan(env, pycmd, pipcmd), env.exitCode, |before|) == Failure(PackageSteps(pipcmd), env.exitCode, |prepared|)
  {
    var setup := SetupSteps(env, pycmd);
    ExecuteStopsAtFirstFailure(setup, env.exitCode, |before|);
    ExecuteAfterSuccess(setup, PackageSteps(pipcmd), env.exitCode, |before|);
    AppendAssociates(before, setup, Execute(PackageSteps(pipcmd), env.exitCode, |prepared|));
  }

  /** A successful k-th step extends the progress by one. */
  lemma ProgressAdvance(plan: seq<Step>, exitCode: nat -> int, n: nat, k: nat, base: seq<Step>, log: seq<Step>)
    requires Progress(plan, exitCode, n, k, base, log)
    requires k < |plan| && exitCode(n + k) == 0
    ensures Progress(plan, exitCode, n, k + 1, base, log + [plan[k]])
  {
    SucceededExtend(exitCode, n, k);
    assert plan[..k] + [plan[k]] == plan[..k + 1];
  }

  /** A failing k-th step ends the run: what was issued and the code it reports. */
  lemma ProgressFails(plan: seq<Step>, exitCode: nat -> int, n: nat, k: nat, base: seq<Step>, log: seq<Step>)
    requires Progress(plan, exitCode, n, k, base, log)
    requires k < |plan| && exitCode(n + k) != 0
    ensures log + [plan[k]] == base + Execute(plan, exitCode, n)
    ensures Failure(plan, exitCode, n) == Some(exitCode(n + k))
  {
    ExecuteStopsAtFailure(plan, exitCode, n, k);
    assert plan[..k] + [plan[k]] == plan[..k + 1];
  }

  /** When every step succeeded, the whole plan was issued and nothing failed. */
  lemma ProgressCompletes(plan: seq<Step>, exitCode: nat -> int, n: nat, base: seq<Step>, log: seq<Step>)
    requires Progress(plan, exitCode, n, |plan|, base, log)
    ensures log == base + Execute(plan, exitCode, n)
    ensures Failure(plan, exitCode, n) == None
  {
    ExecuteRunsAll(plan, exitCode, n);
    assert plan[..|plan|] == plan;
  }

  // ---------------------------------------------------------------------------
  // The class

  /** `Yolox`: its methods drive the toolkit through the host's shell. */
  class Yolox {
    const host: Host

    constructor (host: Host)
      ensures this.host == host
    {
      this.host := host;
    }

    /**
     * The k-th command of a plan whose first k commands succeeded: a non-zero return
     * code ends the plan there, otherwise the run so far is extended by one step.
     */
    method RunPlanned(step: Step, ghost plan: seq<Step>, ghost n: nat, ghost k: nat, ghost base: seq<Step>)
      returns (rc: int)
      requires Progress(plan, host.env.exitCode, n, k, base, host.issued)
      requires k < |plan| && plan[k] == step
      modifies host
      ensures rc == host.env.exitCode(n + k)
      ensures rc != 0 ==> host.issued == base + Execute(plan, host.env.exitCode, n) && Failure(plan, host.env.exitCode, n) == Some(rc)
      ensures rc == 0 ==> Progress(plan, host.env.exitCode, n, k + 1, base, host.issued)
    {
      ghost var before := host.issued;
      rc := host.Run(step);
      if rc != 0 {
        ProgressFails(plan, host.env.exitCode, n, k, base, before);
      } else {
        ProgressAdvance(plan, host.env.exitCode, n, k, base, before);
      }
    }

    /**
     * install's setup phase: clone the toolkit unless its checkout exists, then create
     * its virtual environment unless that exists, stopping at a non-zero return code.
     */
    method Prepare(pycmd: Value) returns (rc: int)
      modifies host
      ensures host.issued == old(host.issued) + Execute(SetupSteps(host.env, pycmd), host.env.exitCode, |old(host.issued)|)
      ensures rc != 0 ==> Failure(SetupSteps(host.env, pycmd), host.env.exitCode, |old(host.issued)|) == Some(rc)
      ensures rc == 0 ==> Failure(SetupSteps(host.env, pycmd), host.env.exitCode, |old(host.issued)|) == None
    {
      ghost var setup := SetupSteps(host.env, pycmd);
      ghost var n := |host.issued|;
      ghost var base := host.issued;
      ghost var k := 0;
      assert base + setup[..0] == base;
      rc := 0;
      if !host.env.toolkitPresent {
        rc := RunPlanned(Clone, setup, n, k, base);
        if rc != 0 {
          return;
        }
        k := k + 1;
      }
      if !host.env.venvPresent {
        rc := RunPlanned(CreateVenv(Show(pycmd)), setup, n, k, base);
        if rc != 0 {
          return;
        }
        k := k + 1;
      }
      ProgressCompletes(setup, host.env.exitCode, n, base, host.issued);
    }

    /** install's package phase: the four pip commands, stopping at a non-zero return code. */
    method InstallPackages(pipcmd: Value) returns (rc: int)
      modifies host
      ensures host.issued == old(host.issued) + Execute(PackageSteps(pipcmd), host.env.exitCode, |old(host.issued)|)
      ensures rc != 0 ==> Failure(PackageSteps(pipcmd), host.env.exitCode, |old(host.issued)|) == Some(rc)
      ensures rc == 0 ==> Failure(PackageSteps(pipcmd), host.env.exitCode, |old(host.issued)|) == None
    {
      ghost var packages := PackageSteps(pipcmd);
      ghost var n := |host.issued|;
      ghost var base := host.issued;
      ghost var k := 0;
      assert base + packages[..0] == base;
      rc := RunPlanned(UpgradePip, packages, n, k, base);
      if rc != 0 {
        return;
      }
      k := k + 1;
      rc := RunPlanned(InstallRequirements(Show(pipcmd)), packages, n, k, base);
      if rc != 0 {
        return;
      }
      k := k + 1;
      rc := RunPlanned(InstallOnnxRuntime(Show(pipcmd)), packages, n, k, base);
      if rc != 0 {
        return;
      }
      k := k + 1;
      rc := RunPlanned(InstallEditable(Show(pipcmd)), packages, n, k, base);
      if rc != 0 {
        return;
      }
      ProgressCompletes(packages, host.env.exitCode, n, base, host.issued);
    }

    method Install(pycmd: Value, pipcmd: Value) returns (r: Result<Reply>)
      modifies host
      ensures host.issued == old(host.issued) + Execute(InstallPlan(host.env, pycmd, pipcmd), host.env.exitCode, |old(host.issued)|)
      ensures r == InstallOutcome(host.env, pycmd, pipcmd, |old(host.issued)|)
    {
      var rc := Prepare(pycmd);
      if rc != 0 {
        InstallStopsInSetup(host.env, pycmd, pipcmd, |old(host.issued)|);
        return Ok(Error(FailedMessage("Install", rc)));
      }
      ghost var prepared := host.issued;
      rc := InstallPackages(pipcmd);
      InstallContinuesAfterSetup(host.env, pycmd, pipcmd, old(host.issued), prepared, host.issued);
      if rc != 0 {
        return Ok(Error(FailedMessage("Install", rc)));
      }
      return Ok(Success(InstallSucceeded));
    }

    method Zoo() returns (r: Result<Reply>)
      ensures r == Outcome(host.env, Operation.Zoo, |host.issued|)
    {
      return Ok(Site(ZooSite));
    }

    method Demo(modelName: Value, weightFile: Value, inputImage: Value, modelImgSize: Value,
                clsth: Value, nms: Value, outputPreview: Value, pycmd: Value) returns (r: Result<Reply>)
      modifies host
      ensures var op := Operation.Demo(modelName, weightFile, inputImage, modelImgSize, clsth, nms, outputPreview, pycmd);
        && host.issued == old(host.issued) + Issued(host.env, op, |old(host.issued)|)
        && r == Outcome(host.env, op, |old(host.issued)|)
    {
      if !host.env.toolkitPresent || !host.env.venvPresent {
        return Ok(Error(NotInstalled));
      }
      var weight := AsPath(weightFile);
      var image := AsPath(inputImage);
      var rc := host.Run(RunDemo(Show(pycmd), Show(modelName), Show(weight), Show(image), Show(clsth), Show(nms), Show(modelImgSize)));
      if rc != 0 {
        return Ok(Error(FailedMessage("Demo", rc)));
      }
      var outfile := FindMaxUpdateFile(host.env.jpgs(DemoOutputs));
      if outfile.Err? {
        return Err(outfile.exception);
      }
      // the preview window is not modelled
      return Ok(Success("outfile=" + outfile.value));
    }

    method Convert(modelName: Value, weightFile: Value, outputFile: Value, pycmd: Value) returns (r: Result<Reply>)
      modifies host
      ensures var op := Operation.Convert(modelName, weightFile, outputFile, pycmd);
        && host.issued == old(host.issued) + Issued(host.env, op, |old(host.issued)|)
        && r == Outcome(host.env, op, |old(host.issued)|)
    {
      if !host.env.toolkitPresent || !host.env.venvPresent {
        return Ok(Error(NotInstalled));
      }
      var weight := AsPath(weightFile);
      var output := AsPath(outputFile);
      if output == NoneVal {
        if !weight.PathVal? {
          return Err("AttributeError");
        }
        if !modelName.Str? {
          return Err("TypeError");
        }
        output := PathVal(Paths.Join(Paths.Parent(weight.path), Paths.Parse(modelName.s + ".onnx")));
      }
      var rc := host.Run(ExportOnnx(Show(pycmd), Show(modelName), Show(weight), Show(output)));
      if rc != 0 {
        return Ok(Error(FailedMessage("Convert", rc)));
      }
      return Ok(Success("outfile=" + Show(output)));
    }

    method Inference(onnxFile: Value, inputImage: Value, outputDir: Value, scoreTh: Value,
                     inputSize: Value, outputPreview: Value, pycmd: Value) returns (r: Result<Reply>)
      modifies host
      ensures var op := Operation.Inference(onnxFile, inputImage, outputDir, scoreTh, inputSize, outputPreview, pycmd);
        && host.issued == old(host.issued) + Issued(host.env, op, |old(host.issued)|)
        && r == Outcome(host.env, op, |old(host.issued)|)
    {
      if !host.env.toolkitPresent || !host.env.venvPresent {
        return Ok(Error(NotInstalled));
      }
      var onnx := AsPath(onnxFile);
      var image := AsPath(inputImage);
      var dir := AsPath(outputDir);
      var rc := host.Run(RunOnnxInference(Show(pycmd), Show(onnx), Show(image), Show(dir), Show(scoreTh), Show(inputSize)));
      if rc != 0 {
        return Ok(Error(FailedMessage("Onnx inference", rc)));
      }
      if !dir.PathVal? {
        return Err("TypeError");
      }
      var outfile := FindMaxUpdateFile(host.env.jpgs(Paths.Join(ToolkitDir, dir.path)));
      if outfile.Err? {
        return Err(outfile.exception);
      }
      if Truthy(outputPreview) {
        // the preview window is not modelled
        return Ok(Success("outfile=" + outfile.value));
      }
      return Ok(NoReply);
    }
  }
}
