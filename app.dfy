/**
 * The command-line entry point `main(HOME_DIR)`: argparse's defaults and choices,
 * loading the options file, resolving sixteen options with `getopt`, the
 * `--saveopt` guard, and the dispatch on mode and command to a `Yolox` method.
 */
module App {
  import opened Wrappers
  import opened Values
  import Paths
  import opened Common
  import Yolox

  // ---------------------------------------------------------------------------
  // The parsed arguments

  /** Every argument the parser declares, by its destination name. */
  const ArgumentNames: set<string> := {
    "useopt", "saveopt", "format", "mode", "data", "timeout", "cmd", "pycmd", "pipcmd",
    "yolox_model_name", "yolox_weight_file", "yolox_input_image", "yolox_model_img_size",
    "yolox_class_th", "yolox_nms_th", "yolox_output_preview", "yolox_onnx_file",
    "yolox_output_dir", "yolox_score_th"
  }

  // The keys of the options `main` resolves with `getopt`
  const FormatKey := "format"
  const ModeKey := "mode"
  const DataKey := "data"
  const CmdKey := "cmd"
  const PycmdKey := "pycmd"
  const PipcmdKey := "pipcmd"
  const ModelNameKey := "yolox_model_name"
  const WeightFileKey := "yolox_weight_file"
  const InputImageKey := "yolox_input_image"
  const ModelImgSizeKey := "yolox_model_img_size"
  const ClassThKey := "yolox_class_th"
  const NmsThKey := "yolox_nms_th"
  const OutputPreviewKey := "yolox_output_preview"
  const OnnxFileKey := "yolox_onnx_file"
  const OutputDirKey := "yolox_output_dir"
  const ScoreThKey := "yolox_score_th"

  /** How many options `main` resolves. */
  const KeyCount := 16

  /** The i-th key `main` resolves, in the order of its calls. */
  function OptionKey(i: nat): string
    requires i < KeyCount
  {
    if i == 0 then FormatKey else if i == 1 then ModeKey else if i == 2 then DataKey
    else if i == 3 then CmdKey else if i == 4 then PycmdKey else if i == 5 then PipcmdKey
    else if i == 6 then ModelNameKey else if i == 7 then WeightFileKey
    else if i == 8 then InputImageKey else if i == 9 then ModelImgSizeKey
    else if i == 10 then ClassThKey else if i == 11 then NmsThKey
    else if i == 12 then OutputPreviewKey else if i == 13 then OnnxFileKey
    else if i == 14 then OutputDirKey else ScoreThKey
  }

  /** The keys of the first i calls. */
  function KeysBefore(i: nat): (keys: set<string>)
    requires i <= KeyCount
  {
    if i == 0 then {} else KeysBefore(i - 1) + {OptionKey(i - 1)}
  }

  /** The values commands accepted by `--cmd`. */
  const Commands: set<string> := {"install", "zoo", "demo", "convert", "inference"}

  /** What argparse stores for the declared argument `name` when it is not given. */
  function ArgDefault(home: string, name: string): Value
  {
    if name == "useopt" || name == "mode" || name == "cmd" then NoneVal
    else if name == "saveopt" || name == "format" || name == "yolox_output_preview" then Bool(false)  // store_true
    else if name == "data" then PathVal(Paths.Join(Paths.Parse(home), Paths.Parse(".pth2onnx")))
    else if name == "timeout" then Int(15)
    else if name == "pycmd" then Str("python")
    else if name == "pipcmd" then Str("pip")
    else if name == "yolox_input_image" then Str("assets/dog.jpg")
    else if name == "yolox_model_img_size" then Int(416)
    else if name == "yolox_class_th" then Float("0.25")
    else if name == "yolox_nms_th" then Float("0.45")
    else if name == "yolox_output_dir" then Str("inference/output")
    else if name == "yolox_score_th" then Float("0.3")
    else NoneVal  // yolox_model_name, yolox_weight_file, yolox_onnx_file
  }

  /** What argparse stores for every declared argument that was not given. */
  function ArgDefaults(home: string): (m: map<string, Value>)
  {
    map name | name in ArgumentNames :: ArgDefault(home, name)
  }

  /**
   * The arguments argparse accepts: only declared ones, `--mode` among its single
   * choice and `--cmd` among its five.
   */
  predicate Acceptable(given: map<string, Value>)
  {
    && given.Keys <= ArgumentNames
    && ("mode" in given ==> given["mode"] == Str("yolox"))
    && ("cmd" in given ==> given["cmd"].Str? && given["cmd"].s in Commands)
  }

  /** `vars(parser.parse_args())`: the given arguments over the defaults. */
  function ParsedArgs(home: string, given: map<string, Value>): map<string, Value>
  {
    ArgDefaults(home) + given
  }

  /**
   * Every declared argument is present: the given value when there is one, its
   * default otherwise.
   */
  lemma ParsedArgsComplete(home: string, given: map<string, Value>)
    requires Acceptable(given)
    ensures ParsedArgs(home, given).Keys == ArgumentNames
    ensures forall k :: k in given ==> ParsedArgs(home, given)[k] == given[k]
    ensures forall k :: k in ArgumentNames && k !in given ==> ParsedArgs(home, given)[k] == ArgDefaults(home)[k]
  {
  }

  /** `loadopt(args.useopt)`: the stored options, or nothing without a file to read. */
  function Loaded(args: map<string, Value>, stored: Option<map<string, Value>>): map<string, Value>
  {
    if "useopt" !in args || args["useopt"] == NoneVal || stored.None? then map[] else stored.value
  }

  /**
   * Each of the sixteen options resolved against the loaded file alone, with every
   * other entry of the file kept as it is.
   */
  function Independently(loaded: map<string, Value>, args: map<string, Value>): map<string, Value>
  {
    map k | k in loaded.Keys + KeysBefore(KeyCount) ::
      if k in KeysBefore(KeyCount) then Resolve(loaded, k, Table(args), NoneVal) else loaded[k]
  }

  /**
   * `opt` after the first i of the sixteen `getopt(opt, key, preval=args_dict,
   * withset=True)` calls, each of which reads the `opt` the previous ones left.
   */
  function Resolution(loaded: map<string, Value>, args: map<string, Value>, i: nat): map<string, Value>
    requires i <= KeyCount
  {
    if i == 0 then loaded
    else
      var prev := Resolution(loaded, args, i - 1);
      prev[OptionKey(i - 1) := Resolve(prev, OptionKey(i - 1), Table(args), NoneVal)]
  }

  lemma KeysDistinct(i: nat, j: nat)
    requires i < j < KeyCount
    ensures OptionKey(i) != OptionKey(j)
  {
  }

  /** The sixteen keys are distinct, so no call rewrites an earlier call's key. */
  lemma {:induction false} KeyNotBefore(i: nat, j: nat)
    requires j <= i < KeyCount
    ensures OptionKey(i) !in KeysBefore(j)
    decreases j
  {
    if j > 0 {
      KeyNotBefore(i, j - 1);
      KeysDistinct(j - 1, i);
    }
  }

  /**
   * `m` holds the loaded entries and the keys in `keys`, each of those resolved
   * against the loaded file alone.
   */
  ghost predicate ResolvedAlone(m: map<string, Value>, loaded: map<string, Value>, args: map<string, Value>, keys: set<string>)
  {
    && (forall k :: k in m <==> k in loaded || k in keys)
    && (forall k :: k in m ==> m[k] == if k in keys then Resolve(loaded, k, Table(args), NoneVal) else loaded[k])
  }

  /** Resolving a key not resolved before, against `m`, is resolving it against the loaded file. */
  lemma ResolveFreshKey(m: map<string, Value>, loaded: map<string, Value>, args: map<string, Value>,
                        keys: set<string>, key: string)
    requires ResolvedAlone(m, loaded, args, keys) && key !in keys
    ensures ResolvedAlone(m[key := Resolve(m, key, Table(args), NoneVal)], loaded, args, keys + {key})
  {
    assert Resolve(m, key, Table(args), NoneVal) == Resolve(loaded, key, Table(args), NoneVal);
  }

  /**
   * After i calls, `opt` holds the loaded entries and the first i keys, each resolved
   * against the loaded file: no call sees what an earlier one wrote.
   */
  lemma {:induction false} ResolutionSoFar(loaded: map<string, Value>, args: map<string, Value>, i: nat)
    requires i <= KeyCount
    ensures ResolvedAlone(Resolution(loaded, args, i), loaded, args, KeysBefore(i))
  {
    if i > 0 {
      ResolutionSoFar(loaded, args, i - 1);
      KeyNotBefore(i - 1, i - 1);
      ResolveFreshKey(Resolution(loaded, args, i - 1), loaded, args, KeysBefore(i - 1), OptionKey(i - 1));
    }
  }

  /**
   * No call sees what an earlier one wrote: the sixteen calls, made one after the
   * other, leave `opt` as if each had read the loaded file alone.
   */
  lemma ResolutionIsIndependent(loaded: map<string, Value>, args: map<string, Value>)
    ensures Resolution(loaded, args, KeyCount) == Independently(loaded, args)
  {
    var r := Resolution(loaded, args, KeyCount);
    var s := Independently(loaded, args);
    ResolutionSoFar(loaded, args, KeyCount);
    forall k | k in r
      ensures k in s && r[k] == s[k]
    {
    }
    forall k | k in s
      ensures k in r
    {
    }
  }

  /** Once the i-th call has written its key, no later call rewrites it. */
  lemma {:induction false} LaterCallsKeep(loaded: map<string, Value>, args: map<string, Value>, i: nat, j: nat)
    requires i < j <= KeyCount
    ensures OptionKey(i) in Resolution(loaded, args, j)
    ensures Resolution(loaded, args, j)[OptionKey(i)] == Resolution(loaded, args, i + 1)[OptionKey(i)]
    decreases j
  {
    if j > i + 1 {
      LaterCallsKeep(loaded, args, i, j - 1);
      KeysDistinct(i, j - 1);
    }
  }

  /** The entry of a resolved option, or None when it is missing. */
  function Get(options: map<string, Value>, key: string): Value
  {
    if key in options then options[key] else NoneVal
  }

  // ---------------------------------------------------------------------------
  // What main does

  /** What `main` leaves behind, in order. */
  datatype Effect =
    | Printed(reply: Reply, tabular: bool)   // print_format(reply, format, tm)
    | HelpPrinted                            // parser.print_help()
    | Saved(path: Value, options: map<string, Value>)
    | Exited(status: int)
    | Raised(exception: string)

  const UseoptMissing := "Please specify the --useopt option."
  const UnknownCommand := "Unkown command."

  /**
   * `print_format(ret, format, tm)` applied to an operation's result: an exception
   * the operation raised propagates, and tabulating `None` raises TypeError.
   */
  function Report(r: Result<Reply>, format: Value): (e: seq<Effect>)
  {
    if r.Err? then [Raised(r.exception)]
    else if Truthy(format) && r.value == NoReply then [Raised("TypeError")]
    else [Printed(r.value, Truthy(format))]
  }

  /** The sixteen values `main` resolves, held in its local variables. */
  datatype Settings = Settings(
    format: Value, mode: Value, data: Value, cmd: Value, pycmd: Value, pipcmd: Value,
    modelName: Value, weightFile: Value, inputImage: Value, modelImgSize: Value,
    classTh: Value, nmsTh: Value, outputPreview: Value, onnxFile: Value,
    outputDir: Value, scoreTh: Value)

  /** The values a resolved `opt` holds for the sixteen keys. */
  function SettingsOf(options: map<string, Value>): (s: Settings)
  {
    Settings(
      Get(options, FormatKey), Get(options, ModeKey), Get(options, DataKey), Get(options, CmdKey),
      Get(options, PycmdKey), Get(options, PipcmdKey), Get(options, ModelNameKey),
      Get(options, WeightFileKey), Get(options, InputImageKey),
      Get(options, ModelImgSizeKey), Get(options, ClassThKey),
      Get(options, NmsThKey), Get(options, OutputPreviewKey),
      Get(options, OnnxFileKey), Get(options, OutputDirKey),
      Get(options, ScoreThKey))
  }

  /** The `Yolox` call that the command selects in mode yolox, if any. */
  function Request(s: Settings): Option<Yolox.Operation>
  {
    if s.cmd == Str("install") then Some(Yolox.Install(s.pycmd, s.pipcmd))
    else if s.cmd == Str("zoo") then Some(Yolox.Zoo)
    else if s.cmd == Str("demo") then
      Some(Yolox.Demo(s.modelName, s.weightFile, s.inputImage, s.modelImgSize,
                      s.classTh, s.nmsTh, s.outputPreview, s.pycmd))
    else if s.cmd == Str("convert") then
      // convert is called without pycmd, so its default 'python' applies
      Some(Yolox.Convert(s.modelName, s.weightFile, s.onnxFile, Str("python")))
    else if s.cmd == Str("inference") then
      Some(Yolox.Inference(s.onnxFile, s.inputImage, s.outputDir, s.scoreTh,
                           s.modelImgSize, s.outputPreview, s.pycmd))
    else None
  }

  /** What the dispatch on mode and command prints and issues. */
  datatype Dispatch = Dispatch(effects: seq<Effect>, issued: seq<Yolox.Step>)

  /** The dispatch whose first command, if any, is the n-th issued on `env`. */
  function Dispatched(s: Settings, env: Yolox.Env, n: nat): Dispatch
  {
    if s.mode != Str("yolox") then Dispatch([HelpPrinted], [])
    else
      match Request(s)
      case None => Dispatch([Printed(Warn(UnknownCommand), Truthy(s.format)), HelpPrinted], [])
      case Some(op) => Dispatch(Report(Yolox.Outcome(env, op, n), s.format), Yolox.Issued(env, op, n))
  }

  /** Everything one run of `main` produces: its effects, the commands it issues, and `opt`. */
  datatype Ending = Ending(effects: seq<Effect>, issued: seq<Yolox.Step>, options: map<string, Value>)

  /**
   * What `main` does once `opt` is resolved, given `args.useopt` and `args.saveopt`:
   * the `--saveopt` guard, saving `opt`, and the dispatch.
   */
  function Finished(useopt: Value, saveopt: Value, s: Settings, options: map<string, Value>,
                    env: Yolox.Env, n: nat): Ending
  {
    if Truthy(saveopt) && useopt == NoneVal then
      Ending([Printed(Warn(UseoptMissing), Truthy(s.format)), Exited(1)], [], options)
    else
      var saved := if Truthy(saveopt) then [Saved(useopt, options)] else [];
      var d := Dispatched(s, env, n);
      Ending(saved + d.effects, d.issued, options)
  }

  /**
   * `main` from `opt = common.loadopt(args.useopt)` on, given the parsed arguments,
   * when its first command, if any, is the n-th issued on `env`.
   */
  function Run(args: map<string, Value>, stored: Option<map<string, Value>>, env: Yolox.Env, n: nat): Ending
  {
    var options := Resolution(Loaded(args, stored), args, KeyCount);
    Finished(Get(args, "useopt"), Get(args, "saveopt"), SettingsOf(options), options, env, n)
  }

  /** The run of `main` whose first command, if any, is the n-th issued on `env`. */
  function Expected(home: string, given: map<string, Value>, stored: Option<map<string, Value>>,
                    env: Yolox.Env, n: nat): Ending
  {
    if !Acceptable(given) then Ending([Exited(2)], [], map[])
    else Run(ParsedArgs(home, given), stored, env, n)
  }

  // ---------------------------------------------------------------------------
  // What a run of main guarantees

  /** The `Yolox` method an operation is a call of, as `--cmd` names it. */
  function CommandOf(op: Yolox.Operation): string
  {
    match op
    case Install(_, _) => "install"
    case Zoo => "zoo"
    case Demo(_, _, _, _, _, _, _, _) => "demo"
    case Convert(_, _, _, _) => "convert"
    case Inference(_, _, _, _, _, _, _) => "inference"
  }

  /**
   * In mode yolox a call is made exactly when the command is one of the five that
   * `--cmd` accepts, and it is the call that command names.
   */
  lemma RequestFollowsCommand(s: Settings)
    ensures Request(s).Some? <==> s.cmd.Str? && s.cmd.s in Commands
    ensures Request(s).Some? ==> CommandOf(Request(s).value) == s.cmd.s
  {
    if s.cmd.Str? && s.cmd.s in Commands {
      assert s.cmd.s == "install" || s.cmd.s == "zoo" || s.cmd.s == "demo" || s.cmd.s == "convert"
        || s.cmd.s == "inference";
    }
  }

  /** convert is called without `pycmd`, so the resolved `--pycmd` never reaches it. */
  lemma ConvertIgnoresPycmd(s: Settings, pycmd: Value)
    requires s.cmd == Str("convert")
    ensures Request(s.(pycmd := pycmd)) == Request(s)
    ensures Request(s).Some? && Request(s).value.Convert? && Request(s).value.pycmd == Str("python")
  {
  }

  /**
   * After the sixteen calls `opt` holds the i-th key, and its value, which `main`
   * also keeps in a local variable, is `getopt` applied to the loaded file alone.
   */
  lemma EachCallSeesTheFile(loaded: map<string, Value>, args: map<string, Value>, i: nat)
    requires i < KeyCount
    ensures OptionKey(i) in Resolution(loaded, args, KeyCount)
    ensures Get(Resolution(loaded, args, KeyCount), OptionKey(i)) == Resolve(loaded, OptionKey(i), Table(args), NoneVal)
  {
    LaterCallsKeep(loaded, args, i, KeyCount);
    ResolutionSoFar(loaded, args, i);
    KeyNotBefore(i, i);
    ResolveFreshKey(Resolution(loaded, args, i), loaded, args, KeysBefore(i), OptionKey(i));
  }

  /**
   * The i-th option `main` resolves: a truthy parsed argument, else the loaded
   * file's entry, else the falsy parsed argument itself.
   */
  lemma ResolvedOption(home: string, given: map<string, Value>, loaded: map<string, Value>, i: nat)
    requires i < KeyCount
    ensures var args := ParsedArgs(home, given);
      var key := OptionKey(i);
      var v := Get(Resolution(loaded, args, KeyCount), key);
      && (Truthy(Get(args, key)) ==> v == Get(args, key))
      && (!Truthy(Get(args, key)) && key in loaded ==> v == loaded[key])
      && (!Truthy(Get(args, key)) && key !in loaded ==> v == Get(args, key))
  {
    EachCallSeesTheFile(loaded, ParsedArgs(home, given), i);
  }

  /**
   * An option left off the command line whose argparse default is truthy always
   * takes that default: an entry of the options file never replaces it.
   */
  lemma TruthyDefaultWins(home: string, given: map<string, Value>, loaded: map<string, Value>, i: nat)
    requires i < KeyCount && OptionKey(i) !in given
    requires Truthy(Get(ArgDefaults(home), OptionKey(i)))
    ensures Get(Resolution(loaded, ParsedArgs(home, given), KeyCount), OptionKey(i)) == Get(ArgDefaults(home), OptionKey(i))
  {
    ResolvedOption(home, given, loaded, i);
    assert Get(ParsedArgs(home, given), OptionKey(i)) == Get(ArgDefaults(home), OptionKey(i));
  }

  /** The defaults of the arguments `main` tests before it dispatches: no options file, no saving, no mode, no command. */
  lemma GuardDefaults(home: string)
    ensures var d := ArgDefaults(home);
      && "useopt" in d && d["useopt"] == NoneVal && "saveopt" in d && d["saveopt"] == Bool(false)
      && ModeKey in d && d[ModeKey] == NoneVal && CmdKey in d && d[CmdKey] == NoneVal
  {
  }

  /** `--saveopt` without `--useopt`: a warning and exit status 1, with nothing saved and no command issued. */
  lemma SaveoptNeedsUseopt(args: map<string, Value>, stored: Option<map<string, Value>>, env: Yolox.Env, n: nat)
    requires Truthy(Get(args, "saveopt")) && Get(args, "useopt") == NoneVal
    ensures var e := Run(args, stored, env, n);
      && |e.effects| == 2 && e.effects[0].Printed? && e.effects[0].reply == Warn(UseoptMissing)
      && e.effects[1] == Exited(1) && e.issued == []
  {
  }

  /** With `--saveopt` and `--useopt`, the resolved options are saved to that file before anything else happens. */
  lemma SaveoptSavesResolved(args: map<string, Value>, stored: Option<map<string, Value>>, env: Yolox.Env, n: nat)
    requires Truthy(Get(args, "saveopt")) && Get(args, "useopt") != NoneVal
    ensures var e := Run(args, stored, env, n);
      && e.effects != [] && e.effects[0] == Saved(Get(args, "useopt"), e.options)
      && e.options == Resolution(Loaded(args, stored), args, KeyCount)
  {
  }

  /**
   * With no mode among the arguments and no mode 'yolox' in the options file,
   * `main` prints its help and issues nothing.
   */
  lemma OtherModeOnlyHelp(args: map<string, Value>, stored: Option<map<string, Value>>, env: Yolox.Env, n: nat)
    requires !Truthy(Get(args, "saveopt")) && !Truthy(Get(args, ModeKey))
    requires stored.None? || ModeKey !in stored.value || stored.value[ModeKey] != Str("yolox")
    ensures var e := Run(args, stored, env, n);
      e.effects == [HelpPrinted] && e.issued == []
  {
    var loaded := Loaded(args, stored);
    EachCallSeesTheFile(loaded, args, 1);
  }

  /**
   * With `--mode yolox` and one of the five commands among the arguments, `main`
   * calls the `Yolox` method that command names, whatever the options file holds,
   * and prints what it returns.
   */
  lemma GivenCommandDispatched(args: map<string, Value>, stored: Option<map<string, Value>>, env: Yolox.Env, n: nat)
    requires !Truthy(Get(args, "saveopt")) && Get(args, ModeKey) == Str("yolox")
    requires Get(args, CmdKey).Str? && Get(args, CmdKey).s in Commands
    ensures var s := SettingsOf(Resolution(Loaded(args, stored), args, KeyCount));
      var e := Run(args, stored, env, n);
      && Request(s).Some? && CommandOf(Request(s).value) == Get(args, CmdKey).s
      && e.effects == Report(Yolox.Outcome(env, Request(s).value, n), s.format)
      && e.issued == Yolox.Issued(env, Request(s).value, n)
  {
    var loaded := Loaded(args, stored);
    var s := SettingsOf(Resolution(loaded, args, KeyCount));
    assert Get(args, CmdKey).s != [];
    EachCallSeesTheFile(loaded, args, 1);
    EachCallSeesTheFile(loaded, args, 3);
    RequestFollowsCommand(s);
  }

  /**
   * In mode yolox with no command among the arguments and none the options file
   * can supply, `main` warns of an unknown command, prints its help and issues nothing.
   */
  lemma MissingCommandWarns(args: map<string, Value>, stored: Option<map<string, Value>>, env: Yolox.Env, n: nat)
    requires !Truthy(Get(args, "saveopt")) && Get(args, ModeKey) == Str("yolox") && !Truthy(Get(args, CmdKey))
    requires stored.None? || CmdKey !in stored.value || !(stored.value[CmdKey].Str? && stored.value[CmdKey].s in Commands)
    ensures var e := Run(args, stored, env, n);
      && |e.effects| == 2 && e.effects[0].Printed? && e.effects[0].reply == Warn(UnknownCommand)
      && e.effects[1] == HelpPrinted && e.issued == []
  {
    var loaded := Loaded(args, stored);
    var s := SettingsOf(Resolution(loaded, args, KeyCount));
    EachCallSeesTheFile(loaded, args, 1);
    EachCallSeesTheFile(loaded, args, 3);
    assert !(s.cmd.Str? && s.cmd.s in Commands);
    RequestFollowsCommand(s);
  }

  /**
   * `getopt(opt, key, preval=args_dict, withset=True)` for the i-th key `main`
   * resolves, given that the first i are resolved already.
   */
  method GetOptInTurn(opt: OptionSet, i: nat, args: map<string, Value>, ghost loaded: map<string, Value>)
    returns (v: Value)
    requires i < KeyCount
    requires opt.entries == Resolution(loaded, args, i)
    modifies opt
    ensures opt.entries == Resolution(loaded, args, i + 1)
    ensures v == Get(Resolution(loaded, args, KeyCount), OptionKey(i))
  {
    v := opt.GetOpt(OptionKey(i), Table(args), NoneVal, true);
    LaterCallsKeep(loaded, args, i, KeyCount);
  }

  /** The sixteen `getopt` calls at the start of `main`, on the `opt` it loaded. */
  method ResolveOptions(opt: OptionSet, args: map<string, Value>) returns (s: Settings)
    modifies opt
    ensures opt.entries == Resolution(old(opt.entries), args, KeyCount)
    ensures s == SettingsOf(opt.entries)
  {
    ghost var loaded := opt.entries;
    var format, mode, data, cmd, pycmd, pipcmd := ResolveGeneral(opt, args, loaded);
    var modelName, weightFile, inputImage, modelImgSize := ResolveYoloxModel(opt, args, loaded);
    var classTh, nmsTh, outputPreview := ResolveYoloxDetection(opt, args, loaded);
    var onnxFile, outputDir, scoreTh := ResolveYoloxOutput(opt, args, loaded);
    s := Settings(format, mode, data, cmd, pycmd, pipcmd, modelName, weightFile, inputImage,
                  modelImgSize, classTh, nmsTh, outputPreview, onnxFile, outputDir, scoreTh);
  }

  /** The first six calls: the options every mode uses. */
  method ResolveGeneral(opt: OptionSet, args: map<string, Value>, ghost loaded: map<string, Value>)
    returns (format: Value, mode: Value, data: Value, cmd: Value, pycmd: Value, pipcmd: Value)
    requires opt.entries == Resolution(loaded, args, 0)
    modifies opt
    ensures opt.entries == Resolution(loaded, args, 6)
    ensures var final := Resolution(loaded, args, KeyCount);
      && format == Get(final, FormatKey) && mode == Get(final, ModeKey) && data == Get(final, DataKey)
      && cmd == Get(final, CmdKey) && pycmd == Get(final, PycmdKey) && pipcmd == Get(final, PipcmdKey)
  {
    format := GetOptInTurn(opt, 0, args, loaded);
    mode := GetOptInTurn(opt, 1, args, loaded);
    data := GetOptInTurn(opt, 2, args, loaded);
    cmd := GetOptInTurn(opt, 3, args, loaded);
    pycmd := GetOptInTurn(opt, 4, args, loaded);
    pipcmd := GetOptInTurn(opt, 5, args, loaded);
  }

  /** Calls seven to ten: the model options of mode yolox. */
  method ResolveYoloxModel(opt: OptionSet, args: map<string, Value>, ghost loaded: map<string, Value>)
    returns (modelName: Value, weightFile: Value, inputImage: Value, modelImgSize: Value)
    requires opt.entries == Resolution(loaded, args, 6)
    modifies opt
    ensures opt.entries == Resolution(loaded, args, 10)
    ensures var final := Resolution(loaded, args, KeyCount);
      && modelName == Get(final, ModelNameKey) && weightFile == Get(final, WeightFileKey)
      && inputImage == Get(final, InputImageKey) && modelImgSize == Get(final, ModelImgSizeKey)
  {
    modelName := GetOptInTurn(opt, 6, args, loaded);
    weightFile := GetOptInTurn(opt, 7, args, loaded);
    inputImage := GetOptInTurn(opt, 8, args, loaded);
    modelImgSize := GetOptInTurn(opt, 9, args, loaded);
  }

  /** Calls eleven to thirteen: the detection options of mode yolox. */
  method ResolveYoloxDetection(opt: OptionSet, args: map<string, Value>, ghost loaded: map<string, Value>)
    returns (classTh: Value, nmsTh: Value, outputPreview: Value)
    requires opt.entries == Resolution(loaded, args, 10)
    modifies opt
    ensures opt.entries == Resolution(loaded, args, 13)
    ensures var final := Resolution(loaded, args, KeyCount);
      && classTh == Get(final, ClassThKey) && nmsTh == Get(final, NmsThKey)
      && outputPreview == Get(final, OutputPreviewKey)
  {
    classTh := GetOptInTurn(opt, 10, args, loaded);
    nmsTh := GetOptInTurn(opt, 11, args, loaded);
    outputPreview := GetOptInTurn(opt, 12, args, loaded);
  }

  /** The last three calls: the output options of mode yolox. */
  method ResolveYoloxOutput(opt: OptionSet, args: map<string, Value>, ghost loaded: map<string, Value>)
    returns (onnxFile: Value, outputDir: Value, scoreTh: Value)
    requires opt.entries == Resolution(loaded, args, 13)
    modifies opt
    ensures opt.entries == Resolution(loaded, args, KeyCount)
    ensures var final := Resolution(loaded, args, KeyCount);
      && onnxFile == Get(final, OnnxFileKey) && outputDir == Get(final, OutputDirKey) && scoreTh == Get(final, ScoreThKey)
  {
    onnxFile := GetOptInTurn(opt, 13, args, loaded);
    outputDir := GetOptInTurn(opt, 14, args, loaded);
    scoreTh := GetOptInTurn(opt, 15, args, loaded);
  }

  /**
   * `main(HOME_DIR)`, given the arguments on the command line and the content of
   * the options file (None when there is no such file).
   */
  method RunMain(home: string, given: map<string, Value>, stored: Option<map<string, Value>>, host: Yolox.Host)
    returns (effects: seq<Effect>, options: map<string, Value>)
    modifies host
    ensures var e := Expected(home, given, stored, host.env, |old(host.issued)|);
      && effects == e.effects
      && host.issued == old(host.issued) + e.issued
      && options == e.options
  {
    if !Acceptable(given) {
      // argparse prints its usage and exits with status 2
      return [Exited(2)], map[];
    }
    var args := ParsedArgs(home, given);
    GuardDefaults(home);
    effects, options := RunParsed(args, stored, host);
  }

  /** `main` from `opt = common.loadopt(args.useopt)` on, given the parsed arguments. */
  method RunParsed(args: map<string, Value>, stored: Option<map<string, Value>>, host: Yolox.Host)
    returns (effects: seq<Effect>, options: map<string, Value>)
    requires "useopt" in args && "saveopt" in args
    modifies host
    ensures var e := Run(args, stored, host.env, |old(host.issued)|);
      && effects == e.effects
      && host.issued == old(host.issued) + e.issued
      && options == e.options
  {
    var opt := new OptionSet(Loaded(args, stored));
    var s := ResolveOptions(opt, args);
    options := opt.entries;
    effects := Finish(args["useopt"], args["saveopt"], s, options, host);
  }

  /** The rest of `main`, from `if args.saveopt:` on. */
  method Finish(useopt: Value, saveopt: Value, s: Settings, options: map<string, Value>, host: Yolox.Host)
    returns (effects: seq<Effect>)
    modifies host
    ensures var e := Finished(useopt, saveopt, s, options, host.env, |old(host.issued)|);
      effects == e.effects && host.issued == old(host.issued) + e.issued
  {
    effects := [];
    if Truthy(saveopt) {
      if useopt == NoneVal {
        // exit(1)
        return [Printed(Warn(UseoptMissing), Truthy(s.format)), Exited(1)];
      }
      effects := [Saved(useopt, options)];
    }
    var tail := DispatchOn(s, host);
    effects := effects + tail;
  }

  /** The `if mode == 'yolox'` chain at the end of `main`. */
  method DispatchOn(s: Settings, host: Yolox.Host) returns (effects: seq<Effect>)
    modifies host
    ensures var d := Dispatched(s, host.env, |old(host.issued)|);
      effects == d.effects && host.issued == old(host.issued) + d.issued
  {
    if s.mode == Str("yolox") {
      var y := new Yolox.Yolox(host);
      var r: Result<Reply>;
      if s.cmd == Str("install") {
        r := y.Install(s.pycmd, s.pipcmd);
      } else if s.cmd == Str("zoo") {
        r := y.Zoo();
      } else if s.cmd == Str("demo") {
        r := y.Demo(s.modelName, s.weightFile, s.inputImage, s.modelImgSize, s.classTh, s.nmsTh, s.outputPreview, s.pycmd);
      } else if s.cmd == Str("convert") {
        r := y.Convert(s.modelName, s.weightFile, s.onnxFile, Str("python"));
      } else if s.cmd == Str("inference") {
        r := y.Inference(s.onnxFile, s.inputImage, s.outputDir, s.scoreTh, s.modelImgSize, s.outputPreview, s.pycmd);
      } else {
        return [Printed(Warn(UnknownCommand), Truthy(s.format)), HelpPrinted];
      }
      effects := Report(r, s.format);
    } else {
      effects := [HelpPrinted];
    }
  }
}
