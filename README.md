# pth2onnx in Dafny

A model of the decision logic of `pth2onnx`, a command-line wrapper that installs
the YOLOX object-detection toolkit, runs its demo, converts its PyTorch weights to
ONNX and runs ONNX inference, all by shelling out. The model covers three parts:

- **Option resolution.** `getopt` picks a value for an option from the parsed
  command line, the persisted options file and a default. It uses Python
  truthiness, and with `withset` it writes the result back into the option dict.
  `Common.OptionSet` is that dict, and `OptionSet.GetOpt` is the call, proved
  against the reference function `Common.Resolve`.
- **Newest-file selection.** `find_max_update_file` is modelled as the argmax of
  `max(d, key=d.get)` over the dict a listing of `(path, mtime)` pairs builds.
- **The `Yolox` operations** (`install`, `zoo`, `demo`, `convert`, `inference`).
  They run over a `Host`, which stands for the shell: an oracle of return codes,
  indexed by how many commands have been issued, plus a log of issued commands.
  Whether `./YOLOX` and `./YOLOX/.venv` exist, the platform, and the JPEG files a
  glob lists are inputs (`Yolox.Env`). Each method is proved against `Plan`,
  `Execute` and `Outcome`: which commands it issues, in which order, and what it
  returns.
- **`main`** (`App.RunMain`). It covers the argparse defaults and choices, the
  sixteen successive `getopt(..., withset=True)` calls, the `--saveopt` guard and
  the mode and command dispatch. The reference function is `App.Expected`.
  `App.Run` is the same run from the loaded options file on.

Supporting modules:

- `Values`: Python values and their truthiness and `str()`.
- `Paths`: the slice of POSIX `pathlib` that is used.
- `Decimal`: `str()` of an int, with a parser as its partner.
- `Wrappers`: `Option` and `Result`. A `Result` error is a raised exception, by name.

A reader of `getopt` expects a three-tier precedence (`Common.ThreeTier`): an
explicit argument, else the persisted value, else the default. The code does not
quite follow it. argparse fills every declared option with its default before
`getopt` runs, so an option left off the command line whose default is truthy
(`--pycmd python`, `--yolox_input_image assets/dog.jpg`, ...) always takes that
default, and the options file only supplies options whose parsed value is falsy.
The model follows the code. `Common.TruthyDefaultBeatsPersisted` states the
difference for `getopt` itself, and `App.TruthyDefaultWins` states it for `main`.

## Model

| member | source | states |
|---|---|---|
| Common.Candidate | pth2onnx/app/common.py:86-89 | defines the value getopt looks at first: preval.get(key, defval) for a dict preval, preval itself otherwise |
| Common.Resolve | pth2onnx/app/common.py:86-100 | defines getopt's result: with preval, the candidate unless it is falsy and opt holds the key, then opt[key]; without preval, opt[key] else defval |
| Common.ResolveCases | pth2onnx/app/common.py:86-100 | the seven cases of getopt's result: a truthy dict entry wins; a dict without the key offers defval, which wins when truthy; a truthy non-dict preval is returned; a falsy candidate falls back on opt[key] when present and is itself returned otherwise; without preval, opt[key] else defval |
| Common.ResolveFollowsThreeTierPrecedence | pth2onnx/app/common.py:86-96 | when the preferred dict holds the key, getopt agrees with the three-tier precedence (truthy argument, else persisted, else default), except that a falsy argument with nothing persisted is returned itself |
| Common.TruthyDefaultBeatsPersisted | pth2onnx/app/common.py:88-91 | for every opt, key and preferred dict without the key: a truthy defval beats the persisted opt[key], where the three-tier precedence would return the persisted one |
| Common.OptionSet.GetOpt | pth2onnx/app/common.py:72-100 | returns Resolve of the old dict; with preval and withset exactly key is rewritten with the result; with preval None a present key leaves opt unchanged and a missing one gains only key ↦ defval; without withset opt never changes |
| Common.Store | pth2onnx/app/common.py:242 | defines one `d[fpath] = mtime` of the comprehension on an insertion-ordered dict: an existing path keeps its place with the new mtime, a new one goes last |
| Common.StoreAll | pth2onnx/app/common.py:242 | defines the comprehension's loop: each listed file stored in listing order |
| Common.Tabulate | pth2onnx/app/common.py:241-242 | defines `file_updates`, the comprehension's dict over the glob's listing, as its ordered list of entries |
| Common.StoreNames | pth2onnx/app/common.py:242 | storing one file into the comprehension's dict adds its path and keeps every path already there |
| Common.StoreDistinct | pth2onnx/app/common.py:242 | storing a file keeps the dict's paths unique |
| Common.StoreAppendsNew | pth2onnx/app/common.py:242 | a file under a new path is appended at the end, as an insertion-ordered dict does |
| Common.StoreAllNames | pth2onnx/app/common.py:242 | the comprehension's dict holds exactly the listed paths |
| Common.StoreAllDistinct | pth2onnx/app/common.py:242 | the comprehension's dict never holds a path twice |
| Common.StoreAllAppends | pth2onnx/app/common.py:242 | with no repeated paths, the comprehension's dict lists the files in their listed order |
| Common.TabulateFacts | pth2onnx/app/common.py:241-242 | the dict has unique paths, the same paths as the listing, equals the listing when no path repeats, and is empty exactly when the listing is |
| Common.NewestIndex | pth2onnx/app/common.py:243 | the index max(d, key=d.get) picks: an entry whose mtime is at least every other, and the first such |
| Common.FindMaxUpdateFile | pth2onnx/app/common.py:230-244 | fails with ValueError exactly on an empty listing; otherwise returns a listed path, the first in dict order whose mtime no other entry exceeds |
| Common.NewestOfListing | pth2onnx/app/common.py:241-244 | for a listing without repeated paths, the result is the first listed file whose mtime is at least every other file's |
| Values.Truthy | pth2onnx/app/common.py:90 | defines Python truthiness as `v is None or not v` reads it: None, False, 0, "0.0"/"-0.0" and "" are falsy, every path is truthy |
| Values.Show | pth2onnx/app/convert/yolox.py:103-104 | defines `str(v)`, what an f-string interpolates into a command line or reply |
| Values.AsPath | pth2onnx/app/convert/yolox.py:98-99 | defines `Path(v) if isinstance(v, str) else v`, applied to weight_file and input_image here and at lines 134-135 and 169-171 |
| Decimal.IntToString | pth2onnx/app/convert/yolox.py:33-34 | str(i) for the return code interpolated into an error: non-empty, with a leading '-' exactly for negatives |
| Decimal.IntRoundTrip | pth2onnx/app/convert/yolox.py:33-34 | reading back str(i) gives i |
| Decimal.IntToStringInjective | pth2onnx/app/convert/yolox.py:33-34 | distinct return codes print differently |
| Paths.RootOf | pth2onnx/app/convert/yolox.py:98 | defines the root Path(s) takes: none without a leading slash, "//" for exactly two slashes, "/" otherwise |
| Paths.Render | pth2onnx/app/convert/yolox.py:142 | defines `str(p)` as interpolated into commands and replies: root text, components joined by "/", "." for the empty relative path |
| Paths.Parse | pth2onnx/app/convert/yolox.py:98 | Path(s) is well formed: no empty, "." or slash-containing component; its root is none, "/" or "//" |
| Paths.Parent | pth2onnx/app/convert/yolox.py:141 | .parent keeps the root and drops exactly the last component; a bare root and "." are their own parents |
| Paths.Join | pth2onnx/app/convert/yolox.py:141 | p / q is q when q has a root and otherwise p's root with p's components followed by q's; it keeps paths well formed |
| Paths.ParseRender | pth2onnx/app/convert/yolox.py:98 | building a path from str(p) gives p back for every well-formed p |
| Paths.RenderNormalizes | pth2onnx/app/convert/yolox.py:134-135 | str(Path(s)) is a normal form: Path(str(Path(s))) == Path(s) |
| Paths.ParseComponent | pth2onnx/app/convert/yolox.py:141 | Path(model_name + '.onnx') is a one-component relative path when the name holds no slash and is neither empty nor "." |
| Paths.DoubleSlashRootKept | pth2onnx/app/convert/yolox.py:98 | a path that starts with exactly two slashes keeps "//" as its root and prints it back; three or more slashes are the root "/" |
| Yolox.FailedMessage | pth2onnx/app/convert/yolox.py:33-34 | defines the "<phase> failed. returncode=<code>" message, shared by lines 39-62, 106-107, 144-145 and 178-179 |
| Yolox.Activation | pth2onnx/app/convert/yolox.py:42 | defines the activation prefix: `.venv\Scripts\activate.bat` on Windows, `. .venv/bin/activate` for install on POSIX, `.venv/Scripts/activate` for the other operations (lines 101, 137, 173) |
| Yolox.Invocation | pth2onnx/app/convert/yolox.py:31-62 | defines the command each step runs after the activation: install's clone, venv and pip commands, demo at lines 103-104, export at 142, inference at 175-176 |
| Yolox.CommandLine | pth2onnx/app/convert/yolox.py:42-62 | defines the command line a logged step stands for: activation, " && ", then the command, for every step but the clone and the venv creation |
| Yolox.WorkDir | pth2onnx/app/convert/yolox.py:31-37 | defines where a step runs: the clone in the current directory, every other command with cwd=./YOLOX |
| Yolox.FailedMessageNamesCode | pth2onnx/app/convert/yolox.py:105-107 | two "... failed. returncode=c" messages of one phase are equal only for equal codes |
| Yolox.Host.Run | pth2onnx/app/common.py:200-228 | the runner logs the step and returns the oracle's code for the command's position in the run |
| Yolox.Execute | pth2onnx/app/convert/yolox.py:29-64 | the issued steps are never more than the plan, and a non-empty plan always issues its first step |
| Yolox.Failure | pth2onnx/app/convert/yolox.py:31-62 | a reported failure code is never 0 |
| Yolox.SucceededMeans | pth2onnx/app/convert/yolox.py:29-64 | the recursive "every command returned 0" predicate holds exactly when every code in the range is 0 |
| Yolox.ExecuteIsPrefix | pth2onnx/app/convert/yolox.py:29-64 | what a run issues is a prefix of its plan |
| Yolox.ExecuteStopsAtFirstFailure | pth2onnx/app/convert/yolox.py:29-64 | a run issues its whole plan exactly when nothing fails; otherwise it issues the steps up to the first failing one, all before it returned 0, and reports its code |
| Yolox.ExecuteStopsAtFailure | pth2onnx/app/convert/yolox.py:29-64 | a failure after k successes issues exactly the first k + 1 steps and reports that code |
| Yolox.ExecuteRunsAll | pth2onnx/app/convert/yolox.py:29-64 | when every step returns 0 the whole plan is issued and nothing fails |
| Yolox.ExecuteAfterSuccess | pth2onnx/app/convert/yolox.py:29-64 | after a phase that runs to the end, the next phase runs as if alone, and fails as it does |
| Yolox.ExecuteAfterFailure | pth2onnx/app/convert/yolox.py:29-64 | a phase that fails stops every later phase from issuing anything |
| Yolox.SetupSteps | pth2onnx/app/convert/yolox.py:29-40 | defines install's first phase: the clone unless ./YOLOX exists, then venv creation with pycmd unless .venv exists |
| Yolox.PackageSteps | pth2onnx/app/convert/yolox.py:44-62 | defines install's four pip commands, in source order, with pipcmd interpolated |
| Yolox.InstallPlan | pth2onnx/app/convert/yolox.py:29-62 | defines install's plan: the setup phase followed by the package phase |
| Yolox.DemoStep | pth2onnx/app/convert/yolox.py:98-104 | defines demo's command from its arguments, weight_file and input_image coerced to paths |
| Yolox.OnnxOutput | pth2onnx/app/convert/yolox.py:134-141 | defines convert's output path: the given one coerced to a path, else weight_file.parent / (model_name + '.onnx'), raising AttributeError or TypeError when that cannot be formed |
| Yolox.ExportStep | pth2onnx/app/convert/yolox.py:142 | defines convert's export command |
| Yolox.InferenceStep | pth2onnx/app/convert/yolox.py:169-176 | defines inference's command, its path arguments coerced |
| Yolox.InferenceOutputs | pth2onnx/app/convert/yolox.py:180 | defines `cwd / output_dir`, raising TypeError unless output_dir is a path |
| Yolox.Plan | pth2onnx/app/convert/yolox.py:29-179 | defines the commands each operation would issue if all succeeded: install's plan, none for zoo, one for demo, convert and inference when installed (none for convert when its output path raises) |
| Yolox.Issued | pth2onnx/app/convert/yolox.py:29-179 | defines what an operation issues: its plan executed up to the first failure |
| Yolox.InstallOutcome | pth2onnx/app/convert/yolox.py:31-64 | defines install's reply: "Install failed. returncode=c" for the first failing code, else "Install successed." |
| Yolox.Outcome | pth2onnx/app/convert/yolox.py:18-186 | defines each operation's return value or raised exception: not-installed error, failure message, ValueError of an empty listing, the outfile reply, None for inference without preview |
| Yolox.DefaultOnnxBesideWeights | pth2onnx/app/convert/yolox.py:140-141 | without an output file the ONNX path is well formed, has the weight file's parent as its parent, and ends in model_name + '.onnx' |
| Yolox.InstallCommandOrder | pth2onnx/app/convert/yolox.py:29-62 | install plans the clone exactly when ./YOLOX is absent (first), venv creation exactly when .venv is absent, then always pip upgrade, requirements, onnxruntime and the editable install, in that order |
| Yolox.CommandsActivateEnvironment | pth2onnx/app/convert/yolox.py:42-62 | every planned command but the clone and venv creation starts with the activation: `. .venv/bin/activate &&` for install's pip commands, `.venv/Scripts/activate &&` for demo, convert and inference (lines 101, 137, 173), `.venv\Scripts\activate.bat &&` on Windows; demo, convert and inference run only in ./YOLOX |
| Yolox.InstallReportsFirstFailure | pth2onnx/app/convert/yolox.py:31-64 | install reports success exactly when every planned command returns 0; otherwise "Install failed. returncode=c", where c is the code of the last command issued, which failed |
| Yolox.FirstFailureReported | pth2onnx/app/convert/yolox.py:31-64 | a plan fails exactly when some code in its range is non-zero, and then reports the code of the last step issued |
| Yolox.ZooIssuesNothing | pth2onnx/app/convert/yolox.py:67-74 | zoo issues no command and returns the benchmark site |
| Yolox.NotInstalledIssuesNothing | pth2onnx/app/convert/yolox.py:94-97 | demo, convert and inference (the same check at lines 130-133 and 165-168) issue nothing and return the not-installed error when ./YOLOX or its .venv is missing |
| Yolox.SingleCommandOperations | pth2onnx/app/convert/yolox.py:103-107 | installed, demo and inference (lines 175-179) issue exactly one command, and a non-zero code c is "Demo failed. returncode=c" / "Onnx inference failed. returncode=c" |
| Yolox.ConvertCommand | pth2onnx/app/convert/yolox.py:140-145 | installed, convert issues one command when its output path can be formed and none when forming it raises; a non-zero code c is "Convert failed. returncode=c" |
| Yolox.ConvertReportsDefaultOutput | pth2onnx/app/convert/yolox.py:140-146 | a successful convert without an output file replies outfile=<weight_file.parent / (model_name + '.onnx')> |
| Yolox.InferenceRepliesOnlyWithPreview | pth2onnx/app/convert/yolox.py:180-186 | inference replies with success only when output_preview is truthy; after a successful command without preview it returns None (or raises) |
| Yolox.DemoIgnoresPreview | pth2onnx/app/convert/yolox.py:108-114 | demo returns the same result with and without preview |
| Yolox.InstallStopsInSetup | pth2onnx/app/convert/yolox.py:29-40 | a failing clone or venv creation is all of install that runs, and its code is install's failure |
| Yolox.InstallContinuesAfterSetup | pth2onnx/app/convert/yolox.py:36-64 | after a successful setup phase, install's log is the setup followed by the package phase, and install fails as the package phase does |
| Yolox.ProgressAdvance | pth2onnx/app/convert/yolox.py:44-47 | a command that returns 0 extends the issued prefix of the plan by that step |
| Yolox.ProgressFails | pth2onnx/app/convert/yolox.py:44-47 | a command that returns non-zero ends the run: the log is exactly what Execute issues, and its code is the failure |
| Yolox.ProgressCompletes | pth2onnx/app/convert/yolox.py:59-64 | when every step returned 0, the log is the whole plan and nothing failed |
| Yolox.Yolox.RunPlanned | pth2onnx/app/convert/yolox.py:44-47 | one command-then-check block: the code is the oracle's; non-zero ends the plan with exactly Execute's log and that failure; zero extends the progress |
| Yolox.Yolox.Prepare | pth2onnx/app/convert/yolox.py:29-40 | the setup phase issues exactly Execute(SetupSteps) and returns 0 exactly when it does not fail, otherwise the failing code |
| Yolox.Yolox.InstallPackages | pth2onnx/app/convert/yolox.py:42-62 | the package phase issues exactly Execute(PackageSteps) and returns its failure code or 0 |
| Yolox.Yolox.Install | pth2onnx/app/convert/yolox.py:18-64 | install issues exactly Execute(InstallPlan) and returns InstallOutcome; with InstallCommandOrder and InstallReportsFirstFailure this is the order and first-failure behaviour |
| Yolox.Yolox.Zoo | pth2onnx/app/convert/yolox.py:67-74 | zoo returns Outcome(Zoo) and changes nothing |
| Yolox.Yolox.Demo | pth2onnx/app/convert/yolox.py:77-114 | demo issues exactly Issued(Demo) and returns Outcome(Demo): not-installed error, the failure message, ValueError for an empty output listing, or outfile=<newest jpg> |
| Yolox.Yolox.Convert | pth2onnx/app/convert/yolox.py:117-146 | convert issues exactly Issued(Convert) and returns Outcome(Convert), including the default output path and the exceptions forming it can raise |
| Yolox.Yolox.Inference | pth2onnx/app/convert/yolox.py:149-186 | inference issues exactly Issued(Inference) and returns Outcome(Inference), None without preview |
| App.ArgDefault | pth2onnx/app/app.py:11-29 | defines the argparse default of each declared argument |
| App.ArgDefaults | pth2onnx/app/app.py:11-29 | defines the defaults argparse stores for every declared argument |
| App.Acceptable | pth2onnx/app/app.py:10-31 | defines the command lines parse_args accepts: declared arguments only, --mode among ['yolox'], --cmd among the five commands |
| App.ParsedArgs | pth2onnx/app/app.py:31-32 | defines `vars(args)`: the given values over the defaults |
| App.Loaded | pth2onnx/app/common.py:67-70 | defines `loadopt(args.useopt)` (app.py:33): an empty dict without a useopt path or without the file, else the file's content |
| App.OptionKey | pth2onnx/app/app.py:34-49 | defines the key of the i-th getopt call, in source order |
| App.Resolution | pth2onnx/app/app.py:34-49 | defines opt after the first i `getopt(opt, key, preval=args_dict, withset=True)` calls, each reading what the previous left |
| App.Independently | pth2onnx/app/app.py:34-49 | defines the reference the sequential calls are compared with: each key resolved against the loaded file alone, other entries kept |
| App.ParsedArgsComplete | pth2onnx/app/app.py:10-32 | for an accepted command line, args_dict holds exactly the nineteen declared arguments, each given value kept and each other argument at its argparse default |
| App.GuardDefaults | pth2onnx/app/app.py:11-17 | the argparse defaults of --useopt, --mode and --cmd are None and of --saveopt is False |
| App.KeyNotBefore | pth2onnx/app/app.py:34-49 | the sixteen keys are distinct: no call's key is among the keys of earlier calls |
| App.ResolutionSoFar | pth2onnx/app/app.py:34-49 | after i calls opt holds the loaded entries plus the first i keys, each resolved against the loaded file alone |
| App.ResolutionIsIndependent | pth2onnx/app/app.py:34-49 | the sixteen calls made one after the other leave opt exactly as Independently: each key resolved against the loaded file alone, every other loaded entry kept |
| App.LaterCallsKeep | pth2onnx/app/app.py:34-49 | once a call has written its key no later call rewrites it |
| App.EachCallSeesTheFile | pth2onnx/app/app.py:33-49 | after the block opt holds each of the sixteen keys, and its value, the one main keeps in its local variable, is getopt against the loaded file alone |
| App.ResolvedOption | pth2onnx/app/app.py:34-49 | each resolved option is its truthy parsed value, else the file's entry, else the falsy parsed value itself |
| App.TruthyDefaultWins | pth2onnx/app/app.py:34-49 | an option left off the command line with a truthy argparse default resolves to that default whatever the options file holds |
| App.Report | pth2onnx/app/common.py:148-159 | defines print_format's effect on an operation's result: an exception propagates, tabulating None raises TypeError, otherwise the reply is printed, tabulated when format is truthy |
| App.SettingsOf | pth2onnx/app/app.py:34-49 | defines main's sixteen local variables from the resolved opt |
| App.Request | pth2onnx/app/app.py:62-81 | defines the Yolox call each command selects, with convert called without pycmd |
| App.Dispatched | pth2onnx/app/app.py:59-88 | defines the dispatch: help without mode yolox, the selected call's printed result and commands, or the unknown-command warning and help |
| App.Finished | pth2onnx/app/app.py:53-88 | defines the rest of main: the --saveopt guard (warning, exit 1), the save, then the dispatch |
| App.Run | pth2onnx/app/app.py:33-88 | defines main from loadopt on, given the parsed arguments |
| App.Expected | pth2onnx/app/app.py:9-88 | defines a whole run of main: exit 2 for a command line argparse rejects, otherwise Run on vars(args) |
| App.RequestFollowsCommand | pth2onnx/app/app.py:62-85 | in mode yolox a Yolox call is made exactly when cmd is one of the five choices, and it is the call that command names |
| App.ConvertIgnoresPycmd | pth2onnx/app/app.py:75-76 | convert is called with pycmd 'python' whatever the resolved pycmd is |
| App.SaveoptNeedsUseopt | pth2onnx/app/app.py:53-56 | --saveopt without --useopt prints the warning and exits with status 1, saving nothing and issuing no command |
| App.SaveoptSavesResolved | pth2onnx/app/app.py:53-57 | with --saveopt and --useopt the first effect is saving the resolved opt to the useopt path |
| App.OtherModeOnlyHelp | pth2onnx/app/app.py:59-88 | with --saveopt off, no mode among the arguments and no mode 'yolox' in the options file, main prints only its help and issues nothing |
| App.GivenCommandDispatched | pth2onnx/app/app.py:59-81 | with --saveopt off, mode yolox and one of the five commands among the arguments, main calls the Yolox method that command names, whatever the options file holds, prints its result and issues exactly that call's commands |
| App.MissingCommandWarns | pth2onnx/app/app.py:83-85 | with --saveopt off, mode yolox, no command among the arguments and no valid one in the file, main prints "Unkown command." and its help and issues nothing |
| App.GetOptInTurn | pth2onnx/app/app.py:34-49 | the i-th getopt call extends the resolution by its key and returns the value the key holds after all sixteen calls |
| App.ResolveGeneral | pth2onnx/app/app.py:34-39 | the first six calls: opt advances six keys; each local equals opt's final entry |
| App.ResolveYoloxModel | pth2onnx/app/app.py:40-43 | calls seven to ten, likewise |
| App.ResolveYoloxDetection | pth2onnx/app/app.py:44-46 | calls eleven to thirteen, likewise |
| App.ResolveYoloxOutput | pth2onnx/app/app.py:47-49 | the last three calls, likewise, ending at the full resolution |
| App.ResolveOptions | pth2onnx/app/app.py:34-49 | opt ends as the sixteen-call resolution of the loaded dict, and the sixteen locals are its entries |
| App.RunMain | pth2onnx/app/app.py:9-88 | main's effects, issued commands and final opt are those of Expected: exit 2 for a rejected command line, otherwise Run on the parsed arguments |
| App.RunParsed | pth2onnx/app/app.py:33-88 | from loadopt on, the effects, commands and opt are those of Run |
| App.Finish | pth2onnx/app/app.py:53-88 | the saveopt guard, the save and the dispatch produce Finished's effects and commands |
| App.DispatchOn | pth2onnx/app/app.py:59-88 | the mode/cmd chain produces Dispatched's effects and issues exactly the chosen operation's commands |

## Left out

- `common.cmd` spawns a subprocess, pipes its output and tries several encodings. It is replaced by `Yolox.Host`, whose return codes come from an oracle; the command output is not modelled.
- `loadopt` and `saveopt` read and write JSON. The file's content is an input (`stored`, None when there is no file) and saving is the effect `Saved`. JSON round-tripping and the encoding of paths as strings are not modelled.
- `load_config` and the loggers: YAML resources and logging configuration, with no effect on results.
- `print_format` is the effect `Printed(reply, tabular)`. The tabulate layout and the elapsed time it prints (read from the clock) are not modelled. Its TypeError when tabulating None is modelled.
- The image, numpy and base64 helpers, `draw_boxes`, `download_file`, `random_string`, `mkdirs` and `rmdirs`: library wrappers, network, randomness and file system, outside the core.
- The preview in demo and inference: opening and decoding the newest file, `cv2.imshow` and the blocking `cv2.waitKey(0)` are not modelled, nor the exceptions they can raise (no display, an unreadable image). `Yolox.DemoIgnoresPreview` and `Yolox.InferenceRepliesOnlyWithPreview` hold under that abstraction.
- Floats are kept as their `repr` text, since they are only interpolated into command lines. Truthiness treats "0.0" and "-0.0" as false.
- argparse type conversion: `--timeout` (`type=int`, never resolved) and the parsing of values from text. The given arguments arrive as values already.
- argparse's usage and error text: a rejected command line is only `Exited(2)`. The built-in `-h`/`--help` (print help, exit 0) is not modelled; `Acceptable` has no such argument.
- Windows path rules: paths follow POSIX `pathlib`. The platform only selects the activation prefix.
- File-system existence: `./YOLOX` and `.venv` are observed flags. install's second check reads the flag as given, not the disk after the clone. The glob's `(path, mtime)` listing is given per directory.
- `setup.py`: packaging metadata only.
- `print_help()`: only `HelpPrinted` is recorded.
