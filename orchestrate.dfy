/**
  The one-shot asset pipeline: render templated Sass per system, process the
  XModule assets, compile all CoffeeScript, run a Sass pass, optionally collect
  the static files per system, and optionally hand over to the watcher. Every
  external command is a `Step`; whether one succeeds is the abstract predicate
  `runs`, and a failing command raises and ends the run.
 */
module Orchestrate {
  import opened Wrappers
  import opened Paths
  import opened Traces
  import opened AssetPaths

  /** What `coffee --compile` is given: everything `find` reports under `roots`, or explicit files. */
  datatype CoffeeArgs = FoundUnder(roots: seq<Path>) | Files(files: seq<Path>)

  /** The external commands the build issues. */
  datatype Step =
    | Preprocess(system: string, settings: string, sources: string, outputDir: string)
    | ProcessXModuleAssets
    | CompileCoffee(args: CoffeeArgs)
      // a Sass pass; `debug` is None when the pass is started without options
    | CompileSassPass(debug: Option<bool>)
    | Collect(system: string, settings: string)
    | WatchAssets(background: bool)
    | Touch(files: seq<Path>)

  /** The files touched so that the development servers reload. */
  const SERVER_ENTRY_FILES: seq<Path> := [Rel(["lms", "urls.py"]), Rel(["cms", "urls.py"])]

  /** The options of `update_assets`: systems, settings module, and three switches. */
  datatype Args = Args(systems: seq<string>, settings: string, debug: bool, collect: bool, watch: bool)

  // ---------------------------------------------------------------- step construction

  /** The system whose templates are rendered: "studio" is an alias of "cms". */
  function PreprocessSystem(sys: string): (s: string)
    ensures s != "studio"
    ensures sys != "studio" ==> s == sys
  {
    if sys == "studio" then "cms" else sys
  }

  /** Render the `.scss` templates under `<sys>/static/sass` into `<sys>/static/themed_sass`. */
  function PreprocessStep(sys: string, settings: string): (step: Step)
    ensures step.Preprocess? && step.system == PreprocessSystem(sys) && step.settings == settings
    ensures step.sources == PreprocessSystem(sys) + "/static/sass/*.scss"
    ensures step.outputDir == PreprocessSystem(sys) + "/static/themed_sass"
  {
    var s := PreprocessSystem(sys);
    Preprocess(s, settings, s + "/static/sass/*.scss", s + "/static/themed_sass")
  }

  function PreprocessPlan(systems: seq<string>, settings: string): (plan: seq<Step>)
    ensures |plan| == |systems|
    ensures forall i :: 0 <= i < |systems| ==> plan[i] == PreprocessStep(systems[i], settings)
  {
    seq(|systems|, i requires 0 <= i < |systems| => PreprocessStep(systems[i], settings))
  }

  /** Collection keeps the system name as given: no alias is resolved here. */
  function CollectPlan(systems: seq<string>, settings: string): (plan: seq<Step>)
    ensures |plan| == |systems|
    ensures forall i :: 0 <= i < |systems| ==> plan[i] == Collect(systems[i], settings)
  {
    seq(|systems|, i requires 0 <= i < |systems| => Collect(systems[i], settings))
  }

  /** The directories `find` searches for CoffeeScript: each configured directory under the repository root. */
  function CoffeeRoots(repoRoot: Path, coffeeDirs: seq<Path>): (roots: seq<Path>)
    ensures |roots| == |coffeeDirs|
    ensures forall i :: 0 <= i < |coffeeDirs| ==> roots[i] == Join(repoRoot, coffeeDirs[i])
  {
    seq(|coffeeDirs|, i requires 0 <= i < |coffeeDirs| => Join(repoRoot, coffeeDirs[i]))
  }

  /** With no files the compiler gets whatever `find` reports; otherwise exactly the given files. */
  function CoffeeCommand(files: seq<Path>, roots: seq<Path>): (a: CoffeeArgs)
    ensures a.Files? <==> files != []
    ensures a.Files? ==> a.files == files
    ensures a.FoundUnder? ==> a.roots == roots
  {
    if files == [] then FoundUnder(roots) else Files(files)
  }

  /** After rendering: process XModule assets, compile all CoffeeScript, run a Sass pass. */
  function CompileSteps(args: Args, coffeeRoots: seq<Path>): seq<Step> {
    [ProcessXModuleAssets, CompileCoffee(CoffeeCommand([], coffeeRoots)), CompileSassPass(Some(args.debug))]
  }

  /** The build stage of `update_assets`: render the templates, then compile. */
  function BuildPlan(args: Args, coffeeRoots: seq<Path>): seq<Step> {
    PreprocessPlan(args.systems, args.settings) + CompileSteps(args, coffeeRoots)
  }

  /** The publishing stage of `update_assets`: collect if asked, then watch if asked. */
  function PublishPlan(args: Args): seq<Step> {
    (if args.collect then CollectPlan(args.systems, args.settings) else []) +
    (if args.watch then [WatchAssets(!args.debug)] else [])
  }

  /** The commands of a full `update_assets` run, in order. */
  function UpdatePlan(args: Args, coffeeRoots: seq<Path>): seq<Step> {
    BuildPlan(args, coffeeRoots) + PublishPlan(args)
  }

  // ---------------------------------------------------------------- commands

  /** Issue one command. */
  method Sh(step: Step, runs: Step -> bool) returns (issued: seq<Step>, ok: bool)
    ensures issued == [step] && ok == runs(step)
  {
    issued := [step];
    ok := runs(step);
  }

  /** Render the Sass templates of each system in turn. */
  method CompileTemplatedSass(systems: seq<string>, settings: string, runs: Step -> bool)
    returns (issued: seq<Step>, ok: bool)
    ensures issued == Attempted(PreprocessPlan(systems, settings), runs)
    ensures ok == Succeeds(PreprocessPlan(systems, settings), runs)
  {
    ghost var plan := PreprocessPlan(systems, settings);
    issued := [];
    for i := 0 to |systems|
      invariant issued == plan[..i]
      invariant forall j :: 0 <= j < i ==> runs(plan[j])
    {
      var step := PreprocessStep(systems[i], settings);
      issued := issued + [step];
      if !runs(step) {
        AttemptedStopsAt(plan, runs, i);
        assert plan[..i + 1] == plan[..i] + [plan[i]];
        ok := false;
        return;
      }
      assert plan[..i + 1] == plan[..i] + [plan[i]];
    }
    AttemptedAll(plan, runs);
    assert plan[..|plan|] == plan;
    ok := true;
  }

  /** Collect the static files of each system in turn. */
  method CollectAssets(systems: seq<string>, settings: string, runs: Step -> bool)
    returns (issued: seq<Step>, ok: bool)
    ensures issued == Attempted(CollectPlan(systems, settings), runs)
    ensures ok == Succeeds(CollectPlan(systems, settings), runs)
  {
    ghost var plan := CollectPlan(systems, settings);
    issued := [];
    for i := 0 to |systems|
      invariant issued == plan[..i]
      invariant forall j :: 0 <= j < i ==> runs(plan[j])
    {
      var step := Collect(systems[i], settings);
      issued := issued + [step];
      if !runs(step) {
        AttemptedStopsAt(plan, runs, i);
        assert plan[..i + 1] == plan[..i] + [plan[i]];
        ok := false;
        return;
      }
      assert plan[..i + 1] == plan[..i] + [plan[i]];
    }
    AttemptedAll(plan, runs);
    assert plan[..|plan|] == plan;
    ok := true;
  }

  /**
    Compile CoffeeScript: the given files, or all that `find` reports under the
    configured directories `coffeeDirs`, each taken under `repoRoot`.
   */
  method CompileCoffeescript(files: seq<Path>, repoRoot: Path, coffeeDirs: seq<Path>, runs: Step -> bool)
    returns (issued: seq<Step>, ok: bool)
    ensures files != [] ==> issued == [CompileCoffee(Files(files))]
    ensures files == [] ==> issued == [CompileCoffee(FoundUnder(CoffeeRoots(repoRoot, coffeeDirs)))]
    ensures ok == runs(issued[0])
  {
    var args := if files == [] then FoundUnder(CoffeeRoots(repoRoot, coffeeDirs)) else Files(files);
    issued, ok := Sh(CompileCoffee(args), runs);
  }

  /** The three compile commands, stopping at the first that fails. */
  method Compile(args: Args, repoRoot: Path, coffeeDirs: seq<Path>, runs: Step -> bool)
    returns (issued: seq<Step>, ok: bool)
    ensures issued == Attempted(CompileSteps(args, CoffeeRoots(repoRoot, coffeeDirs)), runs)
    ensures ok == Succeeds(CompileSteps(args, CoffeeRoots(repoRoot, coffeeDirs)), runs)
  {
    ghost var steps := CompileSteps(args, CoffeeRoots(repoRoot, coffeeDirs));
    issued, ok := Sh(ProcessXModuleAssets, runs);
    if !ok {
      AttemptedStopsAt(steps, runs, 0);
      return;
    }
    var more;
    more, ok := CompileCoffeescript([], repoRoot, coffeeDirs, runs);
    issued := issued + more;
    if !ok {
      AttemptedStopsAt(steps, runs, 1);
      return;
    }
    more, ok := Sh(CompileSassPass(Some(args.debug)), runs);
    issued := issued + more;
    if !ok {
      AttemptedStopsAt(steps, runs, 2);
      return;
    }
    AttemptedAll(steps, runs);
  }

  /** The build stage, stopping at the first command that fails. */
  method Build(args: Args, repoRoot: Path, coffeeDirs: seq<Path>, runs: Step -> bool)
    returns (issued: seq<Step>, ok: bool)
    ensures issued == Attempted(BuildPlan(args, CoffeeRoots(repoRoot, coffeeDirs)), runs)
    ensures ok == Succeeds(BuildPlan(args, CoffeeRoots(repoRoot, coffeeDirs)), runs)
  {
    AttemptedAppend(PreprocessPlan(args.systems, args.settings),
      CompileSteps(args, CoffeeRoots(repoRoot, coffeeDirs)), runs);
    issued, ok := CompileTemplatedSass(args.systems, args.settings, runs);
    if !ok {
      return;
    }
    var more;
    more, ok := Compile(args, repoRoot, coffeeDirs, runs);
    issued := issued + more;
  }

  /** The publishing stage, stopping at the first command that fails. */
  method Publish(args: Args, runs: Step -> bool)
    returns (issued: seq<Step>, ok: bool)
    ensures issued == Attempted(PublishPlan(args), runs)
    ensures ok == Succeeds(PublishPlan(args), runs)
  {
    ghost var plan := PublishPlan(args);
    ghost var collect := if args.collect then CollectPlan(args.systems, args.settings) else [];
    ghost var watch := if args.watch then [WatchAssets(!args.debug)] else [];
    AttemptedAll([], runs);
    assert plan == [] + (collect + watch);
    issued, ok := [], true;

    Advance(plan, [], collect, watch, runs);
    if args.collect {
      issued, ok := CollectAssets(args.systems, args.settings, runs);
      if !ok {
        return;
      }
    }

    assert watch + [] == watch;
    Advance(plan, issued, watch, [], runs);
    if args.watch {
      SingleStep(watch[0], runs);
      var more;
      more, ok := Sh(WatchAssets(!args.debug), runs);
      issued := issued + more;
      if !ok {
        return;
      }
    }
    AttemptedAll(plan, runs);
  }

  /**
    The whole pipeline over the configuration `paths`, with the repository
    root `repoRoot`. `issued` is the commands run, in order, up to and
    including the first that fails; `ok` is whether none failed.
   */
  method UpdateAssets(args: Args, repoRoot: Path, paths: AssetPaths, runs: Step -> bool)
    returns (issued: seq<Step>, ok: bool)
    ensures issued == Attempted(UpdatePlan(args, CoffeeRoots(repoRoot, paths.coffeeDirs)), runs)
    ensures ok == Succeeds(UpdatePlan(args, CoffeeRoots(repoRoot, paths.coffeeDirs)), runs)
  {
    var coffeeDirs := paths.coffeeDirs;
    AttemptedAppend(BuildPlan(args, CoffeeRoots(repoRoot, coffeeDirs)), PublishPlan(args), runs);
    issued, ok := Build(args, repoRoot, coffeeDirs, runs);
    if !ok {
      return;
    }
    var more;
    more, ok := Publish(args, runs);
    issued := issued + more;
  }

  /** A single command is attempted whatever happens, and succeeds when it runs. */
  lemma SingleStep(step: Step, runs: Step -> bool)
    ensures Attempted([step], runs) == [step]
    ensures Succeeds([step], runs) == runs(step)
  {
    if runs(step) {
      AttemptedAll([step], runs);
    } else {
      AttemptedStopsAt([step], runs, 0);
    }
  }

  // ---------------------------------------------------------------- properties of the plan

  /** With collection skipped, no collection command is ever issued, whatever fails. */
  lemma SkipCollectNeverCollects(args: Args, coffeeRoots: seq<Path>, runs: Step -> bool)
    requires !args.collect
    ensures forall s :: s in Attempted(UpdatePlan(args, coffeeRoots), runs) ==> !s.Collect?
  {
    var plan := UpdatePlan(args, coffeeRoots);
    var attempted := Attempted(plan, runs);
    forall s | s in attempted ensures !s.Collect? {
      var i :| 0 <= i < |attempted| && attempted[i] == s;
      assert plan[i] == s;
      CollectOncePerSystem(args, coffeeRoots, i);
    }
  }

  /**
    Collection, when requested, issues one command per system, in the order
    given, right after the Sass pass; no other command is a collection.
   */
  lemma CollectOncePerSystem(args: Args, coffeeRoots: seq<Path>, i: nat)
    requires i < |UpdatePlan(args, coffeeRoots)|
    ensures var n := |args.systems|;
      UpdatePlan(args, coffeeRoots)[i].Collect? <==> args.collect && n + 3 <= i < 2 * n + 3
    ensures var n := |args.systems|;
      args.collect && n + 3 <= i < 2 * n + 3 ==>
        UpdatePlan(args, coffeeRoots)[i] == Collect(args.systems[i - n - 3], args.settings)
  {
    var n := |args.systems|;
    var plan := UpdatePlan(args, coffeeRoots);
    if i < n {
      assert plan[i] == PreprocessStep(args.systems[i], args.settings);
    }
  }

  /** Every template rendering comes before the Sass pass, and the pass comes after XModule and CoffeeScript. */
  lemma PreprocessBeforeSass(args: Args, coffeeRoots: seq<Path>, i: nat, j: nat)
    requires i < |UpdatePlan(args, coffeeRoots)| && j < |UpdatePlan(args, coffeeRoots)|
    requires UpdatePlan(args, coffeeRoots)[j].CompileSassPass?
    ensures j == |args.systems| + 2
    ensures UpdatePlan(args, coffeeRoots)[i].Preprocess? ==> i < j
    ensures UpdatePlan(args, coffeeRoots)[j - 2] == ProcessXModuleAssets
    ensures UpdatePlan(args, coffeeRoots)[j - 1] == CompileCoffee(FoundUnder(coffeeRoots))
  {
    var n := |args.systems|;
    var plan := UpdatePlan(args, coffeeRoots);
    if i < n {
      assert plan[i] == PreprocessStep(args.systems[i], args.settings);
    }
  }

  /** Preprocessing always names a real system directory: "studio" becomes "cms". */
  lemma PreprocessNeverStudio(systems: seq<string>, settings: string, i: nat)
    requires i < |systems|
    ensures PreprocessPlan(systems, settings)[i].system != "studio"
    ensures systems[i] == "studio" ==>
      PreprocessPlan(systems, settings)[i].system == "cms" &&
      PreprocessPlan(systems, settings)[i].sources == "cms/static/sass/*.scss" &&
      PreprocessPlan(systems, settings)[i].outputDir == "cms/static/themed_sass"
    ensures systems[i] != "studio" ==> PreprocessPlan(systems, settings)[i].system == systems[i]
  {
    assert PreprocessPlan(systems, settings)[i] == PreprocessStep(systems[i], settings);
  }

  /**
    The watcher is started exactly when requested, as the last command, in the
    background unless debugging.
   */
  lemma WatchLastIfRequested(args: Args, coffeeRoots: seq<Path>)
    ensures (exists i :: 0 <= i < |UpdatePlan(args, coffeeRoots)| && UpdatePlan(args, coffeeRoots)[i].WatchAssets?)
      <==> args.watch
    ensures args.watch ==> UpdatePlan(args, coffeeRoots)[|UpdatePlan(args, coffeeRoots)| - 1] == WatchAssets(!args.debug)
  {
    var plan := UpdatePlan(args, coffeeRoots);
    var n := |args.systems|;
    if !args.watch {
      forall i | 0 <= i < |plan| ensures !plan[i].WatchAssets? {
        if i < n {
          assert plan[i] == PreprocessStep(args.systems[i], args.settings);
        }
      }
    } else {
      assert plan[|plan| - 1].WatchAssets?;
    }
  }
}
