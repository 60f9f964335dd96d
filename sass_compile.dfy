/**
  One Sass pass: every configured Sass tree is compiled to its sibling `css`
  directory, then every explicit (source file, target file) pair is compiled,
  all with the same include paths. The compiler itself is abstract: whether a
  compile call succeeds is the predicate `compiles`; a failing call raises and
  ends the pass.
 */
module SassCompile {
  import opened Paths
  import opened Traces
  import opened AssetPaths

  datatype OutputStyle = Nested | Compressed

  datatype SassOptions = SassOptions(sourceComments: bool, outputStyle: OutputStyle)

  /**
    The options the debug flag selects: annotated nested output for debugging,
    compressed output without comments otherwise.
   */
  function OptionsFor(debug: bool): (o: SassOptions)
    ensures o.sourceComments == debug
    ensures o.outputStyle == Nested <==> debug
    ensures o.sourceComments <==> o.outputStyle == Nested
  {
    if debug then SassOptions(true, Nested) else SassOptions(false, Compressed)
  }

  datatype UnitKind = Directory | SingleFile

  /**
    One call of the Sass compiler: a whole directory or one file, where its
    output goes, and the include paths it is given. A call carries no output
    options, because none are ever passed.
   */
  datatype Unit = Unit(kind: UnitKind, source: Path, dest: Path, includePaths: seq<Path>)

  /** The include paths of every call: the load paths, then every Sass tree. */
  function IncludePaths(sassDirs: seq<Path>): seq<Path> {
    SASS_LOAD_PATHS + sassDirs
  }

  function DirUnit(sassDir: Path, sassDirs: seq<Path>): Unit {
    Unit(Directory, sassDir, CssDirOf(sassDir), IncludePaths(sassDirs))
  }

  function FileUnit(target: (Path, Path), sassDirs: seq<Path>): Unit {
    Unit(SingleFile, target.0, target.1, IncludePaths(sassDirs))
  }

  /** The directory calls: each Sass tree paired with its sibling `css` directory, in order. */
  function TreeUnits(sassDirs: seq<Path>): (units: seq<Unit>)
    ensures |units| == |sassDirs|
    ensures forall i :: 0 <= i < |sassDirs| ==> units[i] == DirUnit(sassDirs[i], sassDirs)
  {
    seq(|sassDirs|, i requires 0 <= i < |sassDirs| => DirUnit(sassDirs[i], sassDirs))
  }

  /** The single-file calls, one per explicit (source, target) pair, in order. */
  function TargetUnits(sassDirs: seq<Path>): (units: seq<Unit>)
    ensures |units| == |SASS_FILES_AND_TARGETS|
    ensures forall j :: 0 <= j < |SASS_FILES_AND_TARGETS| ==>
      units[j] == FileUnit(SASS_FILES_AND_TARGETS[j], sassDirs)
  {
    seq(|SASS_FILES_AND_TARGETS|, j requires 0 <= j < |SASS_FILES_AND_TARGETS| =>
      FileUnit(SASS_FILES_AND_TARGETS[j], sassDirs))
  }

  /** The calls of one pass, in order. */
  function Plan(sassDirs: seq<Path>): (plan: seq<Unit>)
    ensures |plan| == |sassDirs| + |SASS_FILES_AND_TARGETS|
    ensures forall i :: 0 <= i < |sassDirs| ==>
      plan[i].kind == Directory && plan[i].source == sassDirs[i] && plan[i].dest == CssDirOf(sassDirs[i])
    ensures forall j :: 0 <= j < |SASS_FILES_AND_TARGETS| ==>
      plan[|sassDirs| + j].kind == SingleFile &&
      (plan[|sassDirs| + j].source, plan[|sassDirs| + j].dest) == SASS_FILES_AND_TARGETS[j]
    ensures forall k :: 0 <= k < |plan| ==> plan[k].includePaths == SASS_LOAD_PATHS + sassDirs
  {
    TreeUnits(sassDirs) + TargetUnits(sassDirs)
  }

  /** The destinations of `units`, in order: the entries of the timing report. */
  function Dests(units: seq<Unit>): (d: seq<Path>)
    ensures |d| == |units| && forall i :: 0 <= i < |units| ==> d[i] == units[i].dest
  {
    seq(|units|, i requires 0 <= i < |units| => units[i].dest)
  }

  lemma DestsAppend(xs: seq<Unit>, ys: seq<Unit>)
    ensures Dests(xs + ys) == Dests(xs) + Dests(ys)
  {
  }

  /**
    Compiles the calls `units` in order until one fails; records the
    destination of each call that completed.
   */
  method CompileUnits(units: seq<Unit>, compiles: Unit -> bool)
    returns (attempted: seq<Unit>, filesAndTimes: seq<Path>, ok: bool)
    ensures attempted == Attempted(units, compiles)
    ensures ok == Succeeds(units, compiles)
    ensures filesAndTimes == Dests(units[..FirstFailure(units, compiles)])
  {
    attempted, filesAndTimes := [], [];
    for i := 0 to |units|
      invariant attempted == units[..i]
      invariant filesAndTimes == Dests(units[..i])
      invariant forall j :: 0 <= j < i ==> compiles(units[j])
    {
      var unit := units[i];
      var compiled := compiles(unit);
      attempted := attempted + [unit];
      if !compiled {
        AttemptedStopsAt(units, compiles, i);
        assert units[..i] + [units[i]] == units[..i + 1];
        ok := false;
        return;
      }
      assert units[..i + 1] == units[..i] + [units[i]];
      filesAndTimes := filesAndTimes + [unit.dest];
    }
    AttemptedAll(units, compiles);
    assert units[..|units|] == units;
    ok := true;
  }

  /**
    The pass over the configuration `paths`. `attempted` is the calls made,
    `filesAndTimes` the destinations recorded (one per call that completed,
    in order) and `ok` whether the pass finished; the report is printed only
    then. `debug` selects options that no call receives, so nothing here
    depends on it.
   */
  method CompileSass(paths: AssetPaths, debug: bool, compiles: Unit -> bool)
    returns (attempted: seq<Unit>, filesAndTimes: seq<Path>, ok: bool)
    ensures attempted == Attempted(Plan(paths.sassDirs), compiles)
    ensures ok == Succeeds(Plan(paths.sassDirs), compiles)
    ensures filesAndTimes == Dests(Plan(paths.sassDirs)[..FirstFailure(Plan(paths.sassDirs), compiles)])
  {
    var options := OptionsFor(debug);
    var sassDirs := paths.sassDirs;
    var trees := TreeUnits(sassDirs);
    var targets := TargetUnits(sassDirs);
    attempted, filesAndTimes, ok := CompileUnits(trees, compiles);
    if ok {
      var moreAttempted, moreFiles;
      moreAttempted, moreFiles, ok := CompileUnits(targets, compiles);
      attempted, filesAndTimes := attempted + moreAttempted, filesAndTimes + moreFiles;
    }
    PassSplits(trees, targets, compiles);
  }

  /** How the two loops of a pass compose into one run of the whole plan. */
  lemma PassSplits(trees: seq<Unit>, targets: seq<Unit>, compiles: Unit -> bool)
    ensures var k := FirstFailure(trees + targets, compiles);
      if Succeeds(trees, compiles) then
        Attempted(trees + targets, compiles) == trees + Attempted(targets, compiles) &&
        (Succeeds(trees + targets, compiles) <==> Succeeds(targets, compiles)) &&
        Dests((trees + targets)[..k]) == Dests(trees[..|trees|]) + Dests(targets[..FirstFailure(targets, compiles)])
      else
        Attempted(trees + targets, compiles) == Attempted(trees, compiles) &&
        !Succeeds(trees + targets, compiles) &&
        Dests((trees + targets)[..k]) == Dests(trees[..FirstFailure(trees, compiles)])
  {
    AttemptedAppend(trees, targets, compiles);
    var k := FirstFailure(trees + targets, compiles);
    if Succeeds(trees, compiles) {
      var m := FirstFailure(targets, compiles);
      FirstFailureUnique(trees + targets, compiles, |trees| + m);
      assert (trees + targets)[..k] == trees[..|trees|] + targets[..m];
      DestsAppend(trees[..|trees|], targets[..m]);
    } else {
      FirstFailureUnique(trees + targets, compiles, FirstFailure(trees, compiles));
      assert (trees + targets)[..k] == trees[..k];
    }
  }

  /**
    After configuration, every theme tree's directory call writes into a
    directory that configuration created.
   */
  lemma ThemeOutputsCreated(env: Env, existing: set<Path>, base: seq<Path>, i: nat)
    requires |base| <= i < |base| + |AddedSassDirs(env, existing)|
    ensures Plan(base + AddedSassDirs(env, existing))[i].dest in CreatedDirs(env, existing)
  {
    var added := AddedSassDirs(env, existing);
    assert (base + added)[i] == added[i - |base|];
    AppendedHaveOutputDir(env, existing, added[i - |base|]);
  }

  /** When every call compiles, the report has exactly one entry per call, in plan order. */
  lemma FullPassReportsEveryUnit(sassDirs: seq<Path>, compiles: Unit -> bool)
    requires forall u :: u in Plan(sassDirs) ==> compiles(u)
    ensures Succeeds(Plan(sassDirs), compiles)
    ensures Dests(Plan(sassDirs)[..FirstFailure(Plan(sassDirs), compiles)]) ==
      Dests(Plan(sassDirs))
  {
    var plan := Plan(sassDirs);
    forall j | 0 <= j < |plan| ensures compiles(plan[j]) {
      assert plan[j] in plan;
    }
    AttemptedAll(plan, compiles);
    assert plan[..|plan|] == plan;
  }
}
