/**
  Watch mode: four watcher roles register directories with one shared
  observer, and each reacts to a modified file by logging it and attempting a
  rebuild inside a catch-all. The observer, its thread and the event filtering
  by file pattern are outside the model; a `glob` expansion is an abstract
  function and the result of `find` is an input.
 */
module Watchers {
  import opened Paths
  import opened Traces
  import opened AssetPaths
  import opened Orchestrate
  import opened Wrappers

  datatype Role = CoffeeScriptWatcher | SassWatcher | XModuleSassWatcher | XModuleAssetsWatcher

  /** One `observer.schedule(handler, dir, recursive)` call. */
  datatype Schedule = Schedule(role: Role, dir: Path, recursive: bool)

  /** The XModule source tree, watched by both XModule roles. */
  const XMODULE_ROOT: Path := Rel(["common", "lib", "xmodule"])

  // ---------------------------------------------------------------- registration

  /** The directories holding the CoffeeScript files that `find` reported. */
  function CoffeeWatchDirs(found: seq<Path>): set<Path> {
    set f | f in found :: Parent(f)
  }

  /**
    A CoffeeScript registration: every directory holding a found file is
    scheduled once, non-recursively, and nothing else is.
   */
  ghost predicate CoffeeRegistration(schedules: seq<Schedule>, found: seq<Path>) {
    (forall s :: s in schedules ==> s.role == CoffeeScriptWatcher && !s.recursive) &&
    (forall s :: s in schedules ==> s.dir in CoffeeWatchDirs(found)) &&
    (forall d :: d in CoffeeWatchDirs(found) ==> Schedule(CoffeeScriptWatcher, d, false) in schedules) &&
    (forall i, j :: 0 <= i < j < |schedules| ==> schedules[i].dir != schedules[j].dir)
  }

  /**
    Register the CoffeeScript watcher. `find` is the outcome of the `find`
    command: the files it printed, or None when it failed, which raises out of
    the registration before anything is scheduled.
   */
  method RegisterCoffee(find: Option<seq<Path>>) returns (schedules: seq<Schedule>, raised: bool)
    ensures raised <==> find.None?
    ensures raised ==> schedules == []
    ensures find.Some? ==> CoffeeRegistration(schedules, find.value)
    ensures find.Some? ==> |schedules| == |CoffeeWatchDirs(find.value)|
  {
    if find.None? {
      return [], true;
    }
    raised := false;
    var found := find.value;
    var dirnames: set<Path> := {};
    for i := 0 to |found|
      invariant dirnames == set f | f in found[..i] :: Parent(f)
    {
      assert found[..i + 1] == found[..i] + [found[i]];
      dirnames := dirnames + {Parent(found[i])};
    }
    assert found[..|found|] == found;

    schedules := [];
    var rest := dirnames;
    while rest != {}
      invariant rest <= dirnames
      invariant forall s :: s in schedules ==> s.role == CoffeeScriptWatcher && !s.recursive
      invariant forall s :: s in schedules ==> s.dir in dirnames && s.dir !in rest
      invariant forall d :: d in dirnames && d !in rest ==> Schedule(CoffeeScriptWatcher, d, false) in schedules
      invariant forall i, j :: 0 <= i < j < |schedules| ==> schedules[i].dir != schedules[j].dir
      invariant |schedules| + |rest| == |dirnames|
      decreases rest
    {
      var d :| d in rest;
      schedules := schedules + [Schedule(CoffeeScriptWatcher, d, false)];
      rest := rest - {d};
    }
  }

  /** An entry of the Sass watch list: a pattern is expanded, a plain directory is taken as it is. */
  function Expand(d: Path, glob: Path -> seq<Path>): seq<Path> {
    if HasWildcard(d) then glob(d) else [d]
  }

  /** The directories the Sass watcher schedules for the entries `dirs`, in order. */
  function SassWatchDirs(dirs: seq<Path>, glob: Path -> seq<Path>): seq<Path> {
    if dirs == [] then []
    else SassWatchDirs(dirs[..|dirs| - 1], glob) + Expand(dirs[|dirs| - 1], glob)
  }

  function SassSchedules(watched: seq<Path>): (schedules: seq<Schedule>)
    ensures |schedules| == |watched|
    ensures forall k :: 0 <= k < |watched| ==> schedules[k] == Schedule(SassWatcher, watched[k], true)
  {
    seq(|watched|, k requires 0 <= k < |watched| => Schedule(SassWatcher, watched[k], true))
  }

  lemma SassSchedulesSnoc(watched: seq<Path>, p: Path)
    ensures SassSchedules(watched + [p]) == SassSchedules(watched) + [Schedule(SassWatcher, p, true)]
  {
  }

  lemma SassSchedulesAppend(watched: seq<Path>, more: seq<Path>)
    ensures SassSchedules(watched + more) == SassSchedules(watched) + SassSchedules(more)
  {
  }

  /** Schedule the Sass watcher on each of `paths`, recursively, in order. */
  method ScheduleEach(paths: seq<Path>) returns (schedules: seq<Schedule>)
    ensures schedules == SassSchedules(paths)
  {
    schedules := [];
    for j := 0 to |paths|
      invariant schedules == SassSchedules(paths[..j])
    {
      SassSchedulesSnoc(paths[..j], paths[j]);
      assert paths[..j + 1] == paths[..j] + [paths[j]];
      schedules := schedules + [Schedule(SassWatcher, paths[j], true)];
    }
    assert paths[..|paths|] == paths;
  }

  /**
    A directory is watched by the Sass watcher exactly when some entry names
    it, plainly or as one of its pattern's matches.
   */
  lemma {:induction false} SassWatchedIff(dirs: seq<Path>, glob: Path -> seq<Path>, p: Path)
    ensures p in SassWatchDirs(dirs, glob) <==> exists i :: 0 <= i < |dirs| && p in Expand(dirs[i], glob)
  {
    if dirs != [] {
      var init, last := dirs[..|dirs| - 1], |dirs| - 1;
      assert SassWatchDirs(dirs, glob) == SassWatchDirs(init, glob) + Expand(dirs[last], glob);
      SassWatchedIff(init, glob, p);
      if p in SassWatchDirs(dirs, glob) {
        if p !in Expand(dirs[last], glob) {
          var i :| 0 <= i < |init| && p in Expand(init[i], glob);
          assert dirs[i] == init[i];
        }
      }
      if exists i :: 0 <= i < |dirs| && p in Expand(dirs[i], glob) {
        var i :| 0 <= i < |dirs| && p in Expand(dirs[i], glob);
        if i < |init| {
          assert init[i] == dirs[i];
        }
      }
    }
  }

  lemma SassWatchDirsSnoc(dirs: seq<Path>, i: nat, glob: Path -> seq<Path>)
    requires i < |dirs|
    ensures SassWatchDirs(dirs[..i + 1], glob) == SassWatchDirs(dirs[..i], glob) + Expand(dirs[i], glob)
  {
    assert dirs[..i + 1][..i] == dirs[..i];
  }

  /** Register the Sass watcher over the load paths and the configured Sass trees, recursively. */
  method RegisterSass(sassDirs: seq<Path>, glob: Path -> seq<Path>) returns (schedules: seq<Schedule>)
    ensures schedules == SassSchedules(SassWatchDirs(SASS_LOAD_PATHS + sassDirs, glob))
  {
    var dirs := SASS_LOAD_PATHS + sassDirs;
    schedules := [];
    ghost var watched: seq<Path> := [];
    for i := 0 to |dirs|
      invariant watched == SassWatchDirs(dirs[..i], glob)
      invariant schedules == SassSchedules(watched)
    {
      var paths: seq<Path> := [];
      if HasWildcard(dirs[i]) {
        paths := paths + glob(dirs[i]);
      } else {
        paths := paths + [dirs[i]];
      }
      var more := ScheduleEach(paths);
      SassSchedulesAppend(watched, paths);
      schedules := schedules + more;
      watched := watched + paths;
      assert paths == Expand(dirs[i], glob);
      SassWatchDirsSnoc(dirs, i, glob);
    }
    assert dirs[..|dirs|] == dirs;
  }

  /** Both XModule roles watch the XModule tree recursively. */
  method RegisterXModule(role: Role) returns (schedules: seq<Schedule>)
    requires role == XModuleSassWatcher || role == XModuleAssetsWatcher
    ensures schedules == [Schedule(role, XMODULE_ROOT, true)]
  {
    schedules := [Schedule(role, XMODULE_ROOT, true)];
  }

  /**
    Start watching: nothing on a dry run; otherwise the four roles register in
    turn and, unless in the background, the caller keeps waiting on the
    observer. A failing `find` during the first registration raises out of the
    task (`raised`) before anything is scheduled or the observer starts.
   */
  method WatchAssetsTask(dryRun: bool, background: bool, find: Option<seq<Path>>, sassDirs: seq<Path>,
                         glob: Path -> seq<Path>)
    returns (schedules: seq<Schedule>, waits: bool, raised: bool)
    ensures dryRun ==> schedules == [] && !waits && !raised
    ensures !dryRun ==> (raised <==> find.None?)
    ensures raised ==> schedules == [] && !waits
    ensures !dryRun && !raised ==> waits == !background
    ensures !dryRun && !raised ==> var k := |CoffeeWatchDirs(find.value)|;
      k <= |schedules| &&
      CoffeeRegistration(schedules[..k], find.value) &&
      schedules[k..] == SassSchedules(SassWatchDirs(SASS_LOAD_PATHS + sassDirs, glob)) +
        [Schedule(XModuleSassWatcher, XMODULE_ROOT, true), Schedule(XModuleAssetsWatcher, XMODULE_ROOT, true)]
  {
    if dryRun {
      return [], false, false;
    }
    var coffee;
    coffee, raised := RegisterCoffee(find);
    if raised {
      return [], false, true;
    }
    var sass := RegisterSass(sassDirs, glob);
    var xmoduleSass := RegisterXModule(XModuleSassWatcher);
    var xmoduleAssets := RegisterXModule(XModuleAssetsWatcher);
    schedules := coffee + sass + xmoduleSass + xmoduleAssets;
    waits := !background;
    assert schedules[..|coffee|] == coffee;
    assert schedules[|coffee|..] == sass + xmoduleSass + xmoduleAssets;
  }

  // ---------------------------------------------------------------- change handlers

  /** What a handler leaves behind: the logged path, each command with its outcome, a printed traceback. */
  datatype Event = Changed(path: Path) | Ran(step: Step, ok: bool) | Traceback

  /** The rebuild each role attempts for a modified file `src`. */
  function Rebuild(role: Role, src: Path): (step: Step)
    ensures role == CoffeeScriptWatcher ==> step == CompileCoffee(Files([src]))
    ensures role == SassWatcher ==> step == CompileSassPass(None)
    ensures role == XModuleSassWatcher || role == XModuleAssetsWatcher ==> step == ProcessXModuleAssets
  {
    match role
    case CoffeeScriptWatcher => CompileCoffee(CoffeeCommand([src], []))
    case SassWatcher => CompileSassPass(None)
    case XModuleSassWatcher => ProcessXModuleAssets
    case XModuleAssetsWatcher => ProcessXModuleAssets
  }

  /** The paths logged as changed, in order. */
  function ChangedPaths(events: seq<Event>): seq<Path> {
    if events == [] then []
    else (if events[0].Changed? then [events[0].path] else []) + ChangedPaths(events[1..])
  }

  /**
    Whether handling an event escapes: only the XModule assets watcher's
    server restart, which runs outside the catch-all, can fail out of it.
   */
  predicate Escapes(role: Role, runs: Step -> bool) {
    role == XModuleAssetsWatcher && !runs(Touch(SERVER_ENTRY_FILES))
  }

  /** The outcomes under which handling an event returns normally. */
  function Survives(role: Role): (Step -> bool) -> bool {
    (runs: Step -> bool) => !Escapes(role, runs)
  }

  /**
    What one handler leaves behind: the change, the rebuild with its outcome,
    a traceback when the rebuild failed, and for the XModule assets watcher
    the server restart with its outcome.
   */
  function HandlerTrace(role: Role, src: Path, runs: Step -> bool): seq<Event> {
    var rebuild := Rebuild(role, src);
    var touch := Touch(SERVER_ENTRY_FILES);
    [Changed(src), Ran(rebuild, runs(rebuild))] +
    (if runs(rebuild) then [] else [Traceback]) +
    (if role == XModuleAssetsWatcher then [Ran(touch, runs(touch))] else [])
  }

  /**
    The handler of a modification of `src`. A failed rebuild is caught:
    it leaves a traceback and the handler returns normally. Only the XModule
    assets watcher then restarts the servers, outside the catch-all, so only a
    failure of that touch escapes (`raised`).
   */
  method OnModified(role: Role, src: Path, runs: Step -> bool) returns (events: seq<Event>, raised: bool)
    ensures events == HandlerTrace(role, src, runs)
    ensures raised <==> role == XModuleAssetsWatcher && !runs(Touch(SERVER_ENTRY_FILES))
  {
    events := [Changed(src)];
    var rebuild := Rebuild(role, src);
    var issued, ok := Sh(rebuild, runs);
    events := events + [Ran(rebuild, ok)];
    if !ok {
      events := events + [Traceback];
    }
    raised := false;
    if role == XModuleAssetsWatcher {
      var touch := Touch(SERVER_ENTRY_FILES);
      issued, ok := Sh(touch, runs);
      events := events + [Ran(touch, ok)];
      raised := !ok;
    }
  }

  /**
    What a handler's trace says: the change comes first and the rebuild
    second; there is a traceback exactly when the rebuild failed; only the
    XModule assets watcher issues a touch, as its last command; exactly one
    path is logged.
   */
  lemma HandlerTraceShape(role: Role, src: Path, runs: Step -> bool)
    ensures var events := HandlerTrace(role, src, runs);
      |events| >= 2 && events[0] == Changed(src) &&
      events[1] == Ran(Rebuild(role, src), runs(Rebuild(role, src))) &&
      (Traceback in events <==> !runs(Rebuild(role, src))) &&
      (role == CoffeeScriptWatcher ==> events[1].step == CompileCoffee(Files([src]))) &&
      (role == SassWatcher ==> events[1].step == CompileSassPass(None)) &&
      (role == XModuleSassWatcher || role == XModuleAssetsWatcher ==> events[1].step == ProcessXModuleAssets) &&
      (role == XModuleAssetsWatcher ==>
        events[|events| - 1] == Ran(Touch(SERVER_ENTRY_FILES), runs(Touch(SERVER_ENTRY_FILES)))) &&
      (role != XModuleAssetsWatcher ==> forall e :: e in events ==> !(e.Ran? && e.step.Touch?)) &&
      ChangedPaths(events) == [src]
  {
    var events := HandlerTrace(role, src, runs);
    NoChangesAfterFirst(events, src);
  }

  /** Events after the first `Changed` that are not themselves `Changed` log nothing more. */
  lemma NoChangesAfterFirst(events: seq<Event>, src: Path)
    requires |events| >= 1 && events[0] == Changed(src)
    requires forall k :: 1 <= k < |events| ==> !events[k].Changed?
    ensures ChangedPaths(events) == [src]
  {
    NoChanges(events[1..]);
  }

  lemma {:induction false} NoChanges(events: seq<Event>)
    requires forall k :: 0 <= k < |events| ==> !events[k].Changed?
    ensures ChangedPaths(events) == []
  {
    if events != [] {
      NoChanges(events[1..]);
    }
  }

  lemma {:induction false} ChangedPathsAppend(xs: seq<Event>, ys: seq<Event>)
    ensures ChangedPaths(xs + ys) == ChangedPaths(xs) + ChangedPaths(ys)
  {
    if xs == [] {
      assert xs + ys == ys;
    } else {
      var zs := xs + ys;
      assert zs[0] == xs[0] && zs[1..] == xs[1..] + ys;
      ChangedPathsAppend(xs[1..], ys);
      var head := if xs[0].Changed? then [xs[0].path] else [];
      assert ChangedPaths(zs) == head + (ChangedPaths(xs[1..]) + ChangedPaths(ys));
      assert ChangedPaths(xs) == head + ChangedPaths(xs[1..]);
    }
  }

  // ---------------------------------------------------------------- successive events

  /**
    The handler traces of successive modifications `sources`, event k handled
    under the command outcomes `runs[k]`.
   */
  function TraceAll(role: Role, sources: seq<Path>, runs: seq<Step -> bool>): seq<Event>
    requires |runs| == |sources|
    decreases |sources|
  {
    if sources == [] then []
    else
      var n := |sources| - 1;
      TraceAll(role, sources[..n], runs[..n]) + HandlerTrace(role, sources[n], runs[n])
  }

  /**
    How many events are handled: all of them, or those up to and including
    the first whose handler escapes.
   */
  function Handled(role: Role, runs: seq<Step -> bool>): (n: nat)
    ensures n <= |runs|
  {
    var k := FirstFailure(runs, Survives(role));
    if k < |runs| then k + 1 else |runs|
  }

  lemma TraceAllSnoc(role: Role, sources: seq<Path>, runs: seq<Step -> bool>, i: nat)
    requires |runs| == |sources| && i < |sources|
    ensures TraceAll(role, sources[..i + 1], runs[..i + 1]) ==
      TraceAll(role, sources[..i], runs[..i]) + HandlerTrace(role, sources[i], runs[i])
  {
    assert sources[..i + 1][..i] == sources[..i];
    assert runs[..i + 1][..i] == runs[..i];
  }

  /** The traces of the first `m` events are a prefix of the traces of the first `n`. */
  lemma {:induction false} TraceAllPrefix(role: Role, sources: seq<Path>, runs: seq<Step -> bool>, m: nat, n: nat)
    requires |runs| == |sources| && m <= n <= |sources|
    ensures TraceAll(role, sources[..m], runs[..m]) <= TraceAll(role, sources[..n], runs[..n])
    decreases n - m
  {
    if m < n {
      TraceAllPrefix(role, sources, runs, m, n - 1);
      TraceAllSnoc(role, sources, runs, n - 1);
    }
  }

  /**
    Successive modifications delivered to one watcher, each handled in turn
    under its own command outcomes. A failed rebuild never stops the next
    event from being handled; the first event whose server restart fails
    escapes, and no later event is handled.
   */
  method Deliver(role: Role, sources: seq<Path>, runs: seq<Step -> bool>) returns (events: seq<Event>, raised: bool)
    requires |runs| == |sources|
    ensures raised <==> exists k :: 0 <= k < |sources| && Escapes(role, runs[k])
    ensures raised ==> 0 < Handled(role, runs) && Escapes(role, runs[Handled(role, runs) - 1])
    ensures forall j :: 0 <= j < Handled(role, runs) - 1 ==> !Escapes(role, runs[j])
    ensures !raised ==> Handled(role, runs) == |sources|
    ensures events == TraceAll(role, sources[..Handled(role, runs)], runs[..Handled(role, runs)])
    ensures ChangedPaths(events) == sources[..Handled(role, runs)]
  {
    events, raised := [], false;
    for i := 0 to |sources|
      invariant forall j :: 0 <= j < i ==> !Escapes(role, runs[j])
      invariant events == TraceAll(role, sources[..i], runs[..i])
    {
      var handled, escaped := OnModified(role, sources[i], runs[i]);
      TraceAllSnoc(role, sources, runs, i);
      events := events + handled;
      if escaped {
        EscapeAt(role, runs, i);
        ChangedPathsTraceAll(role, sources[..i + 1], runs[..i + 1]);
        raised := true;
        return;
      }
    }
    NoEscape(role, runs);
    assert sources[..|sources|] == sources && runs[..|runs|] == runs;
    ChangedPathsTraceAll(role, sources, runs);
  }

  /** The handlers of successive events log exactly those events' paths, in order. */
  lemma {:induction false} ChangedPathsTraceAll(role: Role, sources: seq<Path>, runs: seq<Step -> bool>)
    requires |runs| == |sources|
    ensures ChangedPaths(TraceAll(role, sources, runs)) == sources
    decreases |sources|
  {
    if sources != [] {
      var n := |sources| - 1;
      ChangedPathsTraceAll(role, sources[..n], runs[..n]);
      var t := HandlerTrace(role, sources[n], runs[n]);
      NoChangesAfterFirst(t, sources[n]);
      ChangedPathsAppend(TraceAll(role, sources[..n], runs[..n]), t);
      assert sources == sources[..n] + [sources[n]];
    }
  }

  /** When event i is the first to escape, exactly the events up to i are handled. */
  lemma EscapeAt(role: Role, runs: seq<Step -> bool>, i: nat)
    requires i < |runs|
    requires forall j :: 0 <= j < i ==> !Escapes(role, runs[j])
    requires Escapes(role, runs[i])
    ensures Handled(role, runs) == i + 1
    ensures exists k :: 0 <= k < |runs| && Escapes(role, runs[k])
  {
    forall j | 0 <= j < i ensures Survives(role)(runs[j]) {
    }
    FirstFailureUnique(runs, Survives(role), i);
  }

  /** When no event escapes, every event is handled. */
  lemma NoEscape(role: Role, runs: seq<Step -> bool>)
    requires forall j :: 0 <= j < |runs| ==> !Escapes(role, runs[j])
    ensures Handled(role, runs) == |runs|
    ensures !exists k :: 0 <= k < |runs| && Escapes(role, runs[k])
  {
    forall j | 0 <= j < |runs| ensures Survives(role)(runs[j]) {
    }
    FirstFailureUnique(runs, Survives(role), |runs|);
  }

  /**
    A failed rebuild does not carry over: when event i's rebuild fails and
    event i+1's succeeds, with no escape up to event i, both events are
    handled, event i leaves a traceback and event i+1 does not.
   */
  lemma RebuildFailureDoesNotPersist(role: Role, sources: seq<Path>, runs: seq<Step -> bool>, i: nat)
    requires |runs| == |sources| && i + 1 < |sources|
    requires forall j :: 0 <= j <= i ==> !Escapes(role, runs[j])
    requires !runs[i](Rebuild(role, sources[i])) && runs[i + 1](Rebuild(role, sources[i + 1]))
    ensures i + 2 <= Handled(role, runs)
    ensures TraceAll(role, sources[..i + 2], runs[..i + 2]) ==
      TraceAll(role, sources[..i], runs[..i]) + HandlerTrace(role, sources[i], runs[i]) +
      HandlerTrace(role, sources[i + 1], runs[i + 1])
    ensures TraceAll(role, sources[..i + 2], runs[..i + 2]) <=
      TraceAll(role, sources[..Handled(role, runs)], runs[..Handled(role, runs)])
    ensures Traceback in HandlerTrace(role, sources[i], runs[i])
    ensures Traceback !in HandlerTrace(role, sources[i + 1], runs[i + 1])
  {
    TraceAllSnoc(role, sources, runs, i);
    TraceAllSnoc(role, sources, runs, i + 1);
    TraceAllPrefix(role, sources, runs, i + 2, Handled(role, runs));
    var r := Rebuild(role, sources[i]);
    assert HandlerTrace(role, sources[i], runs[i])[2] == Traceback;
    var t := HandlerTrace(role, sources[i + 1], runs[i + 1]);
    forall e | e in t ensures e != Traceback {
    }
  }
}
