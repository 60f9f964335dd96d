# Asset pipeline and organization lookup — a Dafny model

This project models two parts of the edX platform:

- **The asset build tasks** (`pavelib/assets.py`):
  - `configure_paths` extends the Sass and CoffeeScript directory lists from the environment's theme settings. It creates a `css` output directory for each themed Sass tree that exists.
  - `compile_sass` compiles each Sass tree to its sibling `css` directory, then each explicit (source, target) file pair. Every call gets the same include paths. A timing report is printed when the pass finishes.
  - `compile_templated_sass` and `collect_assets` issue one command per system.
  - `compile_coffeescript` issues a single compile command. That command gets either the files it is given or everything `find` reports under the configured CoffeeScript directories.
  - `update_assets` sequences the whole pipeline.
  - Four watcher roles register directories with an observer and react to modified files. `watch_assets` does nothing on a dry run.
- **The organization API view** (`OrganizationsView.get`). It answers 404 when the organization key is unknown. Otherwise it answers a map with the organization's name, short name, description and, when present, the absolute URI of its logo. Authentication is required.

External commands (`sh`, `sass.compile`) are values of a `Step` or `Unit` datatype. Whether a command succeeds is an abstract predicate. A failing command raises, and nothing in a batch run catches it. So a run is the prefix of its plan up to and including the first failure (`Traces.Attempted`). Each imperative task is a method whose `ensures` ties its output to `Attempted`/`Succeeds` of a plan function. The lemmas are about those plans.

The module-level lists that `configure_paths` mutates are fields of the class `AssetPaths.AssetPaths`. `ConfigurePaths` updates them in place.

Every watcher handler catches a failure of its rebuild, logs a traceback and returns normally. The exception is the XModule assets watcher: its server restart (the `touch` of `lms/urls.py` and `cms/urls.py`) is issued after the catch-all, outside it, so a failing touch escapes that handler. `Watchers.OnModified` reports this as `raised`; no other role ever raises.

Files:
- `wrappers.dfy`: Option.
- `paths.dfy`: paths and `os.path.join`.
- `traces.dfy`: fail-fast runs.
- `asset_paths.dfy`: configuration.
- `sass_compile.dfy`: the Sass pass.
- `orchestrate.dfy`: the one-shot tasks.
- `watchers.dfy`: watch mode.
- `organizations.dfy`: the API view.

## Model

| member | source | states |
|---|---|---|
| Paths.ParentOfChild | pavelib/assets.py:212 | The parent of `p / name` is `p`. |
| Paths.ComponentsCons | pavelib/assets.py:45-47 | A theme name `a/b` with a plain first component `a` splits into `a` followed by the components of `b`. So `a/b` names the directory `b` inside `a`. |
| Paths.SimpleName | pavelib/assets.py:45-47 | A non-empty name without `/` is a single path component. |
| Paths.JoinEmptyName | pavelib/assets.py:45-47 | Joining the empty name (the default THEME_NAME) leaves the base path unchanged. |
| Paths.CssSiblingOfSass | pavelib/assets.py:49-50 | For an overlay root, the `css` sibling of `root/static/sass` is `root/static/css`. So the directory `configure_paths` creates is the one `compile_sass` writes to. |
| Traces.FirstFailure | pavelib/assets.py:214-218 | The index where a raising command stops a run: every earlier command succeeds, and the one at the index (if any) fails. |
| Traces.Attempted | pavelib/assets.py:214-218 | The commands issued form a prefix of the plan. It is the whole plan when every command succeeds, and otherwise ends exactly at the first failing command. |
| Traces.AttemptedAppend | pavelib/assets.py:346-352 | Running two plans one after the other: a failure in the first means the second never runs. Otherwise the second runs in full and decides the outcome. |
| Traces.Advance | pavelib/assets.py:346-355 | Stage composition: after a successful prefix, a failing stage ends the whole run with that stage's attempted prefix, and a successful stage extends the successful prefix. |
| AssetPaths.Candidates | pavelib/assets.py:44-66 | The overlays considered, in order: the custom theme overlay first (only with USE_CUSTOM_THEME), then the `lms` and `cms` overlays of the comprehensive theme directory (only when set), which are exactly the last two. Each overlay's output is the `css` sibling of its Sass tree. |
| AssetPaths.ThemeRootOfName | pavelib/assets.py:45-47 | The theme root is `themes/<name>` beside the repository root for a plain name. With the empty default name it is the `themes` directory itself. |
| AssetPaths.AssetPaths.constructor | pavelib/assets.py:22-30 | The initial lists are the base CoffeeScript and Sass directories; nothing is created yet. |
| AssetPaths.AssetPaths.AddOverlayIfExists | pavelib/assets.py:51-53 | When the overlay's Sass tree exists, its css directory is created and the tree is appended. Otherwise nothing changes. |
| AssetPaths.AssetPaths.ConfigurePaths | pavelib/assets.py:41-66 | The Sass list gains exactly the existing candidate trees, in order. The CoffeeScript list gains the theme root exactly when a custom theme is used. Exactly the css directories of the kept overlays are created. |
| AssetPaths.KeptIffExists | pavelib/assets.py:51-64 | An overlay is kept exactly when it was considered and its Sass tree is a directory. |
| AssetPaths.KeptKeepsOrder | pavelib/assets.py:44-66 | Kept overlays keep their relative order. |
| AssetPaths.NoThemeNoChange | pavelib/assets.py:44-55 | With no custom theme and no comprehensive theme directory, configuration changes nothing. |
| AssetPaths.AppendedIffExists | pavelib/assets.py:51-66 | A Sass tree is appended if and only if it exists and some considered overlay names it. |
| AssetPaths.CreatedIffSourceExists | pavelib/assets.py:51-66 | A directory is created if and only if it is the css directory of a considered overlay whose Sass tree exists. |
| AssetPaths.AppendedHaveOutputDir | pavelib/assets.py:51-66 | Every appended Sass tree has its `css` sibling created. |
| AssetPaths.ThemeOrder | pavelib/assets.py:44-66 | With both themes on and all trees present, the appended trees are custom theme, then comprehensive lms, then comprehensive cms. |
| SassCompile.Plan | pavelib/assets.py:211-227 | A pass is the directory calls followed by the file calls. Each call has the right kind, source and destination. Every call gets the load paths followed by all Sass trees as include paths. |
| SassCompile.CompileUnits | pavelib/assets.py:214-218 | The compile loop issues exactly the fail-fast prefix of its calls. It records one destination per completed call, in order. |
| SassCompile.CompileSass | pavelib/assets.py:198-232 | The pass issues the fail-fast prefix of `Plan(sassDirs)`. It finishes exactly when every call compiles. It records the destinations of the calls before the first failure; the report is printed only when every call compiles. |
| SassCompile.PassSplits | pavelib/assets.py:214-227 | The two loops compose: if a directory call fails, no file call is made; otherwise the file calls run and decide the outcome. |
| SassCompile.ThemeOutputsCreated | pavelib/assets.py:51-53 | After configuration, every theme tree's directory call writes into a directory that configuration created. |
| SassCompile.FullPassReportsEveryUnit | pavelib/assets.py:229-232 | When every call compiles, the pass succeeds and the report has one entry per call, in plan order. |
| Orchestrate.CompileTemplatedSass | pavelib/assets.py:235-249 | Issues the fail-fast prefix of the rendering plan, which has one rendering per system in the order given. It succeeds iff every rendering succeeds. |
| Orchestrate.CollectAssets | pavelib/assets.py:272-280 | Issues the fail-fast prefix of the collection plan, which has one collection per system in the order given, with the name unchanged. It succeeds iff every collection succeeds. |
| Orchestrate.CompileCoffeescript | pavelib/assets.py:171-188 | Issues one compile command. It gets the given files, or, when none are given, everything `find` reports under the configured CoffeeScript directories joined to the repository root. |
| Orchestrate.Compile | pavelib/assets.py:347-349 | XModule processing, the CoffeeScript compile of everything `find` reports under the configured directories, and a Sass pass with the debug option, in that order, stopping at the first failure. |
| Orchestrate.Build | pavelib/assets.py:346-349 | The renderings and then the three compile commands, as one fail-fast run. The CoffeeScript search roots come from the configured directories. |
| Orchestrate.Publish | pavelib/assets.py:351-355 | The collections (only if collecting) and then the watcher (only if watching), as one fail-fast run. |
| Orchestrate.UpdateAssets | pavelib/assets.py:319-355 | The pipeline issues the fail-fast prefix of: renderings, XModule processing, CoffeeScript, a Sass pass with the debug option, the collections (if collecting) and the watcher (if watching). It succeeds iff all of them do. The CoffeeScript search roots are the configured directories of the given path configuration. |
| Orchestrate.SingleStep | pavelib/assets.py:347 | A lone command is always issued and succeeds iff it runs. |
| Orchestrate.SkipCollectNeverCollects | pavelib/assets.py:336-352 | With `--skip-collect`, no collection command is issued, whatever fails. |
| Orchestrate.CollectOncePerSystem | pavelib/assets.py:346-352 | A plan position is a collection iff collecting and it lies in the block after the Sass pass; that block holds one collection per system, in order. |
| Orchestrate.PreprocessBeforeSass | pavelib/assets.py:346-349 | The Sass pass comes after every rendering, immediately after XModule processing and the CoffeeScript compile. |
| Orchestrate.PreprocessNeverStudio | pavelib/assets.py:241-247 | No rendering command names "studio". For "studio" the command renders system "cms", from `cms/static/sass/*.scss` into `cms/static/themed_sass`. Other systems keep their names. |
| Orchestrate.WatchLastIfRequested | pavelib/assets.py:354-355 | The watcher is started iff `--watch` is given. When it is, it is the last command, in the background unless debugging. |
| Watchers.RegisterCoffee | pavelib/assets.py:78-86 | When `find` fails, the registration raises and nothing is scheduled. Otherwise every directory holding a found CoffeeScript file is scheduled once, non-recursively, and nothing else is scheduled. |
| Watchers.SassWatchedIff | pavelib/assets.py:108-115 | A directory is watched for Sass iff some entry of load paths + Sass trees is that directory, or is a pattern that matches it. |
| Watchers.RegisterSass | pavelib/assets.py:104-115 | Schedules recursively, in order, each plain entry as it is and each pattern's matches. |
| Watchers.RegisterXModule | pavelib/assets.py:132-157 | Each XModule role schedules the XModule tree once, recursively. |
| Watchers.WatchAssetsTask | pavelib/assets.py:285-310 | On a dry run nothing is registered and the task returns at once. Otherwise a failing `find` raises before anything is scheduled. When it succeeds, the task registers the CoffeeScript schedules, then the Sass schedules, then both XModule schedules, and keeps waiting iff not in the background. |
| Watchers.OnModified | pavelib/assets.py:88-167 | The handler's events are exactly: the change, the rebuild and its outcome, a traceback iff the rebuild failed, and (only for the XModule assets watcher) the touch of the server entry files. It raises iff it is that watcher and the touch fails. |
| Watchers.HandlerTraceShape | pavelib/assets.py:88-167 | A handler's trace starts with the change and then the rebuild. The CoffeeScript watcher compiles only the changed file, the Sass watcher runs a Sass pass without options, and both XModule watchers process the XModule assets. The trace holds a traceback iff the rebuild failed. The touch comes last for the XModule assets watcher and is absent for every other role. Exactly one change is logged. |
| Watchers.ChangedPathsAppend | pavelib/assets.py:89-93 | The changed-file log of two event runs is the concatenation of their logs. |
| Watchers.Deliver | pavelib/assets.py:117-167 | Successive modifications, each with its own command outcomes: delivery raises iff some event's touch escapes. The events handled are those up to and including the first escaping one (all of them when none escapes). The trace is those handlers' traces in order, and the change log is exactly the handled sources. |
| Watchers.TraceAllPrefix | pavelib/assets.py:117-167 | The trace of the first events is a prefix of the trace of more events. |
| Watchers.ChangedPathsTraceAll | pavelib/assets.py:89-93 | The change log of successive handlers is exactly their sources, in order. |
| Watchers.EscapeAt | pavelib/assets.py:159-167 | When event `i` is the first whose touch fails, exactly `i + 1` events are handled. |
| Watchers.NoEscape | pavelib/assets.py:159-167 | When no touch fails, every event is handled. |
| Watchers.RebuildFailureDoesNotPersist | pavelib/assets.py:88-167 | A failed rebuild followed by a successful one: both events are handled, the first trace holds a traceback and the second holds none. |
| OrganizationsApi.GetOrganization | openedx/core/djangoapps/organization_api/api/views.py:25-41 | 404 iff the lookup finds nothing (or an empty record). Otherwise the response has exactly name, short name and description, plus the logo key iff the logo is truthy, with the logo's absolute URI. A truthy logo that is not a file raises. |
| OrganizationsApi.HandleGet | openedx/core/djangoapps/organization_api/api/views.py:22-23 | An unauthenticated request gets 401 and nothing else does; an authenticated one gets the view's answer. The status is 401 iff unauthenticated, 404 iff authenticated and the organization is not found, and 500 iff a found organization has a truthy logo that is not a file. |
| OrganizationsApi.AddOrganization | openedx/core/djangoapps/organization_api/tests/test_views.py:57-58 | Adding an organization stores it under its short name and keeps every other entry. |
| OrganizationsApi.NotFoundThenFound | openedx/core/djangoapps/organization_api/tests/test_views.py:47-63 | An unknown key answers 404. After the organization is added under that key, it answers 200 and the response's name is the stored name. |

## Left out

- Watchers.Deliver: events are delivered per role. All four handlers share one observer, so a touch failure escaping the XModule assets watcher plausibly stops event handling for every role. The model does not show this, because in it the other roles never escape.
- The observer, its thread, `observer.join` polling and stopping on KeyboardInterrupt are not modelled. `waits` only says whether the task would block.
- The watchers' file-pattern filters (`*.coffee`, `*.scss`, `*.css`/`*.js`, and the ignored `common/static/xmodule/*`) are not modelled. Handlers receive only the events the observer would deliver.
- `glob.glob` and the `find` command are inputs: `glob` is an abstract function. The `find` result is either the list of files it printed or `None` when it fails.
- Theme names are split at `/` into path components, but `.` and `..` components are kept as they are, not resolved.
- Printing, timings (`datetime.now`) and the duration half of each report entry are left out. `CompileSass` records destinations only.
- SassCompile.CompileSass: the selected output options are computed but never passed to `sass.compile`, so the model does not give them to any call. `SASS_CACHE_PATH` and the `force` option are unused by the code and left out.
- The file-pair calls' write of the compiled CSS to the target is folded into whether the call succeeds.
- Environment loading (`Env()`, feature flags, tokens) and argument parsing are inputs (`Env`, `Args`). The absolute repository root is given, not computed by `abspath`. A missing or empty COMPREHENSIVE_THEME_DIR is `None`.
- Directory existence is a set of existing paths fixed during configuration. `mkdir_p`'s creation of missing parents is not modelled, only the directory it is asked for.
- The real tools (`preprocess_assets`, `xmodule_assets`, `coffee`, `collectstatic`, `touch`, the Sass compiler) are abstract. Each command's success is a predicate over the command.
- The Django REST framework authentication classes are reduced to an `authenticated` flag. The organization store behind `get_organization_by_short_name` is a map keyed by short name. `build_absolute_uri` is a parameter.
- The prerequisite tasks that `update_assets` requires (Ruby and Node prerequisites) are not modelled.
- `compile_sass` started by `update_assets` and by the Sass watcher is one `CompileSassPass` command whose own run is modelled by `SassCompile.CompileSass`. The pipeline does not re-derive the pass's internal calls.
