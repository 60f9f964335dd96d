/**
  The build's directory configuration (the module-level lists of the asset
  script) and its theme-aware extension.

  The base configuration lists the Sass source trees, the directories searched
  for CoffeeScript, the explicit (source file, target file) pairs and the Sass
  load paths. `ConfigurePaths` extends the two lists in place from the
  environment: a custom theme and a comprehensive theme directory each
  contribute overlays, and an overlay's Sass tree is appended, and its `css`
  output directory created, only when that tree exists on disk.
 */
module AssetPaths {
  import opened Wrappers
  import opened Paths

  // ---------------------------------------------------------------- base configuration

  const BASE_COFFEE_DIRS: seq<Path> := [Rel(["lms"]), Rel(["cms"]), Rel(["common"])]

  /** Each of these is paired with a sibling `css` directory. */
  const BASE_SASS_DIRS: seq<Path> := [
    Rel(["lms", "static", "themed_sass"]),
    Rel(["cms", "static", "sass"]),
    Rel(["common", "static", "sass"]),
    Rel(["lms", "static", "certificates", "sass"])
  ]

  const SASS_FILES_AND_TARGETS: seq<(Path, Path)> := [
    (Rel(["lms", "static", "sass", "lms-main.scss"]), Rel(["lms", "static", "css", "lms-main.css"])),
    (Rel(["lms", "static", "sass", "lms-main-rtl.scss"]), Rel(["lms", "static", "css", "lms-main-rtl.css"])),
    (Rel(["lms", "static", "sass", "lms-course.scss"]), Rel(["lms", "static", "css", "lms-course.css"])),
    (Rel(["lms", "static", "sass", "lms-course-rtl.scss"]), Rel(["lms", "static", "css", "lms-course-rtl.css"]))
  ]

  const SASS_LOAD_PATHS: seq<Path> := [
    Rel(["common", "static"]),
    Rel(["common", "static", "sass"]),
    Rel(["lms", "static", "sass"])
  ]

  // ---------------------------------------------------------------- environment

  /**
    What the build reads from its environment: the USE_CUSTOM_THEME feature
    flag, the THEME_NAME token, the absolute form of the repository root and the
    COMPREHENSIVE_THEME_DIR token (None when it is missing or empty).
   */
  datatype Env = Env(
    useCustomTheme: bool,
    themeName: string,
    repoRootAbs: Path,
    comprehensiveThemeDir: Option<Path>)

  /** A theme's Sass source tree and the output directory it compiles to. */
  datatype Overlay = Overlay(sass: Path, css: Path)

  /** `<parent of the repository root>/themes/<theme name>`, the name joined as a path. */
  function ThemeRoot(env: Env): Path {
    Join(Child(Parent(env.repoRootAbs), "themes"), NamePath(env.themeName))
  }

  /** The overlay rooted at `root`: `root/static/sass` compiled to `root/static/css`. */
  function StaticOverlay(root: Path): Overlay {
    Overlay(Child(Child(root, "static"), "sass"), Child(Child(root, "static"), "css"))
  }

  /** The overlays the environment asks for, in the order they are considered. */
  function Candidates(env: Env): (c: seq<Overlay>)
    ensures |c| == (if env.useCustomTheme then 1 else 0) + (if env.comprehensiveThemeDir.Some? then 2 else 0)
    ensures env.useCustomTheme ==> c[0] == StaticOverlay(ThemeRoot(env))
    ensures env.comprehensiveThemeDir.Some? ==>
      c[|c| - 2] == StaticOverlay(Child(env.comprehensiveThemeDir.value, "lms")) &&
      c[|c| - 1] == StaticOverlay(Child(env.comprehensiveThemeDir.value, "cms"))
    ensures forall o :: o in c ==> o.css == CssDirOf(o.sass)
  {
    var custom := if env.useCustomTheme then [StaticOverlay(ThemeRoot(env))] else [];
    var comprehensive :=
      match env.comprehensiveThemeDir
      case None => []
      case Some(d) => [StaticOverlay(Child(d, "lms")), StaticOverlay(Child(d, "cms"))];
    forall o | o in custom + comprehensive ensures o.css == CssDirOf(o.sass) {
      var root :| o == StaticOverlay(root);
      CssSiblingOfSass(root);
    }
    custom + comprehensive
  }

  /** The overlays whose Sass tree exists, in their original order. */
  function Kept(overlays: seq<Overlay>, existing: set<Path>): seq<Overlay> {
    if overlays == [] then []
    else if overlays[0].sass in existing then [overlays[0]] + Kept(overlays[1..], existing)
    else Kept(overlays[1..], existing)
  }

  function Sources(overlays: seq<Overlay>): seq<Path> {
    seq(|overlays|, i requires 0 <= i < |overlays| => overlays[i].sass)
  }

  function Outputs(overlays: seq<Overlay>): set<Path> {
    set o | o in overlays :: o.css
  }

  /** The Sass trees that configuration appends. */
  function AddedSassDirs(env: Env, existing: set<Path>): seq<Path> {
    Sources(Kept(Candidates(env), existing))
  }

  /** The directories that configuration creates. */
  function CreatedDirs(env: Env, existing: set<Path>): set<Path> {
    Outputs(Kept(Candidates(env), existing))
  }

  /** The directories that configuration appends to the CoffeeScript search list. */
  function AddedCoffeeDirs(env: Env): seq<Path> {
    if env.useCustomTheme then [ThemeRoot(env)] else []
  }

  // ---------------------------------------------------------------- the configuration object

  /**
    The mutable configuration: the Sass source trees, the CoffeeScript roots
    and the output directories created so far.
   */
  class AssetPaths {
    var sassDirs: seq<Path>
    var coffeeDirs: seq<Path>
    var created: set<Path>

    constructor ()
      ensures sassDirs == BASE_SASS_DIRS && coffeeDirs == BASE_COFFEE_DIRS && created == {}
    {
      sassDirs := BASE_SASS_DIRS;
      coffeeDirs := BASE_COFFEE_DIRS;
      created := {};
    }

    /**
      One overlay: when its Sass tree exists, create its output directory and
      append the tree; otherwise change nothing.
     */
    method AddOverlayIfExists(o: Overlay, existing: set<Path>)
      modifies this
      ensures sassDirs == old(sassDirs) + Sources(Kept([o], existing))
      ensures created == old(created) + Outputs(Kept([o], existing))
      ensures coffeeDirs == old(coffeeDirs)
    {
      if o.sass in existing {
        created := created + {o.css};
        sassDirs := sassDirs + [o.sass];
      }
    }

    /**
      Extends the configuration from `env`; `existing` is the set of
      directories present on disk.
     */
    method ConfigurePaths(env: Env, existing: set<Path>)
      modifies this
      ensures sassDirs == old(sassDirs) + AddedSassDirs(env, existing)
      ensures coffeeDirs == old(coffeeDirs) + AddedCoffeeDirs(env)
      ensures created == old(created) + CreatedDirs(env, existing)
    {
      ghost var considered: seq<Overlay> := [];
      if env.useCustomTheme {
        var themeRoot := ThemeRoot(env);
        coffeeDirs := coffeeDirs + [themeRoot];
        var custom := StaticOverlay(themeRoot);
        AddOverlayIfExists(custom, existing);
        considered := [custom];
      }
      assert sassDirs == old(sassDirs) + Sources(Kept(considered, existing));
      assert created == old(created) + Outputs(Kept(considered, existing));
      if env.comprehensiveThemeDir.Some? {
        var themeDir := env.comprehensiveThemeDir.value;
        var lms := StaticOverlay(Child(themeDir, "lms"));
        ExtendWith(old(sassDirs), considered, lms, existing, sassDirs);
        AddOverlayIfExists(lms, existing);
        considered := considered + [lms];
        var cms := StaticOverlay(Child(themeDir, "cms"));
        ExtendWith(old(sassDirs), considered, cms, existing, sassDirs);
        AddOverlayIfExists(cms, existing);
        considered := considered + [cms];
      }
      assert considered == Candidates(env);
    }
  }

  /** Considering one more overlay extends the appended trees and created directories by its own. */
  lemma ExtendWith(base: seq<Path>, considered: seq<Overlay>, o: Overlay, existing: set<Path>, current: seq<Path>)
    requires current == base + Sources(Kept(considered, existing))
    ensures current + Sources(Kept([o], existing)) == base + Sources(Kept(considered + [o], existing))
    ensures Outputs(Kept(considered + [o], existing)) ==
      Outputs(Kept(considered, existing)) + Outputs(Kept([o], existing))
  {
    KeptAppend(considered, [o], existing);
    SourcesAppend(Kept(considered, existing), Kept([o], existing));
    OutputsAppend(Kept(considered, existing), Kept([o], existing));
    ConcatAssoc(base, Sources(Kept(considered, existing)), Sources(Kept([o], existing)));
  }

  // ---------------------------------------------------------------- properties

  /** A plain theme name adds one directory under `themes`; a missing (empty) name selects `themes` itself. */
  lemma ThemeRootOfName(env: Env)
    ensures env.themeName != [] && '/' !in env.themeName ==>
      ThemeRoot(env) == Child(Child(Parent(env.repoRootAbs), "themes"), env.themeName)
    ensures env.themeName == [] ==> ThemeRoot(env) == Child(Parent(env.repoRootAbs), "themes")
  {
    if env.themeName != [] && '/' !in env.themeName {
      SimpleName(env.themeName);
    }
    if env.themeName == [] {
      JoinEmptyName(Child(Parent(env.repoRootAbs), "themes"));
    }
  }

  lemma {:induction false} KeptAppend(xs: seq<Overlay>, ys: seq<Overlay>, existing: set<Path>)
    ensures Kept(xs + ys, existing) == Kept(xs, existing) + Kept(ys, existing)
  {
    if xs == [] {
      assert xs + ys == ys;
    } else {
      assert (xs + ys)[1..] == xs[1..] + ys;
      KeptAppend(xs[1..], ys, existing);
    }
  }

  lemma SourcesAppend(xs: seq<Overlay>, ys: seq<Overlay>)
    ensures Sources(xs + ys) == Sources(xs) + Sources(ys)
  {
  }

  lemma ConcatAssoc<T>(x: seq<T>, y: seq<T>, z: seq<T>)
    ensures x + y + z == x + (y + z)
  {
  }

  lemma OutputsAppend(xs: seq<Overlay>, ys: seq<Overlay>)
    ensures Outputs(xs + ys) == Outputs(xs) + Outputs(ys)
  {
  }

  /** An overlay is kept exactly when it was asked for and its Sass tree exists. */
  lemma {:induction false} KeptIffExists(overlays: seq<Overlay>, existing: set<Path>, o: Overlay)
    ensures o in Kept(overlays, existing) <==> o in overlays && o.sass in existing
  {
    if overlays != [] {
      KeptIffExists(overlays[1..], existing, o);
      assert overlays == [overlays[0]] + overlays[1..];
    }
  }

  /** Kept overlays appear in the order in which they were asked for. */
  lemma {:induction false} KeptKeepsOrder(overlays: seq<Overlay>, existing: set<Path>, i: nat, j: nat)
    requires i < j < |overlays|
    requires overlays[i].sass in existing && overlays[j].sass in existing
    ensures exists a, b :: (0 <= a < b < |Kept(overlays, existing)| &&
      Kept(overlays, existing)[a] == overlays[i] && Kept(overlays, existing)[b] == overlays[j])
  {
    var rest := overlays[1..];
    if i == 0 {
      KeptIffExists(rest, existing, overlays[j]);
      var b' :| 0 <= b' < |Kept(rest, existing)| && Kept(rest, existing)[b'] == overlays[j];
      assert Kept(overlays, existing)[0] == overlays[0];
      assert Kept(overlays, existing)[b' + 1] == overlays[j];
    } else {
      KeptKeepsOrder(rest, existing, i - 1, j - 1);
      var a', b' :| 0 <= a' < b' < |Kept(rest, existing)| &&
        Kept(rest, existing)[a'] == overlays[i] && Kept(rest, existing)[b'] == overlays[j];
      if overlays[0].sass in existing {
        assert Kept(overlays, existing)[a' + 1] == overlays[i];
        assert Kept(overlays, existing)[b' + 1] == overlays[j];
      } else {
        assert Kept(overlays, existing) == Kept(rest, existing);
      }
    }
  }

  /** Without a custom theme and without a comprehensive theme directory, nothing changes. */
  lemma NoThemeNoChange(env: Env, existing: set<Path>)
    requires !env.useCustomTheme && env.comprehensiveThemeDir.None?
    ensures AddedSassDirs(env, existing) == [] && CreatedDirs(env, existing) == {}
    ensures AddedCoffeeDirs(env) == []
  {
  }

  /**
    A Sass tree is appended exactly when some requested overlay names it and it
    exists; a missing tree adds nothing.
   */
  lemma AppendedIffExists(env: Env, existing: set<Path>, s: Path)
    ensures s in AddedSassDirs(env, existing) <==>
      s in existing && exists o :: o in Candidates(env) && o.sass == s
  {
    var kept := Kept(Candidates(env), existing);
    if s in AddedSassDirs(env, existing) {
      var i :| 0 <= i < |kept| && kept[i].sass == s;
      KeptIffExists(Candidates(env), existing, kept[i]);
    }
    if s in existing && exists o :: o in Candidates(env) && o.sass == s {
      var o :| o in Candidates(env) && o.sass == s;
      KeptIffExists(Candidates(env), existing, o);
      var i :| 0 <= i < |kept| && kept[i] == o;
      assert AddedSassDirs(env, existing)[i] == s;
    }
  }

  /**
    A directory is created exactly when it is the `css` sibling of a requested
    Sass tree that exists; so every appended tree has its output directory.
   */
  lemma CreatedIffSourceExists(env: Env, existing: set<Path>, c: Path)
    ensures c in CreatedDirs(env, existing) <==>
      exists o :: o in Candidates(env) && o.sass in existing && o.css == c
  {
    var kept := Kept(Candidates(env), existing);
    if c in CreatedDirs(env, existing) {
      var o :| o in kept && o.css == c;
      KeptIffExists(Candidates(env), existing, o);
    }
    if exists o :: o in Candidates(env) && o.sass in existing && o.css == c {
      var o :| o in Candidates(env) && o.sass in existing && o.css == c;
      KeptIffExists(Candidates(env), existing, o);
    }
  }

  /** Every appended Sass tree's compile output directory has been created. */
  lemma AppendedHaveOutputDir(env: Env, existing: set<Path>, s: Path)
    requires s in AddedSassDirs(env, existing)
    ensures CssDirOf(s) in CreatedDirs(env, existing)
  {
    var kept := Kept(Candidates(env), existing);
    var i :| 0 <= i < |kept| && kept[i].sass == s;
    KeptIffExists(Candidates(env), existing, kept[i]);
    assert kept[i] in kept;
  }

  /** With both themes enabled and every tree present: custom theme, then lms, then cms. */
  lemma ThemeOrder(env: Env, existing: set<Path>)
    requires env.useCustomTheme && env.comprehensiveThemeDir.Some?
    requires forall o :: o in Candidates(env) ==> o.sass in existing
    ensures var d := env.comprehensiveThemeDir.value;
      AddedSassDirs(env, existing) == [
        StaticOverlay(ThemeRoot(env)).sass,
        StaticOverlay(Child(d, "lms")).sass,
        StaticOverlay(Child(d, "cms")).sass]
  {
    var c := Candidates(env);
    assert c[2..][1..] == [];
    assert Kept(c[2..], existing) == c[2..];
    assert c[1..][1..] == c[2..];
    assert Kept(c[1..], existing) == c[1..];
    assert Kept(c, existing) == c;
  }
}
