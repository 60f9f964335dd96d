/**
  Filesystem paths as the build scripts use them: a path is absolute or
  relative, and is a sequence of components. `/` on paths follows
  `os.path.join`: joining an absolute path discards what came before it.
 */
module Paths {

  datatype Path = Path(absolute: bool, parts: seq<string>)

  /** A relative path given by its components, e.g. Rel(["lms", "static", "sass"]). */
  function Rel(parts: seq<string>): Path {
    Path(false, parts)
  }

  /** `p / name` for a single component `name`. */
  function Child(p: Path, name: string): Path {
    Path(p.absolute, p.parts + [name])
  }

  /** `base / p`: an absolute `p` replaces `base`. */
  function Join(base: Path, p: Path): Path {
    if p.absolute then p else Path(base.absolute, base.parts + p.parts)
  }

  /** `p.parent` (also `dirname`); the parent of an empty path is itself. */
  function Parent(p: Path): Path {
    if |p.parts| == 0 then p else Path(p.absolute, p.parts[..|p.parts| - 1])
  }

  /** The output directory paired with a Sass source directory: `sass_dir.parent / "css"`. */
  function CssDirOf(sassDir: Path): Path {
    Child(Parent(sassDir), "css")
  }

  /** `'*' in str(p)`: the separator is never `*`, so it is some component that holds one. */
  predicate HasWildcard(p: Path) {
    exists i :: 0 <= i < |p.parts| && '*' in p.parts[i]
  }

  /** The length of the first component of `s`: up to the first `/` or the end. */
  function ComponentLength(s: string): (n: nat)
    ensures n <= |s|
    ensures forall k :: 0 <= k < n ==> s[k] != '/'
    ensures n < |s| ==> s[n] == '/'
  {
    if s == [] || s[0] == '/' then 0 else 1 + ComponentLength(s[1..])
  }

  /**
    The components of a `/`-separated name. Runs of separators and leading or
    trailing ones produce no component.
   */
  function Components(s: string): (parts: seq<string>)
    ensures forall k :: 0 <= k < |parts| ==> parts[k] != [] && '/' !in parts[k]
    decreases |s|
  {
    if s == [] then []
    else if s[0] == '/' then Components(s[1..])
    else
      var n := ComponentLength(s);
      [s[..n]] + Components(s[n..])
  }

  /** A name given as a string, as a path: absolute when it starts with `/`. */
  function NamePath(s: string): Path {
    Path(|s| > 0 && s[0] == '/', Components(s))
  }

  /** A non-empty name without separators is a single component. */
  lemma SimpleName(s: string)
    requires s != [] && '/' !in s
    ensures Components(s) == [s]
  {
    assert ComponentLength(s) == |s|;
    assert s[0] != '/' by {
      assert s[0] in s;
    }
    assert s[..|s|] == s && s[|s|..] == [];
  }

  /** A leading component followed by a separator splits off: `a/b` is `a` then the components of `b`. */
  lemma {:induction false} ComponentsCons(a: string, b: string)
    requires a != [] && '/' !in a
    ensures Components(a + "/" + b) == [a] + Components(b)
  {
    var s := a + "/" + b;
    assert s[0] == a[0] && a[0] in a;
    var n := ComponentLength(s);
    assert s[|a|] == '/';
    assert forall k :: 0 <= k < |a| ==> s[k] == a[k] && a[k] in a;
    assert n == |a|;
    assert s[..n] == a;
    assert s[n..] == "/" + b;
    assert ("/" + b)[1..] == b;
  }

  /** Joining an empty name keeps the base: `os.path.join(base, "")` names the same directory. */
  lemma JoinEmptyName(base: Path)
    ensures Join(base, NamePath("")) == base
  {
    assert base.parts + [] == base.parts;
  }

  lemma ParentOfChild(p: Path, name: string)
    ensures Parent(Child(p, name)) == p
  {
    assert Child(p, name).parts[..|p.parts|] == p.parts;
  }

  /** The `css` sibling of `<root>/static/sass` is `<root>/static/css`. */
  lemma CssSiblingOfSass(root: Path)
    ensures CssDirOf(Child(Child(root, "static"), "sass")) == Child(Child(root, "static"), "css")
  {
    ParentOfChild(Child(root, "static"), "sass");
  }
}
