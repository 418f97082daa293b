/**
 * The music plugin of stormbot/music.py: the path-containment guard that
 * keeps requested songs inside the configured music directory, and the
 * decisions `run` takes before spawning the player.
 *
 * Paths are POSIX strings. `JoinPath`, `NormPath`, `AbsPath` and
 * `CommonPath` follow Python's posixpath functions of the same names; the
 * working directory and the file-existence check are parameters.
 */
module Music {
  import opened Wrappers
  import opened Text

  const Refusal: string := "Don't try to mess with me !"
  const Missing: string := "You have such shit taste I don't even have this song !"
  const Playing: string := "playing your favorite song out loud !"

  predicate IsAbs(p: string)
  {
    StartsWith(p, "/")
  }

  /** `posixpath.join(a, b)`: an absolute `b` discards `a`. */
  function JoinPath(a: string, b: string): (r: string)
    ensures IsAbs(b) ==> r == b
    ensures IsAbs(a) || IsAbs(b) ==> IsAbs(r)
    ensures !IsAbs(b) ==> StartsWith(r, a) && |b| <= |r| && r[|r| - |b|..] == b
    ensures !IsAbs(b) && a != "" ==> |a| + |b| < |r| + 1 && r[|r| - |b| - 1] == '/'
  {
    if IsAbs(b) then b
    else if a == "" || a[|a| - 1] == '/' then a + b
    else a + "/" + b
  }

  /** A component of a normalised absolute path. */
  predicate Clean(c: string)
  {
    c != "" && c != "." && c != ".." && '/' !in c
  }

  predicate AllClean(cs: seq<string>)
  {
    forall i :: 0 <= i < |cs| ==> Clean(cs[i])
  }

  /** A non-empty piece between separators. */
  predicate Piece(c: string)
  {
    c != "" && '/' !in c
  }

  predicate AllPieces(cs: seq<string>)
  {
    forall i :: 0 <= i < |cs| ==> Piece(cs[i])
  }

  /** Pieces none of which is "."; ".." may remain. */
  predicate NoDots(cs: seq<string>)
  {
    forall i :: 0 <= i < |cs| ==> Piece(cs[i]) && cs[i] != "."
  }

  /** The leading slashes `normpath` keeps: two stay two, one or three and more become one. */
  function Slashes(p: string): nat
  {
    if StartsWith(p, "//") && !StartsWith(p, "///") then 2
    else if StartsWith(p, "/") then 1
    else 0
  }

  /** One turn of `normpath`'s loop over the components. */
  function Collapse(stack: seq<string>, comp: string, rooted: bool): seq<string>
  {
    if comp == "" || comp == "." then stack
    else if comp != ".." || (!rooted && stack == []) || (stack != [] && stack[|stack| - 1] == "..") then stack + [comp]
    else if stack != [] then stack[..|stack| - 1]
    else stack
  }

  /** `normpath`'s loop: empty and "." components vanish, ".." cancels the component before it. */
  function CollapseAll(stack: seq<string>, parts: seq<string>, rooted: bool): (r: seq<string>)
    ensures rooted && AllClean(stack) && (forall i :: 0 <= i < |parts| ==> '/' !in parts[i]) ==> AllClean(r)
    decreases |parts|
  {
    if parts == [] then stack else CollapseAll(Collapse(stack, parts[0], rooted), parts[1..], rooted)
  }

  /** Collapsing separator-free parts onto pieces other than "." leaves only such pieces. */
  lemma {:induction false} CollapseNoDots(stack: seq<string>, parts: seq<string>, rooted: bool)
    requires NoDots(stack) && forall i :: 0 <= i < |parts| ==> '/' !in parts[i]
    ensures NoDots(CollapseAll(stack, parts, rooted))
    decreases |parts|
  {
    if parts != [] {
      CollapseNoDots(Collapse(stack, parts[0], rooted), parts[1..], rooted);
    }
  }

  /** The components `normpath` keeps. */
  function NormComponents(p: string): (r: seq<string>)
    ensures NoDots(r)
    ensures Slashes(p) > 0 ==> AllClean(r)
  {
    CollapseNoDots([], Split(p, '/'), Slashes(p) > 0);
    CollapseAll([], Split(p, '/'), Slashes(p) > 0)
  }

  /** `posixpath.normpath`. */
  function NormPath(p: string): (r: string)
    ensures r != ""
    ensures IsAbs(p) ==> IsAbs(r)
  {
    if p == "" then "."
    else
      var r := seq(Slashes(p), _ => '/') + Join(NormComponents(p), '/');
      if r == "" then "." else r
  }

  /** `posixpath.abspath` with `cwd` as the working directory. */
  function AbsPath(cwd: string, p: string): (r: string)
    ensures IsAbs(p) ==> r == NormPath(p)
    ensures IsAbs(cwd) ==> IsAbs(r)
  {
    NormPath(if IsAbs(p) then p else JoinPath(cwd, p))
  }

  /** The components `commonpath` compares: the pieces of the path other than empty ones and ".". */
  function Components(p: string): (r: seq<string>)
    ensures AllPieces(r)
  {
    Filter(Split(p, '/'))
  }

  function Filter(parts: seq<string>): (r: seq<string>)
    requires forall i :: 0 <= i < |parts| ==> '/' !in parts[i]
    ensures AllPieces(r) && forall i :: 0 <= i < |r| ==> r[i] != "."
    ensures AllClean(parts) ==> r == parts
  {
    if parts == [] then []
    else if parts[0] == "" || parts[0] == "." then Filter(parts[1..])
    else [parts[0]] + Filter(parts[1..])
  }

  predicate IsPrefix(a: seq<string>, b: seq<string>)
  {
    |a| <= |b| && b[..|a|] == a
  }

  /** The longest common prefix of two component lists. */
  function Lcp(x: seq<string>, y: seq<string>): (r: seq<string>)
    ensures IsPrefix(r, x) && IsPrefix(r, y)
    ensures |r| == |x| || |r| == |y| || x[|r|] != y[|r|]
  {
    if x == [] || y == [] || x[0] != y[0] then []
    else [x[0]] + Lcp(x[1..], y[1..])
  }

  /**
   * `posixpath.commonpath([a, b])`: the common leading components, rooted
   * when both paths are; mixing an absolute and a relative path is a
   * ValueError. (For two paths, the common prefix of the smallest and the
   * largest component list is the common prefix of both.)
   */
  function CommonPath(a: string, b: string): (r: Option<string>)
    ensures r.None? <==> IsAbs(a) != IsAbs(b)
  {
    if IsAbs(a) != IsAbs(b) then None
    else Some((if IsAbs(a) then "/" else "") + Join(Lcp(Components(a), Components(b)), '/'))
  }

  /** `Music.safe_path`: None stands for the ValueError of `commonpath`. */
  function SafePath(base: string, cwd: string, p: string): (r: Option<bool>)
    ensures IsAbs(base) && IsAbs(cwd) ==> r.Some?
  {
    var a := AbsPath(cwd, p);
    match CommonPath(a, base)
    case None => None
    case Some(common) => Some(common == base)
  }

  /** Joining pieces with '/' loses nothing: different piece lists give different strings. */
  lemma JoinInjective(x: seq<string>, y: seq<string>)
    requires AllPieces(x) && AllPieces(y)
    requires Join(x, '/') == Join(y, '/')
    ensures x == y
  {
    if x != [] && y != [] {
      SplitJoin(x, '/');
      SplitJoin(y, '/');
    } else if x != [] {
      JoinNonEmpty(x);
    } else if y != [] {
      JoinNonEmpty(y);
    }
  }

  lemma JoinNonEmpty(x: seq<string>)
    requires AllPieces(x) && x != []
    ensures Join(x, '/') != "" && Join(x, '/')[0] == x[0][0]
  {
    if |x| > 1 {
      assert Join(x, '/') == x[0] + ['/'] + Join(x[1..], '/');
    }
  }

  /** The pieces of a rooted path built from clean components are those components. */
  lemma ComponentsOfRooted(cs: seq<string>)
    requires AllClean(cs)
    ensures Components("/" + Join(cs, '/')) == cs
    ensures Split("/" + Join(cs, '/'), '/') == [""] + (if cs == [] then [""] else cs)
  {
    var s := "/" + Join(cs, '/');
    assert s == "" + ['/'] + Join(cs, '/');
    SplitAfter("", '/', Join(cs, '/'));
    if cs != [] {
      SplitJoin(cs, '/');
      assert ([""] + cs)[1..] == cs;
    } else {
      assert Split("", '/') == [""];
      assert Filter(["", ""]) == Filter([""]) == [];
    }
  }

  /** `normpath` leaves a rooted path of clean components as it is. */
  lemma NormRooted(cs: seq<string>)
    requires AllClean(cs)
    ensures NormComponents("/" + Join(cs, '/')) == cs
    ensures NormPath("/" + Join(cs, '/')) == "/" + Join(cs, '/')
  {
    var s := "/" + Join(cs, '/');
    ComponentsOfRooted(cs);
    if cs != [] {
      JoinNonEmpty(cs);
      assert s[1] == cs[0][0];
    }
    assert Slashes(s) == 1;
    CollapseClean([], cs);
    if cs == [] {
      assert CollapseAll([], ["", ""], true) == [];
    } else {
      assert ([""] + cs)[1..] == cs;
    }
    assert seq(1, _ => '/') == "/";
  }

  /** Clean components are pushed one by one. */
  lemma {:induction false} CollapseClean(stack: seq<string>, cs: seq<string>)
    requires AllClean(cs)
    ensures CollapseAll(stack, cs, true) == stack + cs
    decreases |cs|
  {
    if cs == [] {
      assert stack + cs == stack;
    } else {
      CollapseClean(stack + [cs[0]], cs[1..]);
      assert stack + [cs[0]] + cs[1..] == stack + cs;
    }
  }

  /**
   * The guard is a component-wise prefix test: for a base directory in
   * normal form, a path is safe exactly when the components of its
   * normalised absolute form start with the base's components.
   */
  lemma SafeIff(cs: seq<string>, cwd: string, p: string)
    requires AllClean(cs) && IsAbs(cwd)
    ensures SafePath("/" + Join(cs, '/'), cwd, p) == Some(IsPrefix(cs, Components(AbsPath(cwd, p))))
  {
    var base := "/" + Join(cs, '/');
    var a := AbsPath(cwd, p);
    ComponentsOfRooted(cs);
    var l := Lcp(Components(a), cs);
    assert CommonPath(a, base) == Some("/" + Join(l, '/'));
    assert AllPieces(l) by {
      assert forall i :: 0 <= i < |l| ==> l[i] == Components(a)[i];
    }
    if "/" + Join(l, '/') == base {
      assert Join(l, '/') == ("/" + Join(l, '/'))[1..] == base[1..] == Join(cs, '/');
      JoinInjective(l, cs);
    }
    if IsPrefix(cs, Components(a)) {
      assert l == cs;
    }
  }

  /** The base directory itself is safe. */
  lemma BaseIsSafe(cs: seq<string>, cwd: string)
    requires AllClean(cs) && IsAbs(cwd)
    ensures SafePath("/" + Join(cs, '/'), cwd, "/" + Join(cs, '/')) == Some(true)
  {
    SafeIff(cs, cwd, "/" + Join(cs, '/'));
    NormRooted(cs);
    ComponentsOfRooted(cs);
  }

  /** Base "/music" rejects "/musicx/a": the test compares whole components, not characters. */
  lemma SiblingPrefixRejected(cwd: string)
    requires IsAbs(cwd)
    ensures SafePath("/music", cwd, "/musicx/a") == Some(false)
  {
    assert "/music" == "/" + Join(["music"], '/');
    assert Join(["musicx", "a"], '/') == "musicx/a";
    assert "/musicx/a" == "/" + Join(["musicx", "a"], '/');
    assert AllClean(["musicx", "a"]) && AllClean(["music"]);
    SafeIff(["music"], cwd, "/musicx/a");
    NormRooted(["musicx", "a"]);
    ComponentsOfRooted(["musicx", "a"]);
  }

  lemma JoinSnoc(cs: seq<string>, c: string)
    requires cs != []
    ensures Join(cs + [c], '/') == Join(cs, '/') + "/" + c
  {
    if |cs| == 1 {
      assert cs + [c] == [cs[0], c];
    } else {
      assert (cs + [c])[1..] == cs[1..] + [c];
      JoinSnoc(cs[1..], c);
    }
  }

  /**
   * Asking for ".." from a base below the root climbs out of it: the joined
   * path normalises to the parent directory, which the guard rejects.
   */
  lemma ParentEscapes(cs: seq<string>, cwd: string)
    requires AllClean(cs) && cs != [] && IsAbs(cwd)
    ensures SafePath("/" + Join(cs, '/'), cwd, JoinPath("/" + Join(cs, '/'), "..")) == Some(false)
  {
    var joined := JoinPath("/" + Join(cs, '/'), "..");
    JoinParent(cs);
    NormParent(cs);
    var up := cs[..|cs| - 1];
    assert AllClean(up);
    ComponentsOfRooted(up);
    SafeIff(cs, cwd, joined);
  }

  /** Joining ".." onto a rooted path appends a ".." component. */
  lemma JoinParent(cs: seq<string>)
    requires AllClean(cs) && cs != []
    ensures JoinPath("/" + Join(cs, '/'), "..") == "/" + Join(cs + [".."], '/')
  {
    var base := "/" + Join(cs, '/');
    JoinNonEmpty(cs);
    LastChar(cs);
    assert ".."[..1] == "." != "/";
    assert base[|base| - 1] == Join(cs, '/')[|Join(cs, '/')| - 1];
    JoinSnoc(cs, "..");
  }

  /** `normpath` cancels a trailing ".." against the component before it. */
  lemma NormParent(cs: seq<string>)
    requires AllClean(cs) && cs != []
    ensures NormPath("/" + Join(cs + [".."], '/')) == "/" + Join(cs[..|cs| - 1], '/')
  {
    var joined := "/" + Join(cs + [".."], '/');
    NormParentComponents(cs);
    assert Slashes(joined) == 1;
    assert seq(1, _ => '/') == "/";
  }

  lemma NormParentComponents(cs: seq<string>)
    requires AllClean(cs) && cs != []
    ensures NormComponents("/" + Join(cs + [".."], '/')) == cs[..|cs| - 1]
    ensures Slashes("/" + Join(cs + [".."], '/')) == 1
  {
    var parts := cs + [".."];
    assert AllPieces(parts) by {
      assert forall i :: 0 <= i < |cs| ==> parts[i] == cs[i];
    }
    RootedComponents(parts);
    CollapseParent(cs);
  }

  /** Clean components followed by ".." collapse to all but the last component. */
  lemma CollapseParent(cs: seq<string>)
    requires AllClean(cs) && cs != []
    ensures CollapseAll([], cs + [".."], true) == cs[..|cs| - 1]
  {
    CollapseSplit([], cs, [".."]);
    CollapseClean([], cs);
    assert [] + cs == cs;
    assert cs[|cs| - 1] != "..";
    assert CollapseAll(cs, [".."], true) == CollapseAll(Collapse(cs, "..", true), [], true);
  }

  /** `normpath`'s loop sees a rooted path of pieces as the pieces themselves. */
  lemma RootedComponents(parts: seq<string>)
    requires AllPieces(parts) && parts != []
    ensures NormComponents("/" + Join(parts, '/')) == CollapseAll([], parts, true)
    ensures Slashes("/" + Join(parts, '/')) == 1
  {
    RootedSplit(parts);
    var rooted := [""] + parts;
    assert rooted[0] == "" && rooted[1..] == parts;
    assert CollapseAll([], rooted, true) == CollapseAll([], parts, true);
  }

  /** A rooted path of pieces splits into an empty root piece and the pieces, and keeps one slash. */
  lemma RootedSplit(parts: seq<string>)
    requires AllPieces(parts) && parts != []
    ensures Split("/" + Join(parts, '/'), '/') == [""] + parts
    ensures Slashes("/" + Join(parts, '/')) == 1
  {
    var joined := "/" + Join(parts, '/');
    JoinNonEmpty(parts);
    SplitJoin(parts, '/');
    assert joined == "" + ['/'] + Join(parts, '/');
    SplitAfter("", '/', Join(parts, '/'));
    assert joined[1] == parts[0][0];
  }

  lemma LastChar(cs: seq<string>)
    requires AllClean(cs) && cs != []
    ensures Join(cs, '/')[|Join(cs, '/')| - 1] != '/'
  {
    if |cs| > 1 {
      assert Join(cs, '/') == cs[0] + ['/'] + Join(cs[1..], '/');
      JoinNonEmpty(cs[1..]);
      LastChar(cs[1..]);
    } else {
      assert cs[0][|cs[0]| - 1] in cs[0];
    }
  }

  lemma {:induction false} CollapseSplit(stack: seq<string>, a: seq<string>, b: seq<string>)
    ensures CollapseAll(stack, a + b, true) == CollapseAll(CollapseAll(stack, a, true), b, true)
    decreases |a|
  {
    if a == [] {
      assert a + b == b;
    } else {
      assert (a + b)[0] == a[0] && (a + b)[1..] == a[1..] + b;
      CollapseSplit(Collapse(stack, a[0], true), a[1..], b);
    }
  }

  /**
   * An absolute argument replaces the base in the join, so it is safe only
   * when it lies under the base.
   */
  lemma AbsoluteArgument(cs: seq<string>, cwd: string, arg: string)
    requires AllClean(cs) && IsAbs(cwd) && IsAbs(arg)
    ensures JoinPath("/" + Join(cs, '/'), arg) == arg
    ensures SafePath("/" + Join(cs, '/'), cwd, JoinPath("/" + Join(cs, '/'), arg)) ==
      Some(IsPrefix(cs, Components(NormPath(arg))))
  {
    SafeIff(cs, cwd, arg);
  }

  /**
   * A base that starts with exactly two slashes (which `abspath` keeps) is
   * never matched: `commonpath` always answers with a single leading slash,
   * so every path, the base included, is refused.
   */
  lemma DoubleSlashBaseRejectsAll(base: string, cwd: string, p: string)
    requires Slashes(base) == 2 && IsAbs(cwd)
    ensures SafePath(base, cwd, p) == Some(false)
  {
    var a := AbsPath(cwd, p);
    var l := Lcp(Components(a), Components(base));
    assert AllPieces(l) by {
      assert forall i :: 0 <= i < |l| ==> l[i] == Components(a)[i];
    }
    var common := "/" + Join(l, '/');
    if l != [] {
      JoinNonEmpty(l);
      assert common[1] == l[0][0] && l[0][0] in l[0];
    }
    assert base[1] == '/';
    assert common != base;
  }

  /** The plugin's configuration: player, music directory as `abspath` made it, and default song. */
  datatype Music = Music(player: string, path: string, default: Option<string>)

  /** `Music.__init__`. */
  function Init(player: string, musicPath: string, default: Option<string>, cwd: string): (m: Music)
    ensures IsAbs(cwd) ==> IsAbs(m.path)
  {
    Music(player, AbsPath(cwd, musicPath), default)
  }

  /**
   * `Music.run`: `song` is the parsed song argument (the default when none
   * was given), `fileExists` answers `os.path.exists`. Returns the lines written,
   * the command spawned, and whether the join raised (no song at all).
   */
  method Run(m: Music, song: Option<string>, cwd: string, fileExists: string -> bool)
    returns (lines: seq<string>, command: Option<seq<string>>, raised: bool)
    requires IsAbs(m.path) && IsAbs(cwd)
    ensures song.None? ==> raised && lines == [] && command.None?
    ensures song.Some? ==> !raised
    ensures song.Some? && SafePath(m.path, cwd, JoinPath(m.path, song.value)) == Some(false) ==>
      lines == [Refusal] && command.None?
    ensures song.Some? && SafePath(m.path, cwd, JoinPath(m.path, song.value)) == Some(true) ==>
      var music := JoinPath(m.path, song.value);
      && lines == (if fileExists(music) then [] else [Missing]) + [Playing]
      && command == Some([m.player, music])
  {
    if song.None? {
      return [], None, true;
    }
    raised := false;
    var music := JoinPath(m.path, song.value);
    var safe := SafePath(m.path, cwd, music);
    if safe != Some(true) {
      lines := [Refusal];
      command := None;
      return;
    }
    lines := [];
    if !fileExists(music) {
      lines := lines + [Missing];
    }
    lines := lines + [Playing];
    command := Some([m.player, music]);
  }
}
