/**
 * `findProjectRoot` (src/lib/find-root.ts): starting at the directory of the
 * calling module, walk up at most ten directories looking for one that
 * holds a package.json, and fall back to the working directory.
 *
 * The file system is the predicate `hasPackage` (whether
 * `existsSync(join(dir, 'package.json'))` holds), `dirname` is the function
 * `parent`, and the module's own path and `process.cwd()` are parameters.
 */
module ProjectRoot {
  import opened Optional

  /** `for (let i = 0; i < 10; i++)`. */
  const MaxLevels: nat := 10

  /**
   * The directories the walk looks at, from `dir` upward: at most n of them,
   * ending early at a directory that is its own parent.
   */
  function Examined(dir: string, parent: string -> string, n: nat): (r: seq<string>)
    ensures |r| <= n
    ensures n > 0 ==> |r| > 0 && r[0] == dir
    decreases n
  {
    if n == 0 then []
    else if parent(dir) == dir then [dir]
    else [dir] + Examined(parent(dir), parent, n - 1)
  }

  /** The first directory of `dirs` that holds a package.json. */
  function FirstMatch(dirs: seq<string>, hasPackage: string -> bool): (r: Option<string>)
    ensures r.Some? ==> r.value in dirs && hasPackage(r.value)
    ensures r.None? <==> forall d :: d in dirs ==> !hasPackage(d)
  {
    if dirs == [] then None
    else if hasPackage(dirs[0]) then Some(dirs[0])
    else FirstMatch(dirs[1..], hasPackage)
  }

  /** The answer `findProjectRoot` gives. */
  function Root(modulePath: string, parent: string -> string, hasPackage: string -> bool, cwd: string): string
  {
    match FirstMatch(Examined(parent(modulePath), parent, MaxLevels), hasPackage)
    case Some(d) => d
    case None => cwd
  }

  /** `findProjectRoot`: the loop of find-root.ts. */
  method FindProjectRoot(modulePath: string, parent: string -> string, hasPackage: string -> bool, cwd: string)
    returns (root: string)
    ensures root == Root(modulePath, parent, hasPackage, cwd)
  {
    var start := parent(modulePath);
    var dir := start;
    ghost var seen: seq<string> := [];
    var i := 0;
    while i < MaxLevels
      invariant 0 <= i <= MaxLevels
      invariant Examined(start, parent, MaxLevels) == seen + Examined(dir, parent, MaxLevels - i)
      invariant FirstMatch(Examined(start, parent, MaxLevels), hasPackage)
                == FirstMatch(Examined(dir, parent, MaxLevels - i), hasPackage)
    {
      if hasPackage(dir) {
        return dir;
      }
      var up := parent(dir);
      if up == dir {
        assert Examined(dir, parent, MaxLevels - i) == [dir];
        return cwd;
      }
      seen := seen + [dir];
      dir := up;
      i := i + 1;
    }
    root := cwd;
  }

  /** Each examined directory after the first is the parent of the one before it; none but the last is its own parent. */
  lemma {:induction false} ExaminedChain(dir: string, parent: string -> string, n: nat)
    ensures forall i :: 0 < i < |Examined(dir, parent, n)| ==>
              Examined(dir, parent, n)[i] == parent(Examined(dir, parent, n)[i - 1])
    ensures forall i :: 0 <= i < |Examined(dir, parent, n)| - 1 ==>
              parent(Examined(dir, parent, n)[i]) != Examined(dir, parent, n)[i]
    ensures |Examined(dir, parent, n)| < n ==>
              var e := Examined(dir, parent, n); parent(e[|e| - 1]) == e[|e| - 1]
    decreases n
  {
    if n > 0 && parent(dir) != dir {
      ExaminedChain(parent(dir), parent, n - 1);
      var e := Examined(dir, parent, n);
      var t := Examined(parent(dir), parent, n - 1);
      assert e == [dir] + t;
      forall i | 0 < i < |e| ensures e[i] == parent(e[i - 1]) {
        if i > 1 {
          assert e[i] == t[i - 1] && e[i - 1] == t[i - 2];
        }
      }
      forall i | 0 <= i < |e| - 1 ensures parent(e[i]) != e[i] {
        if i > 0 {
          assert e[i] == t[i - 1];
        }
      }
    }
  }

  /**
   * The result is the nearest examined directory that holds a package.json,
   * counting from the module's own directory; with none, it is the working
   * directory.
   */
  lemma RootIsNearest(modulePath: string, parent: string -> string, hasPackage: string -> bool, cwd: string)
    ensures var e := Examined(parent(modulePath), parent, MaxLevels);
            var root := Root(modulePath, parent, hasPackage, cwd);
            && ((exists i :: 0 <= i < |e| && hasPackage(e[i])) ==>
                  exists i :: 0 <= i < |e| && e[i] == root && hasPackage(root)
                              && forall j :: 0 <= j < i ==> !hasPackage(e[j]))
            && ((forall i :: 0 <= i < |e| ==> !hasPackage(e[i])) ==> root == cwd)
  {
    var e := Examined(parent(modulePath), parent, MaxLevels);
    FirstMatchIsFirst(e, hasPackage);
  }

  /** FirstMatch finds the earliest match. */
  lemma {:induction false} FirstMatchIsFirst(dirs: seq<string>, hasPackage: string -> bool)
    ensures FirstMatch(dirs, hasPackage).Some? ==>
              exists i :: 0 <= i < |dirs| && dirs[i] == FirstMatch(dirs, hasPackage).value
                          && forall j :: 0 <= j < i ==> !hasPackage(dirs[j])
  {
    if dirs != [] && !hasPackage(dirs[0]) {
      FirstMatchIsFirst(dirs[1..], hasPackage);
      if FirstMatch(dirs, hasPackage).Some? {
        var i :| 0 <= i < |dirs[1..]| && dirs[1..][i] == FirstMatch(dirs[1..], hasPackage).value
                 && forall j :: 0 <= j < i ==> !hasPackage(dirs[1..][j]);
        assert dirs[i + 1] == dirs[1..][i];
        forall j | 0 <= j < i + 1 ensures !hasPackage(dirs[j]) {
          if j > 0 {
            assert dirs[j] == dirs[1..][j - 1];
          }
        }
      }
    } else if dirs != [] {
      assert dirs[0] == FirstMatch(dirs, hasPackage).value;
    }
  }

  /** The module's own directory comes first: when it holds a package.json, it is the answer. */
  lemma StartsAtModuleDirectory(modulePath: string, parent: string -> string, hasPackage: string -> bool, cwd: string)
    requires hasPackage(parent(modulePath))
    ensures Root(modulePath, parent, hasPackage, cwd) == parent(modulePath)
  {
  }
}
