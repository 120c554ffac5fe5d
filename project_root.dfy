/** `find_project_root` (lib.rs:1415-1431): starting from a directory, walk
    up towards the filesystem root looking for a `package.json` whose text
    contains `"workspaces"`, examining at most ten directories. The
    filesystem is a parameter: for each directory, the text of its
    `package.json` if that file exists and reads as UTF-8. */
module ProjectRoot {
  import opened Wrappers
  import opened Text

  /** A path: absolute or relative, and its components. `PathBuf::pop`
      drops the last component and fails when there is none (the root `/`,
      or the empty relative path). */
  datatype Path = Path(absolute: bool, parts: seq<string>)

  /** The filesystem as seen by the walk: `Some(text)` when
      `dir/package.json` exists and `read_to_string` succeeds. */
  type Manifests = Path -> Option<string>

  /** The number of directories examined: the start and up to 9 ancestors. */
  const MAX_LEVELS: nat := 10

  const WORKSPACES_KEY: string := "\"workspaces\""

  /** The `k`-th ancestor of `p` (`p` itself when `k` is 0). */
  function Ancestor(p: Path, k: nat): (a: Path)
    requires k <= |p.parts|
    ensures a.absolute == p.absolute && |a.parts| == |p.parts| - k
    ensures forall j | 0 <= j < |a.parts| :: a.parts[j] == p.parts[j]
  {
    Path(p.absolute, p.parts[..|p.parts| - k])
  }

  /** `dir` is the root of a workspace. */
  predicate IsWorkspaceRoot(manifests: Manifests, dir: Path) {
    match manifests(dir)
    case Some(text) => Contains(text, WORKSPACES_KEY)
    case None => false
  }

  /** The result is the nearest of the first ten directories on the way up
      (stopping at the root) that is a workspace root, and None when none of
      them is. */
  method FindProjectRoot(start: Path, manifests: Manifests) returns (r: Option<Path>)
    ensures r.Some? ==>
              exists k | 0 <= k < MAX_LEVELS && k <= |start.parts| ::
                && r.value == Ancestor(start, k)
                && IsWorkspaceRoot(manifests, r.value)
                && forall j | 0 <= j < k :: !IsWorkspaceRoot(manifests, Ancestor(start, j))
    ensures r.None? ==>
              forall k | 0 <= k < MAX_LEVELS && k <= |start.parts| ::
                !IsWorkspaceRoot(manifests, Ancestor(start, k))
  {
    var current := start;
    var level := 0;
    while level < MAX_LEVELS
      invariant level <= MAX_LEVELS && level <= |start.parts|
      invariant current == Ancestor(start, level)
      invariant forall j | 0 <= j < level :: !IsWorkspaceRoot(manifests, Ancestor(start, j))
    {
      if IsWorkspaceRoot(manifests, current) {
        return Some(current);
      }
      if current.parts == [] {
        // `pop` fails: the root has been examined
        break;
      }
      current := Path(current.absolute, current.parts[..|current.parts| - 1]);
      level := level + 1;
    }
    return None;
  }
}
