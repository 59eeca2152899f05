/**
 * The abstract world the settings code runs in: the host platform, the home
 * directory, a filesystem of regular files and directories, and the answers
 * the user will type at the prompts, in order.
 */
module FileSystem {
  import opened Wrappers
  import opened Text
  import opened JsonValue

  /** What a regular file holds: a settings document written by the program, or other text. */
  datatype Content = Document(doc: Json) | Raw(text: string)

  datatype World = World(
    platform: string,
    home: string,
    files: map<string, Content>,
    dirs: set<string>,
    answers: seq<string>)

  datatype FsError = NoSuchEntry | IsADirectory | NotADirectory

  /**
   * How a step of a flow ended: it returned a value, it threw (with the
   * effects it made before throwing), or it is still waiting at a prompt the
   * answer script never answers.
   */
  datatype Run<+T> = Returned(value: T, world: World) | Threw(world: World) | Waiting(world: World)

  /** `path.join(dir, name)` for the relative names the program uses. */
  function PathJoin(dir: string, name: string): string {
    dir + "/" + name
  }

  /** Two paths to the same name are equal only when their directories are. */
  lemma PathJoinInjective(x: string, y: string, name: string)
    ensures PathJoin(x, name) == PathJoin(y, name) ==> x == y
  {
    if PathJoin(x, name) == PathJoin(y, name) {
      assert x == PathJoin(x, name)[..|x|];
      assert y == PathJoin(y, name)[..|y|];
    }
  }

  /** `fs.existsSync`: a file or a directory. */
  predicate Exists(w: World, p: string) {
    p in w.files || p in w.dirs
  }

  /** No path is both a file and a directory. */
  predicate WellFormed(w: World) {
    w.files.Keys !! w.dirs
  }

  predicate SameFs(w: World, w': World) {
    w.files == w'.files && w.dirs == w'.dirs
  }

  /** Everything the prompts and the filesystem do not touch. */
  predicate SameHost(w: World, w': World) {
    w.platform == w'.platform && w.home == w'.home
  }

  /** The proper ancestors of a path: its prefixes that end just before a '/'. */
  function Ancestors(d: string): (r: set<string>)
    ensures forall a :: a in r ==> |a| < |d| && d[..|a|] == a
  {
    AncestorsBefore(d, |d|)
  }

  /** The prefixes `d[..i]` with `0 < i < n` and `d[i] == '/'`. */
  function AncestorsBefore(d: string, n: nat): (r: set<string>)
    requires n <= |d|
    ensures forall a :: a in r ==> |a| < n && d[..|a|] == a
  {
    if n == 0 then {}
    else AncestorsBefore(d, n - 1) + (if 0 < n - 1 && d[n - 1] == '/' then {d[..n - 1]} else {})
  }

  /** `fs.readFileSync(p)`. */
  function ReadFile(w: World, p: string): (r: Result<Content, FsError>)
    ensures r.Success? <==> p in w.files
    ensures r.Success? ==> r.value == w.files[p]
  {
    if p in w.files then Success(w.files[p])
    else if p in w.dirs then Failure(IsADirectory)
    else Failure(NoSuchEntry)
  }

  /** `fs.writeFileSync(dir/name, c)`: creates or overwrites, needs the parent directory. */
  function WriteFile(w: World, dir: string, name: string, c: Content): (r: Result<World, FsError>)
    ensures r.Success? <==> dir in w.dirs && PathJoin(dir, name) !in w.dirs
    ensures r.Success? ==> r.value == w.(files := w.files[PathJoin(dir, name) := c])
    ensures WellFormed(w) && r.Success? ==> WellFormed(r.value)
  {
    var p := PathJoin(dir, name);
    if dir !in w.dirs then Failure(NoSuchEntry)
    else if p in w.dirs then Failure(IsADirectory)
    else Success(w.(files := w.files[p := c]))
  }

  /** `fs.unlinkSync(p)`: removes a regular file. */
  function Unlink(w: World, p: string): (r: Result<World, FsError>)
    ensures r.Success? <==> p in w.files
    ensures r.Success? ==> r.value == w.(files := w.files - {p})
    ensures WellFormed(w) && r.Success? ==> WellFormed(r.value)
  {
    if p in w.files then Success(w.(files := w.files - {p}))
    else if p in w.dirs then Failure(IsADirectory)
    else Failure(NoSuchEntry)
  }

  /** When `fs.mkdirSync(d, { recursive: true })` succeeds: no file stands on the way. */
  predicate CanMakeDirs(w: World, d: string) {
    d != "" && d !in w.files && Ancestors(d) !! w.files.Keys
  }

  /** `fs.mkdirSync(d, { recursive: true })`: creates `d` and its missing ancestors. */
  function MakeDirs(w: World, d: string): (r: Result<World, FsError>)
    ensures r.Success? <==> CanMakeDirs(w, d)
    ensures r.Success? ==> r.value == w.(dirs := w.dirs + {d} + Ancestors(d))
    ensures WellFormed(w) && r.Success? ==> WellFormed(r.value)
  {
    if d == "" then Failure(NoSuchEntry)
    else if d in w.files || !(Ancestors(d) !! w.files.Keys) then Failure(NotADirectory)
    else Success(w.(dirs := w.dirs + {d} + Ancestors(d)))
  }

  /** Nothing lies below directory `d`. */
  predicate HasNoEntries(w: World, d: string) {
    (forall p :: p in w.files ==> !StartsWith(p, d + "/"))
    && (forall q :: q in w.dirs ==> !StartsWith(q, d + "/"))
  }

  /**
   * `try { fs.rmdirSync(d) } catch {}`: removes `d` when it is an empty
   * directory and otherwise leaves everything in place; it never fails.
   * The boolean says which of the two happened.
   */
  function RemoveDirIfEmpty(w: World, d: string): (r: (World, bool))
    ensures r.1 <==> d in w.dirs && HasNoEntries(w, d)
    ensures r.0 == (if r.1 then w.(dirs := w.dirs - {d}) else w)
  {
    if d in w.dirs && HasNoEntries(w, d) then (w.(dirs := w.dirs - {d}), true) else (w, false)
  }

  /** One prompt: the next scripted answer, or `None` when the script is exhausted. */
  function Ask(w: World): (r: Option<(string, World)>)
    ensures r.Some? <==> |w.answers| > 0
    ensures r.Some? ==> r.value == (w.answers[0], w.(answers := w.answers[1..]))
  {
    if |w.answers| == 0 then None else Some((w.answers[0], w.(answers := w.answers[1..])))
  }
}
