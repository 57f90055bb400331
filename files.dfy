/**
 * The file manager: every path a client names is re-rooted under
 * `/var/www` by `resolvePath`, and the operations list, read, write, create,
 * delete and rename entries of a file system held as a map from absolute
 * path to node.
 */
module Files {
  import opened Text

  const BaseDir := "/var/www"

  /**
   * `replace(/^(\.\.(\/|\\|$))+/, '')`: drop every leading `../`, `..\`
   * and a final bare `..`.
   */
  function StripDotDot(s: string): (r: string)
    decreases |s|
  {
    if |s| == 2 && s[0] == '.' && s[1] == '.' then []
    else if |s| >= 3 && s[0] == '.' && s[1] == '.' && (s[2] == '/' || s[2] == '\\') then StripDotDot(s[3..])
    else s
  }

  /** `replace(/^\/+/, '')`. */
  function StripSlashes(s: string): (r: string)
    ensures r == [] || r[0] != '/'
  {
    if s != [] && s[0] == '/' then StripSlashes(s[1..]) else s
  }

  /** The relative part `resolvePath` hands to `path.resolve`; a falsy path is `''`. */
  function RelativePart(unsafePath: Option<string>): string {
    if unsafePath.None? || unsafePath.value == [] then [] else StripSlashes(StripDotDot(unsafePath.value))
  }

  /** A segment that names an entry: not empty, not `.` and not `..`. */
  predicate IsName(s: string) { s != [] && !IsDot(s) && !IsDotDot(s) && '/' !in s }

  predicate IsDot(s: string) { |s| == 1 && s[0] == '.' }
  predicate IsDotDot(s: string) { |s| == 2 && s[0] == '.' && s[1] == '.' }

  /**
   * `path.resolve` on the segments of a path: `.` and empty segments are
   * dropped and `..` removes the last segment, never going above `/`.
   */
  function Normalize(stack: seq<string>, segs: seq<string>): seq<string>
    decreases |segs|
  {
    if segs == [] then stack
    else if segs[0] == [] || IsDot(segs[0]) then Normalize(stack, segs[1..])
    else if IsDotDot(segs[0]) then Normalize(if stack == [] then [] else stack[..|stack| - 1], segs[1..])
    else Normalize(stack + [segs[0]], segs[1..])
  }

  /** A resolved path is made of names only: no empty, `.` or `..` segment is left. */
  lemma {:induction false} NormalizeGivesNames(stack: seq<string>, segs: seq<string>)
    requires forall i | 0 <= i < |stack| :: IsName(stack[i])
    requires forall i | 0 <= i < |segs| :: '/' !in segs[i]
    ensures forall i | 0 <= i < |Normalize(stack, segs)| :: IsName(Normalize(stack, segs)[i])
    decreases |segs|
  {
    if segs != [] {
      var next := if segs[0] == [] || IsDot(segs[0]) then stack
        else if IsDotDot(segs[0]) then (if stack == [] then [] else stack[..|stack| - 1])
        else stack + [segs[0]];
      assert forall i | 0 <= i < |next| :: IsName(next[i]);
      NormalizeGivesNames(next, segs[1..]);
    }
  }

  /** The absolute path of a list of segments. */
  function PathOf(segs: seq<string>): string { "/" + Join(segs, "/") }

  const BaseSegments := ["var", "www"]

  /** `path.resolve('/var/www', rel)`: the already normal base, then the segments of `rel`. */
  function Resolve(rel: string): string {
    PathOf(Normalize(BaseSegments, Split(rel, '/')))
  }

  const AccessDenied := "Access denied: Path outside allowed directory"

  /** `resolvePath`: the resolved path must start with the string `/var/www`. */
  function ResolvePath(unsafePath: Option<string>): (r: Result<string>)
    ensures r.Ok? ==> StartsWith(r.value, BaseDir)
    ensures r.Err? ==> r.error == AccessDenied
  {
    Guard(Resolve(RelativePart(unsafePath)))
  }

  /** The test `resolvePath` applies to the resolved path. */
  function Guard(p: string): Result<string> {
    if StartsWith(p, BaseDir) then Ok(p) else Err(AccessDenied)
  }

  lemma BasePath()
    ensures PathOf(BaseSegments) == BaseDir && Guard(BaseDir) == Ok(BaseDir)
    ensures forall i | 0 <= i < |BaseSegments| :: IsName(BaseSegments[i])
  {
    assert IsName(BaseSegments[0]) && IsName(BaseSegments[1]);
    assert Join(BaseSegments, "/") == "var" + "/" + "www";
  }

  /** The relative path `""` resolves to the base directory. */
  lemma ResolveEmpty()
    ensures Resolve([]) == BaseDir
  {
    assert Split("", '/') == [""];
    assert Normalize(BaseSegments, [""]) == BaseSegments;
    BasePath();
  }

  /** A missing or empty path is the base directory. */
  lemma ResolveFalsy()
    ensures ResolvePath(None) == Ok(BaseDir) && ResolvePath(Some("")) == Ok(BaseDir)
  {
    assert RelativePart(None) == [] && RelativePart(Some("")) == [];
    ResolveEmpty();
    BasePath();
  }

  /** A leading `../` is dropped before anything else. */
  lemma ResolveDropsDotDot(x: string)
    ensures ResolvePath(Some("../" + x)) == ResolvePath(Some(x))
  {
    var s := "../" + x;
    assert s[3..] == x;
    assert StripDotDot(s) == StripDotDot(x);
    assert RelativePart(Some(s)) == RelativePart(Some(x)) by {
      if x == [] {
        assert StripDotDot(x) == [];
      }
    }
  }

  /** Names only are pushed in order. */
  lemma {:induction false} NormalizeNames(stack: seq<string>, segs: seq<string>)
    requires forall i | 0 <= i < |segs| :: IsName(segs[i])
    ensures Normalize(stack, segs) == stack + segs
    decreases |segs|
  {
    if segs != [] {
      NormalizeNames(stack + [segs[0]], segs[1..]);
      assert stack + [segs[0]] + segs[1..] == stack + segs;
    } else {
      assert stack + segs == stack;
    }
  }

  /** The path of the base segments followed by `segs`. */
  lemma UnderBase(segs: seq<string>)
    requires segs != []
    ensures PathOf(BaseSegments + segs) == BaseDir + "/" + Join(segs, "/")
  {
    JoinConcat(BaseSegments, segs, "/");
    BasePath();
    ConcatAssoc("/", Join(BaseSegments, "/"), "/", Join(segs, "/"));
  }

  lemma ConcatAssoc(a: string, b: string, c: string, d: string)
    ensures a + (b + c + d) == (a + b) + c + d
  {
  }

  /** A leading `/` is not a `..` and is stripped. */
  lemma RelativeOfAbsolute(j: string)
    requires j != [] && j[0] != '/'
    ensures RelativePart(Some("/" + j)) == j
  {
    var s := "/" + j;
    assert s[1..] == j;
    assert StripDotDot(s) == s;
    assert StripSlashes(j) == j;
  }

  /**
   * A relative path made of names (not starting with `.`) resolves to
   * itself under the base directory.
   */
  lemma NamesUnderBase(j: string)
    requires j != [] && j[0] != '.'
    requires forall i | 0 <= i < |Split(j, '/')| :: IsName(Split(j, '/')[i])
    ensures ResolvePath(Some(j)) == Ok(BaseDir + "/" + j)
  {
    var segs := Split(j, '/');
    assert RelativePart(Some(j)) == j;
    NormalizeNames(BaseSegments, segs);
    ResolveOf(j, BaseSegments + segs);
    UnderBase(segs);
    PrefixOfConcat(BaseDir, "/", j);
    GuardOf(Some(j), j, BaseDir + "/" + j);
  }

  /** `Resolve` once the segments are normalised. */
  lemma ResolveOf(rel: string, segs: seq<string>)
    requires Normalize(BaseSegments, Split(rel, '/')) == segs
    ensures Resolve(rel) == PathOf(segs)
  {
  }

  lemma GuardOf(u: Option<string>, rel: string, p: string)
    requires RelativePart(u) == rel && Resolve(rel) == p && StartsWith(p, BaseDir)
    ensures ResolvePath(u) == Ok(p)
  {
  }

  lemma PrefixOfConcat(a: string, b: string, c: string)
    ensures StartsWith(a + b + c, a)
  {
    assert (a + b + c)[..|a|] == a;
  }

  /**
   * An absolute path is re-rooted under the base directory: `/etc/passwd`
   * resolves as `etc/passwd` does, to `/var/www/etc/passwd`.
   */
  lemma AbsoluteIsRerooted(j: string)
    requires j != [] && j[0] != '/' && j[0] != '.'
    ensures ResolvePath(Some("/" + j)) == ResolvePath(Some(j))
  {
    RelativeOfAbsolute(j);
    assert StripDotDot(j) == j;
  }

  /** `a/../../w` climbs out of the base directory into its parent. */
  lemma NormalizeClimb(w: string)
    requires IsName(w)
    ensures Normalize(BaseSegments, ["a", "..", "..", w]) == ["var", w]
  {
    var segs := ["a", "..", "..", w];
    assert segs[1..] == ["..", "..", w];
    assert segs[1..][1..] == ["..", w];
    assert segs[1..][1..][1..] == [w];
    assert IsDotDot("..") && !IsDot("a") && !IsDotDot("a") && BaseSegments[..1] == ["var"];
    assert Normalize(BaseSegments + ["a"], ["..", "..", w]) == Normalize(BaseSegments, ["..", w]);
    assert Normalize(BaseSegments, ["..", w]) == Normalize(["var"], [w]);
    assert Normalize(["var"], [w]) == Normalize(["var", w], []);
  }

  /** The parent of the base directory, with `w` under it. */
  lemma SiblingPath(w: string)
    requires StartsWith(w, "www") && w != "www" && IsName(w)
    ensures PathOf(["var", w]) == "/var/" + w
    ensures StartsWith("/var/" + w, BaseDir) && !Within("/var/" + w, BaseDir)
  {
    assert Join(["var", w], "/") == "var" + "/" + w by {
      assert ["var", w][1..] == [w];
    }
    var r := "/var/" + w;
    assert "/" + ("var" + "/" + w) == r;
    assert |w| > 3;
    assert r[..8] == BaseDir by {
      assert r[5] == w[0] && r[6] == w[1] && r[7] == w[2];
    }
    assert r[8] == w[3];
  }

  /**
   * The guard is a string prefix test, so a sibling of the base directory
   * whose name starts with `www` passes it: `a/../../www-x` resolves to
   * `/var/www-x`, which is not inside `/var/www`.
   */
  lemma SiblingPassesGuard(w: string)
    requires IsName(w) && StartsWith(w, "www") && w != "www"
    ensures ResolvePath(Some(Join(["a", "..", "..", w], "/"))) == Ok("/var/" + w)
    ensures !Within("/var/" + w, BaseDir)
  {
    var segs := ["a", "..", "..", w];
    var rel := Join(segs, "/");
    assert RelativePart(Some(rel)) == rel by {
      JoinHead(segs, "/");
      assert rel[0] == 'a';
    }
    assert Split(rel, '/') == segs by {
      assert IsName("a") && !IsName("..");
      SplitJoin(segs, '/');
    }
    assert Normalize(BaseSegments, segs) == ["var", w] by { NormalizeClimb(w); }
    SiblingPath(w);
    assert Resolve(rel) == PathOf(Normalize(BaseSegments, Split(rel, '/')));
  }

  /** A node of the file system, with the size `fs.stat` reports for it. */
  datatype Node = Directory(size: nat) | File(size: nat, content: string)

  /** The size a freshly made directory reports. */
  const NewDirSize: nat := 4096

  /** The number of bytes a character takes in UTF-8. */
  function CharBytes(c: char): nat {
    if c as int < 0x80 then 1 else if c as int < 0x800 then 2 else if c as int < 0x10000 then 3 else 4
  }

  /** The size of `s` written as UTF-8. */
  function Utf8Size(s: string): (r: nat)
    ensures |s| <= r <= 4 * |s|
  {
    if s == [] then 0 else CharBytes(s[0]) + Utf8Size(s[1..])
  }

  /** A text file as `fs.writeFile(p, content, 'utf8')` leaves it. */
  function TextFile(content: string): Node { File(Utf8Size(content), content) }

  /** `p` is `dir` or lies below it. */
  predicate Within(p: string, dir: string) { p == dir || StartsWith(p, dir + "/") }

  /** The directory `p` is in: everything before its last `/`. */
  function Parent(p: string): string { ParentAt(p, |p|) }

  function ParentAt(p: string, i: nat): (r: string)
    requires i <= |p|
    ensures |r| < |p| || p == []
  {
    if i == 0 then [] else if p[i - 1] == '/' then p[..i - 1] else ParentAt(p, i - 1)
  }

  /** The message Node.js gives a failed file-system call on one path. */
  function Errno(code: string, call: string, p: string): string {
    code + ", " + call + " '" + p + "'"
  }

  const NoEntry := "ENOENT: no such file or directory"
  const IsDir := "EISDIR: illegal operation on a directory"
  const NotDir := "ENOTDIR: not a directory"
  const Exists := "EEXIST: file already exists"
  const Invalid := "EINVAL: invalid argument"

  const ListFailed := "Failed to list directory: "
  const ReadFailed := "Failed to read file: "
  const WriteFailed := "Failed to write file: "
  const MkdirFailed := "Failed to create directory: "
  const CreateFailed := "Failed to create file: "
  const DeleteFailed := "Failed to delete item: "
  const RenameFailed := "Failed to rename item: "
  const NotADirectory := "Path is not a directory"
  const TooLarge := "File too large to edit in browser (max 1MB)"
  const AlreadyExists := "File already exists"
  const RootRefused := "Cannot delete root directory"
  const ReadCap: nat := 1024 * 1024

  /** The directories on the way to `p`: the prefixes of `p` ending before a `/`. */
  function Ancestors(p: string): set<string> {
    set i | 0 < i < |p| && p[i] == '/' :: p[..i]
  }

  /** A regular file stands where a directory on the way to `p` should be. */
  predicate FileOnPath(nodes: map<string, Node>, p: string) {
    exists a | a in Ancestors(p) :: a in nodes && nodes[a].File?
  }

  /**
   * Why `fs.stat(p)` (or `fs.access(p)`) fails on these nodes, if it does:
   * a file on the way gives ENOTDIR, a missing entry ENOENT.
   */
  function StatError(nodes: map<string, Node>, p: string): (r: Option<string>)
    ensures r.None? <==> p in nodes && !FileOnPath(nodes, p)
  {
    if FileOnPath(nodes, p) then Some(Errno(NotDir, "stat", p))
    else if p !in nodes then Some(Errno(NoEntry, "stat", p))
    else None
  }

  /**
   * `readFile`: a path outside the guard is refused unprefixed; a failed
   * `stat`, an entry over 1 MiB, or a directory gives the prefixed read error.
   */
  function ReadFile(nodes: map<string, Node>, filePath: Option<string>): (r: Result<string>)
    ensures ResolvePath(filePath).Err? ==> r == Err(AccessDenied)
    ensures r.Ok? <==> ResolvePath(filePath).Ok? && var p := ResolvePath(filePath).value;
      StatError(nodes, p).None? && nodes[p].File? && nodes[p].size <= ReadCap
    ensures r.Ok? ==> r.value == nodes[ResolvePath(filePath).value].content
    ensures r.Err? && ResolvePath(filePath).Ok? ==> StartsWith(r.error, ReadFailed)
  {
    match ResolvePath(filePath)
    case Err(e) => Err(e)
    case Ok(p) =>
      if StatError(nodes, p).Some? then Err(ReadFailed + StatError(nodes, p).value)
      else if nodes[p].size > ReadCap then Err(ReadFailed + TooLarge)
      else if nodes[p].Directory? then Err(ReadFailed + IsDir + ", read")
      else Ok(nodes[p].content)
  }

  /** `f/x` resolves to `/var/www/f/x`. */
  lemma ResolveFileChild()
    ensures ResolvePath(Some("f/x")) == Ok(BaseDir + "/f/x")
  {
    assert Split("f/x", '/') == ["f", "x"] by {
      assert Join(["f", "x"], "/") == "f/x" by { assert ["f", "x"][1..] == ["x"]; }
      SplitJoin(["f", "x"], '/');
    }
    NamesUnderBase("f/x");
    assert BaseDir + "/" + "f/x" == BaseDir + "/f/x";
  }

  /** Reading below a regular file fails with ENOTDIR, not ENOENT: `f/x` where `/var/www/f` is a file. */
  lemma ReadBelowFile()
    ensures var nodes := map[BaseDir := Directory(NewDirSize), BaseDir + "/f" := TextFile("x")];
      ReadFile(nodes, Some("f/x")) == Err(ReadFailed + Errno(NotDir, "stat", BaseDir + "/f/x"))
  {
    var p := BaseDir + "/f/x";
    ResolveFileChild();
    assert p[..|BaseDir| + 2] == BaseDir + "/f" && p[|BaseDir| + 2] == '/';
    var nodes := map[BaseDir := Directory(NewDirSize), BaseDir + "/f" := TextFile("x")];
    assert FileOnPath(nodes, p) by {
      assert BaseDir + "/f" in Ancestors(p);
    }
  }

  /** Why `fs.writeFile(p)` fails on these nodes, if it does. */
  function WriteError(nodes: map<string, Node>, p: string): Option<string> {
    if FileOnPath(nodes, p) then Some(Errno(NotDir, "open", p))
    else if p in nodes && nodes[p].Directory? then Some(Errno(IsDir, "open", p))
    else if Parent(p) !in nodes then Some(Errno(NoEntry, "open", p))
    else if nodes[Parent(p)].File? then Some(Errno(NotDir, "open", p))
    else None
  }

  /** Writing a text file and reading it back gives the text, unless it is over 1 MiB. */
  lemma WriteThenRead(nodes: map<string, Node>, filePath: Option<string>, content: string)
    requires ResolvePath(filePath).Ok? && WriteError(nodes, ResolvePath(filePath).value).None?
    ensures var after := nodes[ResolvePath(filePath).value := TextFile(content)];
      ReadFile(after, filePath) == if Utf8Size(content) <= ReadCap then Ok(content) else Err(ReadFailed + TooLarge)
  {
  }

  /** Why a recursive `fs.mkdir(p)` fails on these nodes, if it does. */
  function MkdirError(nodes: map<string, Node>, p: string): Option<string> {
    if FileOnPath(nodes, p) then Some(Errno(NotDir, "mkdir", p))
    else if p in nodes && nodes[p].File? then Some(Errno(Exists, "mkdir", p))
    else None
  }

  /** The directories a successful recursive `mkdir` of `p` adds: `p` and its ancestors, where missing. */
  function MadeDirs(nodes: map<string, Node>, p: string): (r: map<string, Node>)
    ensures forall a :: a in r <==> (a == p || a in Ancestors(p)) && a !in nodes
    ensures forall a | a in r :: r[a] == Directory(NewDirSize)
  {
    map a | a in Ancestors(p) + {p} && a !in nodes :: Directory(NewDirSize)
  }

  /** After a successful `mkdir -p`, `p` and every ancestor are directories and nothing else changed. */
  lemma MkdirMakesPath(nodes: map<string, Node>, p: string)
    requires MkdirError(nodes, p).None?
    ensures var after := nodes + MadeDirs(nodes, p);
      (forall a | a == p || a in Ancestors(p) :: a in after && after[a].Directory?)
      && (forall k | k in nodes :: k in after && after[k] == nodes[k])
      && MkdirError(after, p).None? && MadeDirs(after, p) == map[]
  {
    var after := nodes + MadeDirs(nodes, p);
    forall a | a == p || a in Ancestors(p) ensures a in after && after[a].Directory? {
      if a in nodes {
        assert a == p ==> nodes[a].Directory?;
        assert a in Ancestors(p) ==> nodes[a].Directory?;
      }
    }
  }

  /** The nodes after a recursive `fs.rm` of `p`: `p` and everything below it gone. */
  function RemoveTree(nodes: map<string, Node>, p: string): (r: map<string, Node>)
    ensures forall k :: k in r <==> k in nodes && !Within(k, p)
    ensures forall k | k in r :: r[k] == nodes[k]
  {
    map k | k in nodes && !Within(k, p) :: nodes[k]
  }

  /** The message of a failed `fs.rename(a, b)`. */
  function RenameErrno(code: string, a: string, b: string): string {
    code + ", rename '" + a + "' -> '" + b + "'"
  }

  /** Why `fs.rename(a, b)` fails on these nodes, if it does (POSIX rules, simplified). */
  function RenameError(nodes: map<string, Node>, a: string, b: string): Option<string> {
    if FileOnPath(nodes, a) || FileOnPath(nodes, b) then Some(RenameErrno(NotDir, a, b))
    else if a !in nodes || Parent(b) !in nodes then Some(RenameErrno(NoEntry, a, b))
    else if nodes[Parent(b)].File? then Some(RenameErrno(NotDir, a, b))
    else if a != b && Within(b, a) then Some(RenameErrno(Invalid, a, b))
    else if b in nodes && a != b && (nodes[a].Directory? || nodes[b].Directory?) then Some(RenameErrno(Exists, a, b))
    else None
  }

  /** Where the entry that ends up at `k` after moving `a` to `b` was before. */
  function MovedFrom(a: string, b: string, k: string): string {
    if Within(k, b) then a + k[|b|..] else k
  }

  /**
   * The nodes after moving the tree at `a` to `b`: what was below `a` is at
   * the same place below `b`, and whatever was at or below `b` before is gone.
   */
  function MoveTree(nodes: map<string, Node>, a: string, b: string): map<string, Node> {
    if a == b then nodes
    else
      var targets := (set k | k in nodes && !Within(k, a) && !Within(k, b))
        + (set k | k in nodes && Within(k, a) :: b + k[|a|..]);
      map k | k in targets && MovedFrom(a, b, k) in nodes :: nodes[MovedFrom(a, b, k)]
  }

  /** `k` below `a`, with its tail after `a` put after `b`. */
  lemma MovedBack(a: string, b: string, k: string)
    requires Within(k, a)
    ensures Within(b + k[|a|..], b) && MovedFrom(a, b, b + k[|a|..]) == k
  {
    var t := k[|a|..];
    assert (b + t)[|b|..] == t;
    assert k == a + t by {
      if k != a { assert k[..|a|] == a; }
    }
    if t != [] {
      assert k != a;
      assert t[0] == k[|a|];
      assert k[..|a| + 1] == a + "/";
      assert (b + t)[..|b| + 1] == b + "/";
    }
  }

  /**
   * A rename puts what was at `a` at `b`, everything below `a` at the same
   * place below `b`, and removes `a`; entries outside both trees stay.
   */
  lemma MoveTreeMeaning(nodes: map<string, Node>, a: string, b: string)
    requires a in nodes && a != b
    ensures var after := MoveTree(nodes, a, b);
      (forall k | k in nodes && Within(k, a) :: b + k[|a|..] in after && after[b + k[|a|..]] == nodes[k])
      && (forall k | k in nodes && !Within(k, a) && !Within(k, b) :: k in after && after[k] == nodes[k])
      && (!Within(a, b) ==> a !in after)
  {
    var after := MoveTree(nodes, a, b);
    forall k | k in nodes && Within(k, a)
      ensures b + k[|a|..] in after && after[b + k[|a|..]] == nodes[k]
    {
      MovedBack(a, b, k);
    }
    if !Within(a, b) && a in after {
      var k :| k in nodes && Within(k, a) && a == b + k[|a|..];
      MovedBack(a, b, k);
    }
  }

  /** One entry of a listing. */
  datatype FileInfo = FileInfo(name: string, path: string, isDirectory: bool, size: nat)

  /** `path.relative('/var/www', p)` for a path that starts with the string `/var/www`. */
  function RelativeToBase(p: string): (r: string)
    requires StartsWith(p, BaseDir)
    ensures StartsWith(p, BaseDir + "/") ==> BaseDir + "/" + r == p
  {
    if p == BaseDir then []
    else if StartsWith(p, BaseDir + "/") then
      assert p == (BaseDir + "/") + p[|BaseDir| + 1..];
      p[|BaseDir| + 1..]
    else "../" + p[5..]
  }

  /** Entries in listing order: directories before files, and by name within a kind. */
  predicate InOrder(a: FileInfo, b: FileInfo) {
    if a.isDirectory == b.isDirectory then NameLe(a.name, b.name) else a.isDirectory
  }

  /** Code-point lexicographic order on names, standing for `localeCompare`. */
  predicate NameLe(a: string, b: string)
    decreases |a|
  {
    a == [] || (b != [] && (a[0] < b[0] || (a[0] == b[0] && NameLe(a[1..], b[1..]))))
  }

  lemma {:induction false} NameLeTotal(a: string, b: string)
    ensures NameLe(a, b) || NameLe(b, a)
    decreases |a|
  {
    if a != [] && b != [] && a[0] == b[0] {
      NameLeTotal(a[1..], b[1..]);
    }
  }

  lemma {:induction false} NameLeTrans(a: string, b: string, c: string)
    requires NameLe(a, b) && NameLe(b, c)
    ensures NameLe(a, c)
    decreases |a|
  {
    if a != [] && b != [] && c != [] && a[0] == b[0] && b[0] == c[0] {
      NameLeTrans(a[1..], b[1..], c[1..]);
    }
  }

  /** Two names each ordered before the other are equal. */
  lemma {:induction false} NameLeAntisym(a: string, b: string)
    requires NameLe(a, b) && NameLe(b, a)
    ensures a == b
    decreases |a|
  {
    if a != [] {
      NameLeAntisym(a[1..], b[1..]);
      assert a == [a[0]] + a[1..] && b == [b[0]] + b[1..];
    }
  }

  lemma InOrderTotal(a: FileInfo, b: FileInfo)
    ensures InOrder(a, b) || InOrder(b, a)
  {
    NameLeTotal(a.name, b.name);
  }

  lemma InOrderTrans(a: FileInfo, b: FileInfo, c: FileInfo)
    requires InOrder(a, b) && InOrder(b, c)
    ensures InOrder(a, c)
  {
    if a.isDirectory == b.isDirectory == c.isDirectory {
      NameLeTrans(a.name, b.name, c.name);
    }
  }

  predicate Sorted(s: seq<FileInfo>) {
    forall i, j | 0 <= i < j < |s| :: InOrder(s[i], s[j])
  }

  /** Insert `x` before the first entry it goes before. */
  function Insert(x: FileInfo, s: seq<FileInfo>): (r: seq<FileInfo>)
    requires Sorted(s)
    ensures Sorted(r) && multiset(r) == multiset(s) + multiset{x}
    decreases |s|
  {
    if s == [] then [x]
    else if InOrder(x, s[0]) then
      InsertFront(x, s);
      [x] + s
    else
      var t := Insert(x, s[1..]);
      InOrderTotal(x, s[0]);
      assert s == [s[0]] + s[1..];
      InsertAfter(s[0], t, s[1..], x);
      [s[0]] + t
  }

  lemma InsertFront(x: FileInfo, s: seq<FileInfo>)
    requires Sorted(s) && s != [] && InOrder(x, s[0])
    ensures Sorted([x] + s)
  {
    forall j | 1 <= j < |s| + 1 ensures InOrder(x, ([x] + s)[j]) {
      if j > 1 { InOrderTrans(x, s[0], s[j - 1]); }
    }
  }

  lemma InsertAfter(y: FileInfo, t: seq<FileInfo>, s: seq<FileInfo>, x: FileInfo)
    requires Sorted(t) && Sorted([y] + s) && InOrder(y, x)
    requires multiset(t) == multiset(s) + multiset{x}
    ensures Sorted([y] + t)
  {
    forall j | 0 <= j < |t| ensures InOrder(y, t[j]) {
      assert t[j] in multiset(t);
      if t[j] != x {
        assert t[j] in multiset(s);
        var k :| 0 <= k < |s| && s[k] == t[j];
        assert ([y] + s)[0] == y && ([y] + s)[k + 1] == s[k];
      }
    }
  }

  /** `files.sort(...)`: the entries, sorted, with nothing lost or added. */
  function SortFiles(s: seq<FileInfo>): (r: seq<FileInfo>)
    ensures Sorted(r) && multiset(r) == multiset(s)
  {
    if s == [] then []
    else
      var t := SortFiles(s[1..]);
      assert s == [s[0]] + s[1..];
      Insert(s[0], t)
  }

  /** The names of the entries directly inside `dir`. */
  function Children(nodes: map<string, Node>, dir: string): set<string> {
    set k | k in nodes && StartsWith(k, dir + "/") && IsName(k[|dir| + 1..]) :: k[|dir| + 1..]
  }

  /** The listing entry of `name` inside `dir`. */
  function InfoOf(nodes: map<string, Node>, dir: string, name: string): FileInfo
    requires StartsWith(dir, BaseDir) && dir + "/" + name in nodes
  {
    var p := dir + "/" + name;
    assert p[..|BaseDir|] == dir[..|BaseDir|];
    FileInfo(name, RelativeToBase(p), nodes[p].Directory?, nodes[p].size)
  }

  /** The names in a listing. */
  function Names(entries: seq<FileInfo>): set<string> {
    set i | 0 <= i < |entries| :: entries[i].name
  }

  predicate ChildPath(nodes: map<string, Node>, p: string, c: string) { p + "/" + c in nodes }

  /** `e` is the listing entry of an entry directly inside `p`. */
  predicate EntryOf(nodes: map<string, Node>, p: string, e: FileInfo)
    requires StartsWith(p, BaseDir)
  {
    ChildPath(nodes, p, e.name) && e == InfoOf(nodes, p, e.name)
  }

  predicate DistinctNames(entries: seq<FileInfo>) {
    forall i, j | 0 <= i < j < |entries| :: entries[i].name != entries[j].name
  }

  /** What a listing of `p` must hold: every child, once, each with its own entry. */
  predicate ListsChildren(nodes: map<string, Node>, p: string, entries: seq<FileInfo>)
    requires StartsWith(p, BaseDir)
  {
    Names(entries) == Children(nodes, p)
    && (forall i | 0 <= i < |entries| :: EntryOf(nodes, p, entries[i]))
    && DistinctNames(entries)
  }

  lemma ChildIn(nodes: map<string, Node>, p: string, c: string)
    requires c in Children(nodes, p)
    ensures ChildPath(nodes, p, c)
  {
    var k :| k in nodes && StartsWith(k, p + "/") && IsName(k[|p| + 1..]) && k[|p| + 1..] == c;
    assert k == (p + "/") + k[|p| + 1..];
  }

  /** Appending an entry adds its name. */
  lemma NamesAppend(entries: seq<FileInfo>, e: FileInfo)
    ensures Names(entries + [e]) == Names(entries) + {e.name}
  {
    var s := entries + [e];
    assert s[|entries|] == e;
    forall x | x in Names(entries) ensures x in Names(s) {
      var i :| 0 <= i < |entries| && entries[i].name == x;
      assert s[i] == entries[i];
    }
  }

  /** Reordering a listing keeps its names. */
  lemma NamesOfPermutation(s: seq<FileInfo>, t: seq<FileInfo>)
    requires multiset(s) == multiset(t)
    ensures Names(s) <= Names(t)
  {
    forall x | x in Names(s) ensures x in Names(t) {
      var i :| 0 <= i < |s| && s[i].name == x;
      assert s[i] in multiset(t);
    }
  }

  /** Two equal elements at two places occur twice. */
  lemma TwiceCounted(s: seq<FileInfo>, i: nat, j: nat)
    requires i < j < |s| && s[i] == s[j]
    ensures multiset(s)[s[i]] >= 2
  {
    assert s == s[..i] + [s[i]] + s[i + 1..j] + [s[j]] + s[j + 1..];
  }

  /** In a list of distinct names, an entry occurs once. */
  lemma OnlyOnce(entries: seq<FileInfo>, a: nat)
    requires a < |entries| && DistinctNames(entries)
    ensures multiset(entries)[entries[a]] == 1
  {
    var x := entries[a];
    assert entries == entries[..a] + [x] + entries[a + 1..];
    assert x !in multiset(entries[..a]);
    assert x !in multiset(entries[a + 1..]);
  }

  /** A permutation of a listing is a listing. */
  lemma PermutedListing(nodes: map<string, Node>, p: string, entries: seq<FileInfo>, sorted: seq<FileInfo>)
    requires StartsWith(p, BaseDir) && multiset(sorted) == multiset(entries)
    requires ListsChildren(nodes, p, entries)
    ensures ListsChildren(nodes, p, sorted)
  {
    NamesOfPermutation(sorted, entries);
    NamesOfPermutation(entries, sorted);
    forall i | 0 <= i < |sorted| ensures EntryOf(nodes, p, sorted[i]) {
      assert sorted[i] in multiset(entries);
    }
    forall i, j | 0 <= i < j < |sorted| ensures sorted[i].name != sorted[j].name {
      if sorted[i].name == sorted[j].name {
        assert EntryOf(nodes, p, sorted[i]) && EntryOf(nodes, p, sorted[j]);
        TwiceCounted(sorted, i, j);
        assert sorted[i] in multiset(entries);
        var a :| 0 <= a < |entries| && entries[a] == sorted[i];
        OnlyOnce(entries, a);
      }
    }
  }

  class Disk {
    /** Every entry of the machine's file system by absolute path. */
    var nodes: map<string, Node>

    constructor (nodes: map<string, Node>)
      ensures this.nodes == nodes
    {
      this.nodes := nodes;
    }

    /**
     * `listFiles`: the entries directly inside the resolved directory, each
     * once, directories first and by name.
     */
    method ListFiles(dirPath: Option<string>) returns (r: Result<seq<FileInfo>>)
      ensures match ResolvePath(dirPath)
        case Err(e) => r == Err(e)
        case Ok(p) =>
          if StatError(nodes, p).Some? then r == Err(ListFailed + StatError(nodes, p).value)
          else if nodes[p].File? then r == Err(ListFailed + NotADirectory)
          else r.Ok? && Sorted(r.value) && ListsChildren(nodes, p, r.value)
    {
      var resolved := ResolvePath(dirPath);
      if resolved.Err? {
        return Err(resolved.error);
      }
      var p := resolved.value;
      var e := StatError(nodes, p);
      if e.Some? {
        return Err(ListFailed + e.value);
      }
      if nodes[p].File? {
        return Err(ListFailed + NotADirectory);
      }
      var entries := ReadDirectory(p);
      var sorted := SortFiles(entries);
      PermutedListing(nodes, p, entries, sorted);
      return Ok(sorted);
    }

    /** `fs.readdir` with each entry's `fs.stat`, in whatever order the directory yields them. */
    method ReadDirectory(p: string) returns (entries: seq<FileInfo>)
      requires StartsWith(p, BaseDir)
      ensures ListsChildren(nodes, p, entries)
    {
      var left := Children(nodes, p);
      entries := [];
      while left != {}
        invariant left <= Children(nodes, p)
        invariant Names(entries) == Children(nodes, p) - left
        invariant forall i | 0 <= i < |entries| :: EntryOf(nodes, p, entries[i])
        invariant DistinctNames(entries)
        decreases left
      {
        var c :| c in left;
        ChildIn(nodes, p, c);
        var e := InfoOf(nodes, p, c);
        assert c !in Names(entries);
        NamesAppend(entries, e);
        entries := entries + [e];
        left := left - {c};
      }
    }

    /** `writeFile`: the resolved path now holds the text. */
    method WriteFile(filePath: Option<string>, content: string) returns (r: Result<()>)
      modifies this
      ensures match ResolvePath(filePath)
        case Err(e) => r == Err(e) && nodes == old(nodes)
        case Ok(p) => match WriteError(old(nodes), p)
          case Some(m) => r == Err(WriteFailed + m) && nodes == old(nodes)
          case None => r == Ok(()) && nodes == old(nodes)[p := TextFile(content)]
    {
      var resolved := ResolvePath(filePath);
      if resolved.Err? {
        return Err(resolved.error);
      }
      var p := resolved.value;
      var e := WriteError(nodes, p);
      if e.Some? {
        return Err(WriteFailed + e.value);
      }
      nodes := nodes[p := TextFile(content)];
      return Ok(());
    }

    /** `createDirectory`: a recursive `mkdir` of the resolved path. */
    method CreateDirectory(dirPath: Option<string>) returns (r: Result<()>)
      modifies this
      ensures match ResolvePath(dirPath)
        case Err(e) => r == Err(e) && nodes == old(nodes)
        case Ok(p) => match MkdirError(old(nodes), p)
          case Some(m) => r == Err(MkdirFailed + m) && nodes == old(nodes)
          case None => r == Ok(()) && nodes == old(nodes) + MadeDirs(old(nodes), p)
    {
      var resolved := ResolvePath(dirPath);
      if resolved.Err? {
        return Err(resolved.error);
      }
      var p := resolved.value;
      var e := MkdirError(nodes, p);
      if e.Some? {
        return Err(MkdirFailed + e.value);
      }
      nodes := nodes + MadeDirs(nodes, p);
      return Ok(());
    }

    /** `createFile`: an empty file, refused when anything is already at the path. */
    method CreateFile(filePath: Option<string>) returns (r: Result<()>)
      modifies this
      ensures match ResolvePath(filePath)
        case Err(e) => r == Err(e) && nodes == old(nodes)
        case Ok(p) =>
          if StatError(old(nodes), p).None? then r == Err(CreateFailed + AlreadyExists) && nodes == old(nodes)
          else match WriteError(old(nodes), p)
            case Some(m) => r == Err(CreateFailed + m) && nodes == old(nodes)
            case None => r == Ok(()) && nodes == old(nodes)[p := File(0, "")]
    {
      var resolved := ResolvePath(filePath);
      if resolved.Err? {
        return Err(resolved.error);
      }
      var p := resolved.value;
      if StatError(nodes, p).None? {
        return Err(CreateFailed + AlreadyExists);
      }
      var e := WriteError(nodes, p);
      if e.Some? {
        return Err(CreateFailed + e.value);
      }
      assert TextFile("") == File(0, "");
      nodes := nodes[p := TextFile("")];
      return Ok(());
    }

    /** `deleteItem`: the base directory is refused; a directory goes with everything below it. */
    method DeleteItem(itemPath: Option<string>) returns (r: Result<()>)
      modifies this
      ensures match ResolvePath(itemPath)
        case Err(e) => r == Err(e) && nodes == old(nodes)
        case Ok(p) =>
          if p == BaseDir then r == Err(RootRefused) && nodes == old(nodes)
          else if StatError(old(nodes), p).Some? then r == Err(DeleteFailed + StatError(old(nodes), p).value) && nodes == old(nodes)
          else if old(nodes)[p].Directory? then r == Ok(()) && nodes == RemoveTree(old(nodes), p)
          else r == Ok(()) && nodes == old(nodes) - {p}
    {
      var resolved := ResolvePath(itemPath);
      if resolved.Err? {
        return Err(resolved.error);
      }
      var p := resolved.value;
      if p == BaseDir {
        return Err(RootRefused);
      }
      var e := StatError(nodes, p);
      if e.Some? {
        return Err(DeleteFailed + e.value);
      }
      if nodes[p].Directory? {
        nodes := RemoveTree(nodes, p);
      } else {
        nodes := nodes - {p};
      }
      return Ok(());
    }

    /** `renameItem`: both paths pass the guard, old first, then the tree moves. */
    method RenameItem(oldPath: Option<string>, newPath: Option<string>) returns (r: Result<()>)
      modifies this
      ensures match (ResolvePath(oldPath), ResolvePath(newPath))
        case (Err(e), _) => r == Err(e) && nodes == old(nodes)
        case (Ok(_), Err(e)) => r == Err(e) && nodes == old(nodes)
        case (Ok(a), Ok(b)) => match RenameError(old(nodes), a, b)
          case Some(m) => r == Err(RenameFailed + m) && nodes == old(nodes)
          case None => r == Ok(()) && nodes == MoveTree(old(nodes), a, b)
    {
      var safeOld := ResolvePath(oldPath);
      if safeOld.Err? {
        return Err(safeOld.error);
      }
      var safeNew := ResolvePath(newPath);
      if safeNew.Err? {
        return Err(safeNew.error);
      }
      var e := RenameError(nodes, safeOld.value, safeNew.value);
      if e.Some? {
        return Err(RenameFailed + e.value);
      }
      nodes := MoveTree(nodes, safeOld.value, safeNew.value);
      return Ok(());
    }
  }

  /** Paths that resolve to the base directory cannot be deleted: a missing path, `""`, `.` and `..`. */
  lemma RootPathsRefused()
    ensures ResolvePath(None) == Ok(BaseDir) && ResolvePath(Some("..")) == Ok(BaseDir)
    ensures ResolvePath(Some(".")) == Ok(BaseDir)
  {
    ResolveFalsy();
    assert StripDotDot("..") == [];
    assert Split(".", '/') == ["."];
    assert Normalize(BaseSegments, ["."]) == BaseSegments;
    assert Join(BaseSegments, "/") == "var/www";
  }

  /** A deleted directory takes everything below it; everything else stays as it was. */
  lemma DeleteKeepsOthers(nodes: map<string, Node>, p: string, k: string)
    requires k in nodes
    ensures k in RemoveTree(nodes, p) <==> !Within(k, p)
  {
  }
}
