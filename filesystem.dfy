/** The file system the operations change, as a map from path strings to nodes, and the
    system calls they make on it. Paths are looked up as written: `.` and `..` are not resolved. */
module FileSystem {
  import opened Strings
  import opened Values
  import opened Paths

  /** A regular file (its content, permission bits and modification time) or a directory. */
  datatype Node = File(content: string, mode: int, stamp: int) | Dir(mode: int, stamp: int)

  type Fs = map<string, Node>

  /** The `OSError` subclasses the calls below raise. */
  datatype FsError =
    | NotFound(path: string)
    | IsADirectory(path: string)
    | NotADirectory(path: string)
    | FileExists(path: string)
    | SameFile(path: string)

  /** Permission bits of a created file (0o644) and directory (0o755); the umask is not modelled. */
  const DefaultFileMode: int := 420
  const DefaultDirMode: int := 493

  /** A path made of separators only names the root, which always exists. */
  predicate IsRoot(p: string)
  {
    p != "" && AllSlashes(p)
  }

  predicate IsDir(fs: Fs, p: string)
  {
    IsRoot(p) || (p in fs && fs[p].Dir?)
  }

  predicate Exists(fs: Fs, p: string)
  {
    IsRoot(p) || p in fs
  }

  /** Every entry sits in a directory that exists (or in the process's working directory). */
  ghost predicate Consistent(fs: Fs)
  {
    forall q :: q in fs ==> Dirname(q) == "" || IsDir(fs, Dirname(q))
  }

  /** The error creating an entry at `p` raises because its directory is missing, if any. */
  function ParentError(fs: Fs, p: string): (r: Option<FsError>)
    ensures r.None? <==> Dirname(p) == "" || IsDir(fs, Dirname(p))
  {
    var d := Dirname(p);
    if d == "" || IsDir(fs, d) then None
    else if d in fs then Some(NotADirectory(d))
    else Some(NotFound(d))
  }

  /** `open(p, 'w')` and one `write(text)`: the file is created or truncated, then holds `text`. */
  function WriteFile(fs: Fs, p: string, text: string, now: int): (r: Result<Fs, FsError>)
    ensures r.Ok? <==> !IsDir(fs, p) && (p in fs || ParentError(fs, p).None?)
    ensures r.Ok? ==> r.value.Keys == fs.Keys + {p} && r.value[p].File? && r.value[p].content == text
    ensures r.Ok? ==> forall q :: q in fs && q != p ==> r.value[q] == fs[q]
  {
    if IsDir(fs, p) then Err(IsADirectory(p))
    else if p !in fs && ParentError(fs, p).Some? then Err(ParentError(fs, p).value)
    else Ok(fs[p := File(text, if p in fs then fs[p].mode else DefaultFileMode, now)])
  }

  /** A write to a file opened for writing: `chunk` is appended. */
  function AppendContent(fs: Fs, p: string, chunk: string, now: int): (r: Fs)
    requires p in fs && fs[p].File?
    ensures r.Keys == fs.Keys && r[p].File? && r[p].content == fs[p].content + chunk
    ensures forall q :: q in fs && q != p ==> r[q] == fs[q]
  {
    fs[p := File(fs[p].content + chunk, fs[p].mode, now)]
  }

  /** `open(p, 'a').close()`: an existing file is left exactly as it is; a missing one is created empty. */
  function AppendOpen(fs: Fs, p: string, now: int): (r: Result<Fs, FsError>)
    ensures r.Ok? ==> p in r.value && r.value[p].File? && r.value.Keys == fs.Keys + {p}
    ensures r.Ok? && p in fs ==> r.value == fs
    ensures r.Ok? && p !in fs ==> r.value == fs[p := File("", DefaultFileMode, now)]
    ensures IsDir(fs, p) ==> r.Err?
  {
    if IsDir(fs, p) then Err(IsADirectory(p))
    else if p in fs then Ok(fs)
    else if ParentError(fs, p).Some? then Err(ParentError(fs, p).value)
    else Ok(fs[p := File("", DefaultFileMode, now)])
  }

  function WithStamp(n: Node, stamp: int): (r: Node)
    ensures r.mode == n.mode && r.stamp == stamp && r.File? == n.File?
    ensures n.File? ==> r.content == n.content
  {
    match n
    case File(c, m, _) => File(c, m, stamp)
    case Dir(m, _) => Dir(m, stamp)
  }

  function WithMode(n: Node, mode: int): (r: Node)
    ensures r.mode == mode && r.stamp == n.stamp && r.File? == n.File?
    ensures n.File? ==> r.content == n.content
  {
    match n
    case File(c, _, s) => File(c, mode, s)
    case Dir(_, s) => Dir(mode, s)
  }

  /** `os.utime(p, None)`: the modification time becomes `now`; nothing else changes. */
  function Utime(fs: Fs, p: string, now: int): (r: Result<Fs, FsError>)
    ensures r.Ok? <==> p in fs
    ensures r.Ok? ==> r.value == fs[p := WithStamp(fs[p], now)]
  {
    if p in fs then Ok(fs[p := WithStamp(fs[p], now)]) else Err(NotFound(p))
  }

  /** `os.chmod(p, mode)` */
  function Chmod(fs: Fs, p: string, mode: int): (r: Result<Fs, FsError>)
    ensures r.Ok? <==> p in fs
    ensures r.Ok? ==> r.value == fs[p := WithMode(fs[p], mode)]
  {
    if p in fs then Ok(fs[p := WithMode(fs[p], mode)]) else Err(NotFound(p))
  }

  /** `shutil.copystat(src, dst)`: the destination takes the source's permission bits and time. */
  function CopyStat(fs: Fs, src: string, dst: string): (r: Result<Fs, FsError>)
    ensures r.Ok? <==> src in fs && dst in fs
    ensures r.Ok? ==> r.value.Keys == fs.Keys && r.value[dst].mode == fs[src].mode && r.value[dst].stamp == fs[src].stamp
    ensures r.Ok? ==> r.value[dst].File? == fs[dst].File? && (fs[dst].File? ==> r.value[dst].content == fs[dst].content)
    ensures r.Ok? ==> forall q :: q in fs && q != dst ==> r.value[q] == fs[q]
  {
    if src !in fs then Err(NotFound(src))
    else if dst !in fs then Err(NotFound(dst))
    else Ok(fs[dst := WithStamp(WithMode(fs[dst], fs[src].mode), fs[src].stamp)])
  }

  /** Where `shutil.copy2(src, dst)` writes: into a directory `dst` under the source's own name,
      otherwise at `dst`. */
  function CopyTarget(fs: Fs, src: string, dst: string): string
  {
    if IsDir(fs, dst) then Join(dst, Basename(src)) else dst
  }

  /** `shutil.copy2(src, dst)`: contents and metadata are copied; a directory destination receives
      the file under its own name. Returns the path written. */
  function Copy2(fs: Fs, src: string, dst: string, now: int): (r: Result<(Fs, string), FsError>)
    ensures r.Ok? ==> r.value.1 == CopyTarget(fs, src, dst)
    ensures r.Ok? ==> src in fs && fs[src].File? && r.value.1 != src
    ensures r.Ok? ==> var (fs', target) := r.value;
      target in fs' && fs'[target] == File(fs[src].content, fs[src].mode, fs[src].stamp)
    ensures r.Ok? ==> var (fs', target) := r.value;
      fs'.Keys == fs.Keys + {target} && forall q :: q in fs && q != target ==> fs'[q] == fs[q]
  {
    var target := CopyTarget(fs, src, dst);
    if src == target then Err(SameFile(src))
    else if IsDir(fs, src) then Err(IsADirectory(src))
    else if src !in fs then Err(NotFound(src))
    else match WriteFile(fs, target, fs[src].content, now)
      case Err(e) => Err(e)
      case Ok(written) =>
        var stat := CopyStat(written, src, target);
        Ok((stat.value, target))
  }

  /** `os.path.split` as `os.makedirs` uses it: a trailing separator is split off first. */
  function MakedirsSplit(p: string): (r: (string, string))
    ensures r.1 != "" ==> |r.0| < |p|
    ensures Basename(p) != "" ==> r == (Dirname(p), Basename(p))
  {
    if Basename(p) != "" then (Dirname(p), Basename(p))
    else (Dirname(Dirname(p)), Basename(Dirname(p)))
  }

  /** The final `mkdir(p)` of `os.makedirs(p, exist_ok=True)`: an existing directory is accepted. */
  function MakeLeaf(fs: Fs, p: string, head: string, now: int): (r: Result<Fs, FsError>)
    ensures r.Ok? ==> IsDir(r.value, p) && r.value.Keys == fs.Keys + (if IsDir(fs, p) then {} else {p})
    ensures r.Ok? ==> forall q :: q in fs ==> q in r.value && r.value[q] == fs[q]
  {
    if IsDir(fs, p) then Ok(fs)
    else if p in fs then Err(FileExists(p))
    else if head != "" && !IsDir(fs, head) then Err(if head in fs then NotADirectory(head) else NotFound(head))
    else Ok(fs[p := Dir(DefaultDirMode, now)])
  }

  /** `os.makedirs(p, exist_ok=True)`: missing ancestors first, then `p` itself. Existing entries
      are never changed, only new directories added. */
  function MakeDirs(fs: Fs, p: string, now: int): (r: Result<Fs, FsError>)
    ensures r.Ok? ==> fs.Keys <= r.value.Keys && forall q :: q in fs ==> r.value[q] == fs[q]
    ensures r.Ok? ==> forall q :: q in r.value && q !in fs ==> r.value[q].Dir?
    decreases |p|
  {
    var (head, tail) := MakedirsSplit(p);
    var made :=
      if head != "" && tail != "" && !Exists(fs, head) then
        match MakeDirs(fs, head, now)
        case Ok(f) => Ok(f)
        case Err(FileExists(_)) => Ok(fs)
        case Err(e) => Err(e)
      else Ok(fs);
    match made
    case Err(e) => Err(e)
    case Ok(fs1) => if head != "" && tail != "" && !Exists(fs, head) && tail == "." then Ok(fs1) else MakeLeaf(fs1, p, head, now)
  }

  /** After a successful `makedirs` of a path whose last component is a plain name, it is a directory. */
  lemma MakeDirsCreates(fs: Fs, p: string, now: int)
    requires Basename(p) != "" && Basename(p) != "."
    requires MakeDirs(fs, p, now).Ok?
    ensures IsDir(MakeDirs(fs, p, now).value, p)
  {
  }

  /** `makedirs` of an existing directory changes nothing and does not fail: calling it twice is harmless. */
  lemma MakeDirsIdempotent(fs: Fs, p: string, now: int)
    requires Consistent(fs) && IsDir(fs, p) && Basename(p) != ""
    ensures MakeDirs(fs, p, now) == Ok(fs)
  {
    assert !IsRoot(p);
    assert Dirname(p) == "" || IsDir(fs, Dirname(p));
  }

  /** The final `mkdir` adds an entry whose directory exists. */
  lemma MakeLeafConsistent(fs: Fs, p: string, now: int)
    requires Consistent(fs)
    requires MakeLeaf(fs, p, Dirname(p), now).Ok?
    ensures Consistent(MakeLeaf(fs, p, Dirname(p), now).value)
  {
    var r := MakeLeaf(fs, p, Dirname(p), now).value;
    forall q | q in r
      ensures Dirname(q) == "" || IsDir(r, Dirname(q))
    {
      if q in fs {
        assert Dirname(q) == "" || IsDir(fs, Dirname(q));
      }
    }
  }

  /** `makedirs` keeps every entry inside an existing directory. */
  lemma {:induction false} MakeDirsConsistent(fs: Fs, p: string, now: int)
    requires Consistent(fs) && p != "" && p[|p| - 1] != '/'
    requires MakeDirs(fs, p, now).Ok?
    ensures Consistent(MakeDirs(fs, p, now).value)
    decreases |p|
  {
    MakeDirsParent(fs, p);
    var head := Dirname(p);
    if head != "" && !Exists(fs, head) && MakeDirs(fs, head, now).Ok? {
      MakeDirsViaParent(fs, p, now);
      MakeDirsConsistent(fs, head, now);
      if Basename(p) != "." {
        MakeLeafConsistent(MakeDirs(fs, head, now).value, p, now);
      }
    } else {
      if head != "" && !Exists(fs, head) {
        MakeDirsParentFailed(fs, p, now);
      } else {
        MakeDirsParentExists(fs, p, now);
      }
      MakeLeafConsistent(fs, p, now);
    }
  }

  /** The parent `makedirs` creates first is a shorter path without a trailing separator. */
  lemma MakeDirsParent(fs: Fs, p: string)
    requires p != "" && p[|p| - 1] != '/'
    ensures Basename(p) != ""
    ensures var head := Dirname(p);
      head != "" && !Exists(fs, head) ==> |head| < |p| && head[|head| - 1] != '/'
  {
    assert p[RFind(p, '/') + 1..] != "";
  }

  /** `makedirs` of a path whose parent is missing: the parent first, then the final `mkdir`. */
  lemma MakeDirsViaParent(fs: Fs, p: string, now: int)
    requires p != "" && p[|p| - 1] != '/'
    requires Dirname(p) != "" && !Exists(fs, Dirname(p)) && MakeDirs(fs, Dirname(p), now).Ok?
    ensures MakeDirs(fs, p, now) ==
      if Basename(p) == "." then MakeDirs(fs, Dirname(p), now) else MakeLeaf(MakeDirs(fs, Dirname(p), now).value, p, Dirname(p), now)
  {
    MakeDirsParent(fs, p);
    assert MakedirsSplit(p) == (Dirname(p), Basename(p));
  }

  /** `makedirs` of a path whose parent exists is the final `mkdir` alone. */
  lemma MakeDirsParentExists(fs: Fs, p: string, now: int)
    requires p != "" && p[|p| - 1] != '/'
    requires Dirname(p) == "" || Exists(fs, Dirname(p))
    ensures MakeDirs(fs, p, now) == MakeLeaf(fs, p, Dirname(p), now)
  {
    MakeDirsParent(fs, p);
    assert MakedirsSplit(p) == (Dirname(p), Basename(p));
  }

  /** When creating the missing parent fails, `makedirs` fails the same way, unless the parent
      turned out to exist (`FileExistsError`), in which case the final `mkdir` runs alone. */
  lemma MakeDirsParentFailed(fs: Fs, p: string, now: int)
    requires p != "" && p[|p| - 1] != '/'
    requires Dirname(p) != "" && !Exists(fs, Dirname(p)) && MakeDirs(fs, Dirname(p), now).Err?
    ensures var e := MakeDirs(fs, Dirname(p), now).error;
      MakeDirs(fs, p, now) == if e.FileExists? then MakeLeaf(fs, p, Dirname(p), now) else Err(e)
  {
    MakeDirsParent(fs, p);
    assert MakedirsSplit(p) == (Dirname(p), Basename(p));
  }

  /** Running `makedirs` twice: the second call succeeds and changes nothing. */
  lemma MakeDirsTwice(fs: Fs, p: string, now: int, later: int)
    requires Consistent(fs) && p != "" && p[|p| - 1] != '/' && Basename(p) != "."
    requires MakeDirs(fs, p, now).Ok?
    ensures var once := MakeDirs(fs, p, now).value; MakeDirs(once, p, later) == Ok(once)
  {
    var once := MakeDirs(fs, p, now).value;
    assert Basename(p) != "";
    MakeDirsCreates(fs, p, now);
    MakeDirsConsistent(fs, p, now);
    MakeDirsIdempotent(once, p, later);
  }
}
