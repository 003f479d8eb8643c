/** `iter_source_files`: a top-down walk of a directory tree that prunes
    ignored and hidden directories and keeps `.c` and `.h` files. The file
    system is a value handed in: a directory lists its files in the order the
    operating system reports them, each with the outcome of reading it, and
    its sub-directories in that same order. */
module SourceFiles {
  import opened Wrappers
  import opened PyStr
  import opened SyntaxTree

  /** A file, with the bytes a read returns or the read error's message. */
  datatype FileEntry = FileEntry(name: string, content: Result<seq<byte>, string>)

  datatype Dir = Dir(name: string, files: seq<FileEntry>, subdirs: seq<Dir>)

  /** A file yielded by the walk: the directory names leading to it from the
      root, its name and its read outcome. */
  datatype SourceFile = SourceFile(dirs: seq<string>, name: string, content: Result<seq<byte>, string>)

  const IgnoredDirs: set<string> := {
    ".git", ".svn", ".hg",
    "build", "cmake-build-debug", "cmake-build-release",
    ".vscode", ".idea",
    "venv", ".venv", "__pycache__",
    "node_modules"
  }

  /** A directory the walk descends into: not in the ignore set and not hidden. */
  predicate Kept(dirName: string) {
    dirName !in IgnoredDirs && !StartsWith(dirName, ".")
  }

  predicate IsSourceName(fileName: string) {
    EndsWith(fileName, ".c") || EndsWith(fileName, ".h")
  }

  /** `str(Path(dirpath) / fn)` for a root path and the directories below it. */
  function PathString(root: string, f: SourceFile): string {
    Join([root] + f.dirs + [f.name], "/")
  }

  /** The source files of one directory, in listing order. */
  function SourceFilesIn(fs: seq<FileEntry>, dirs: seq<string>): (r: seq<SourceFile>)
    ensures forall x :: x in r <==> exists e :: e in fs && IsSourceName(e.name) && x == SourceFile(dirs, e.name, e.content)
  {
    if fs == [] then []
    else
      var rest := SourceFilesIn(fs[1..], dirs);
      assert forall e :: e in fs <==> e == fs[0] || e in fs[1..];
      if IsSourceName(fs[0].name) then [SourceFile(dirs, fs[0].name, fs[0].content)] + rest else rest
  }

  /** The walk below directory `d`, reached through `dirs`: its own source
      files first, then each kept sub-directory's walk in listing order. */
  function Files(d: Dir, dirs: seq<string>): seq<SourceFile>
    decreases d, 1
  {
    SourceFilesIn(d.files, dirs) + FilesAll(d.subdirs, dirs)
  }

  function FilesAll(ds: seq<Dir>, dirs: seq<string>): seq<SourceFile>
    decreases ds, 0
  {
    if ds == [] then []
    else if Kept(ds[0].name) then Files(ds[0], dirs + [ds[0].name]) + FilesAll(ds[1..], dirs)
    else FilesAll(ds[1..], dirs)
  }

  /** `iter_source_files(root)`: the root itself is walked whatever its name. */
  function IterSourceFiles(root: Dir): seq<SourceFile> {
    Files(root, [])
  }

  /** File `e` is in the directory reached from `d` through the names `rel`. */
  ghost predicate Located(d: Dir, rel: seq<string>, e: FileEntry)
    decreases d
  {
    if rel == [] then e in d.files
    else exists sd :: sd in d.subdirs && sd.name == rel[0] && Located(sd, rel[1..], e)
  }

  /** Every yielded file is a `.c` or `.h` file that really is in the tree,
      and no directory on its path is ignored or hidden. */
  lemma {:induction false} FilesSound(d: Dir, dirs: seq<string>, x: SourceFile)
    requires x in Files(d, dirs)
    ensures IsSourceName(x.name)
    ensures |dirs| <= |x.dirs| && x.dirs[..|dirs|] == dirs
    ensures forall i :: |dirs| <= i < |x.dirs| ==> Kept(x.dirs[i])
    ensures Located(d, x.dirs[|dirs|..], FileEntry(x.name, x.content))
    decreases d, 1
  {
    if x in SourceFilesIn(d.files, dirs) {
      assert x.dirs[|dirs|..] == [];
    } else {
      FilesAllSound(d.subdirs, dirs, x);
    }
  }

  lemma {:induction false} FilesAllSound(ds: seq<Dir>, dirs: seq<string>, x: SourceFile)
    requires x in FilesAll(ds, dirs)
    ensures IsSourceName(x.name)
    ensures |dirs| < |x.dirs| && x.dirs[..|dirs|] == dirs
    ensures forall i :: |dirs| <= i < |x.dirs| ==> Kept(x.dirs[i])
    ensures exists sd :: sd in ds && sd.name == x.dirs[|dirs|] && Located(sd, x.dirs[|dirs| + 1..], FileEntry(x.name, x.content))
    decreases ds, 0
  {
    if ds != [] {
      if Kept(ds[0].name) && x in Files(ds[0], dirs + [ds[0].name]) {
        var dirs' := dirs + [ds[0].name];
        FilesSound(ds[0], dirs', x);
        assert x.dirs[..|dirs'|][..|dirs|] == dirs;
        assert x.dirs[|dirs|] == x.dirs[..|dirs'|][|dirs|] == ds[0].name;
        assert x.dirs[|dirs'|..] == x.dirs[|dirs| + 1..];
      } else {
        FilesAllSound(ds[1..], dirs, x);
      }
    }
  }

  /** Every `.c` or `.h` file of the tree whose directories are all kept is
      yielded. */
  lemma {:induction false} FilesComplete(d: Dir, dirs: seq<string>, rel: seq<string>, e: FileEntry)
    requires Located(d, rel, e) && IsSourceName(e.name)
    requires forall i :: 0 <= i < |rel| ==> Kept(rel[i])
    ensures SourceFile(dirs + rel, e.name, e.content) in Files(d, dirs)
    decreases d, 1
  {
    if rel == [] {
      assert dirs + rel == dirs;
    } else {
      var sd :| sd in d.subdirs && sd.name == rel[0] && Located(sd, rel[1..], e);
      FilesAllComplete(d.subdirs, dirs, sd, rel, e);
    }
  }

  lemma {:induction false} FilesAllComplete(ds: seq<Dir>, dirs: seq<string>, sd: Dir, rel: seq<string>, e: FileEntry)
    requires sd in ds && |rel| >= 1 && sd.name == rel[0] && Located(sd, rel[1..], e) && IsSourceName(e.name)
    requires forall i :: 0 <= i < |rel| ==> Kept(rel[i])
    ensures SourceFile(dirs + rel, e.name, e.content) in FilesAll(ds, dirs)
    decreases ds, 0
  {
    if ds[0] == sd {
      assert Kept(rel[0]);
      FilesComplete(sd, dirs + [sd.name], rel[1..], e);
      assert dirs + [sd.name] + rel[1..] == dirs + rel;
    } else {
      FilesAllComplete(ds[1..], dirs, sd, rel, e);
    }
  }

  /** Together: a file is yielded exactly when it is a `.c` or `.h` file in
      the tree and no directory below the root on its path is pruned. */
  lemma IterSourceFilesExactly(root: Dir, x: SourceFile)
    ensures x in IterSourceFiles(root) <==>
              IsSourceName(x.name) && (forall i :: 0 <= i < |x.dirs| ==> Kept(x.dirs[i]))
              && Located(root, x.dirs, FileEntry(x.name, x.content))
  {
    if x in IterSourceFiles(root) {
      FilesSound(root, [], x);
      assert x.dirs[0..] == x.dirs;
    }
    if IsSourceName(x.name) && (forall i :: 0 <= i < |x.dirs| ==> Kept(x.dirs[i]))
       && Located(root, x.dirs, FileEntry(x.name, x.content)) {
      FilesComplete(root, [], x.dirs, FileEntry(x.name, x.content));
      assert [] + x.dirs == x.dirs;
    }
  }
}
