/** The three `fs-extra` operations the template engine changes the output
    tree with — `ensureDir`, `writeFile` and `rename` — on a tree of files and
    directories addressed by '/'-separated paths below a root "". */
module FsModel {
  import opened Wrappers
  import opened Text
  import opened Paths

  const ENOENT: string := "ENOENT: no such file or directory"
  const ENOTDIR: string := "ENOTDIR: not a directory"
  const EISDIR: string := "EISDIR: illegal operation on a directory"
  const EEXIST: string := "EEXIST: file already exists"

  /** A directory tree: the content of each file, and the set of directories. */
  datatype Disk = Disk(files: map<string, string>, dirs: set<string>)

  /** A tree as an operating system keeps it: the root is a directory, no
      path is both a file and a directory, and every file and directory other
      than the root sits in an existing directory. */
  predicate ValidDisk(d: Disk)
  {
    && "" in d.dirs
    && d.files.Keys !! d.dirs
    && (forall p {:trigger Dirname(p)} :: p in d.files ==> Dirname(p) in d.dirs)
    && (forall q {:trigger Dirname(q)} :: q in d.dirs && q != "" ==> Dirname(q) in d.dirs)
  }

  /** `fs.ensureDir(dir)`: creates `dir` and every missing directory above
      it. It fails when `dir` is itself a file, or when a file stands where
      one of the directories above it should be. */
  function EnsureDirOn(disk: Disk, dir: string): Result<Disk>
  {
    if dir in disk.files then Err(EEXIST)
    else if !(Ancestors(dir) !! disk.files.Keys) then Err(ENOTDIR)
    else Ok(Disk(disk.files, disk.dirs + Ancestors(dir)))
  }

  /** `ensureDir` fails exactly when a file is in the way; otherwise `dir`
      exists afterwards, every directory it adds is `dir` or lies above it,
      no file changes, no directory disappears and the tree stays well
      formed. */
  lemma EnsureDirFacts(disk: Disk, dir: string)
    ensures var r := EnsureDirOn(disk, dir);
      && (r.Ok? <==> Ancestors(dir) !! disk.files.Keys)
      && (r.Ok? ==> dir in r.value.dirs && Dirname(dir) in r.value.dirs && disk.dirs <= r.value.dirs)
      && (r.Ok? ==> forall q :: q in r.value.dirs && q !in disk.dirs ==>
            q == dir || q == "" || StartsWith(dir, q + "/"))
      && (r.Ok? ==> r.value.files == disk.files && Dirname(dir) !in disk.files)
      && (r.Ok? && ValidDisk(disk) ==> ValidDisk(r.value))
      && (r.Err? && dir in disk.files ==> r.error == EEXIST)
  {
    if EnsureDirOn(disk, dir).Ok? {
      if dir != "" {
        AncestorsClosed(dir, dir);
      }
      forall q | q in Ancestors(dir) && q != "" ensures Dirname(q) in Ancestors(dir) {
        AncestorsClosed(dir, q);
      }
    }
  }

  /** `fs.writeFile(path, content)`: creates or overwrites a file in an
      existing directory. */
  function WriteOn(disk: Disk, path: string, content: string): Result<Disk>
  {
    if path in disk.dirs then Err(EISDIR)
    else if Dirname(path) in disk.files then Err(ENOTDIR)
    else if Dirname(path) !in disk.dirs then Err(ENOENT)
    else Ok(Disk(disk.files[path := content], disk.dirs))
  }

  /** `writeFile` fails exactly when the path is a directory or its parent
      is not one; otherwise only the written file changes and the tree
      stays well formed. */
  lemma WriteFacts(disk: Disk, path: string, content: string)
    ensures var r := WriteOn(disk, path, content);
      && (r.Ok? <==> path !in disk.dirs && Dirname(path) in disk.dirs && Dirname(path) !in disk.files)
      && (r.Ok? ==> r.value == Disk(disk.files[path := content], disk.dirs))
      && (r.Ok? && ValidDisk(disk) ==> ValidDisk(r.value))
  {
  }

  /** `fs.rename(from, to)` of a file: the content moves from `from` to `to`,
      replacing any file at `to`. */
  function RenameOn(disk: Disk, from: string, to: string): Result<Disk>
  {
    if from !in disk.files then Err(ENOENT)
    else if to in disk.dirs then Err(EISDIR)
    else if Dirname(to) in disk.files then Err(ENOTDIR)
    else if Dirname(to) !in disk.dirs then Err(ENOENT)
    else Ok(Disk((disk.files - {from})[to := disk.files[from]], disk.dirs))
  }

  /** `rename` fails exactly when the source is no file, the destination is
      a directory or its parent is not one; otherwise the content is at the
      destination, the source is gone, nothing else changes and the tree
      stays well formed. */
  lemma RenameFacts(disk: Disk, from: string, to: string)
    ensures var r := RenameOn(disk, from, to);
      && (r.Ok? <==> from in disk.files && to !in disk.dirs
                     && Dirname(to) in disk.dirs && Dirname(to) !in disk.files)
      && (r.Ok? ==> to in r.value.files && r.value.files[to] == disk.files[from])
      && (r.Ok? && from != to ==> from !in r.value.files)
      && (r.Ok? ==> forall q :: q != from && q != to ==>
            (q in r.value.files <==> q in disk.files)
            && (q in disk.files ==> r.value.files[q] == disk.files[q]))
      && (r.Ok? ==> r.value.dirs == disk.dirs)
      && (r.Ok? && ValidDisk(disk) ==> ValidDisk(r.value))
  {
  }

  /** The output tree, changed in place by the three operations. Each one
      reports its error message, or `None` when it succeeded. */
  class FileSystem {
    var files: map<string, string>
    var dirs: set<string>

    function State(): Disk
      reads this
    {
      Disk(files, dirs)
    }

    constructor (initial: Disk)
      ensures State() == initial
    {
      files := initial.files;
      dirs := initial.dirs;
    }

    method EnsureDir(dir: string) returns (failure: Option<string>)
      modifies this
      ensures EnsureDirOn(old(State()), dir).Ok? ==>
                failure == None && State() == EnsureDirOn(old(State()), dir).value
      ensures EnsureDirOn(old(State()), dir).Err? ==>
                failure == Some(EnsureDirOn(old(State()), dir).error) && State() == old(State())
    {
      match EnsureDirOn(State(), dir)
      case Ok(d) =>
        files, dirs := d.files, d.dirs;
        failure := None;
      case Err(m) =>
        failure := Some(m);
    }

    method WriteFile(path: string, content: string) returns (failure: Option<string>)
      modifies this
      ensures WriteOn(old(State()), path, content).Ok? ==>
                failure == None && State() == WriteOn(old(State()), path, content).value
      ensures WriteOn(old(State()), path, content).Err? ==>
                failure == Some(WriteOn(old(State()), path, content).error) && State() == old(State())
    {
      match WriteOn(State(), path, content)
      case Ok(d) =>
        files, dirs := d.files, d.dirs;
        failure := None;
      case Err(m) =>
        failure := Some(m);
    }

    method Rename(from: string, to: string) returns (failure: Option<string>)
      modifies this
      ensures RenameOn(old(State()), from, to).Ok? ==>
                failure == None && State() == RenameOn(old(State()), from, to).value
      ensures RenameOn(old(State()), from, to).Err? ==>
                failure == Some(RenameOn(old(State()), from, to).error) && State() == old(State())
    {
      match RenameOn(State(), from, to)
      case Ok(d) =>
        files, dirs := d.files, d.dirs;
        failure := None;
      case Err(m) =>
        failure := Some(m);
    }
  }
}
