/**
 * The part of java.nio the provider touches, as an abstract state: regular
 * files with their lines, the set of existing directories, and the owner and
 * group recorded on a path.
 */
module FileSystems {
  import opened Wrappers

  /** The proper ancestors of a path: every prefix that ends just before a '/' (the root itself excluded). */
  function Ancestors(p: string): set<string>
  {
    set i | 0 < i < |p| && p[i] == '/' :: p[..i]
  }

  /** A path together with its proper ancestors: what createDirectories has to make exist. */
  function Chain(p: string): (c: set<string>)
    ensures p in c
  {
    {p} + Ancestors(p)
  }

  /**
   * Files.createDirectories(p) on the directory set: every directory on the
   * way to p is created, unless p or one of its ancestors is a regular file,
   * in which case nothing is created and the call fails.
   */
  function CreatedDirectories(files: map<string, seq<string>>, dirs: set<string>, p: string): (r: Result<set<string>, string>)
    ensures r.Success? <==> Chain(p) !! files.Keys
  {
    if Chain(p) !! files.Keys then Success(dirs + Chain(p)) else Failure(p)
  }

  /** Where a walk over the volume mounts ended: the directories by then, and whether it stopped on a failure. */
  datatype Walk = Walk(directories: set<string>, outcome: Outcome<string>)

  /**
   * createMissingVolumeMountDirectories on the abstract state: each path, in
   * order, is left alone when something exists there and created with its
   * ancestors otherwise; the first failure stops the walk, keeping what the
   * earlier paths created.
   */
  function CreateMissing(files: map<string, seq<string>>, dirs: set<string>, paths: seq<string>): (w: Walk)
    ensures dirs <= w.directories
    ensures w.outcome.Fail? ==> w.outcome.error in paths
    decreases paths
  {
    if paths == [] then Walk(dirs, Pass)
    else if paths[0] in files || paths[0] in dirs then CreateMissing(files, dirs, paths[1..])
    else match CreatedDirectories(files, dirs, paths[0])
      case Success(d) => CreateMissing(files, d, paths[1..])
      case Failure(p) => Walk(dirs, Fail(p))
  }

  /** The directory set reached before looking at the first path. */
  function NextDirectories(files: map<string, seq<string>>, dirs: set<string>, p: string): set<string>
  {
    if p in files || p in dirs then dirs
    else match CreatedDirectories(files, dirs, p)
      case Success(d) => d
      case Failure(_) => dirs
  }

  /**
   * Nothing that existed is removed, and every directory the walk adds lies on
   * the way to one of the paths that did not exist.
   */
  lemma {:induction false} CreateMissingOnlyCreatesNeeded(files: map<string, seq<string>>, dirs: set<string>, paths: seq<string>)
    ensures var after := CreateMissing(files, dirs, paths).directories;
      dirs <= after &&
      forall q :: q in after - dirs ==>
        exists i :: 0 <= i < |paths| && q in Chain(paths[i]) && paths[i] !in files && paths[i] !in dirs
    decreases paths
  {
    if paths != [] && (paths[0] in files || paths[0] in dirs || CreatedDirectories(files, dirs, paths[0]).Success?) {
      var d := NextDirectories(files, dirs, paths[0]);
      CreateMissingOnlyCreatesNeeded(files, d, paths[1..]);
      var after := CreateMissing(files, dirs, paths).directories;
      assert after == CreateMissing(files, d, paths[1..]).directories;
      forall q | q in after - dirs
        ensures exists i :: 0 <= i < |paths| && q in Chain(paths[i]) && paths[i] !in files && paths[i] !in dirs
      {
        if q in d - dirs {
          assert q in Chain(paths[0]);
        } else {
          assert q in after - d;
          var j :| 0 <= j < |paths[1..]| && q in Chain(paths[1..][j]) && paths[1..][j] !in files && paths[1..][j] !in d;
          assert paths[1..][j] == paths[j + 1];
        }
      }
    }
  }

  /** A walk that ends without failure leaves every path existing. */
  lemma {:induction false} CreateMissingMakesAllExist(files: map<string, seq<string>>, dirs: set<string>, paths: seq<string>)
    requires CreateMissing(files, dirs, paths).outcome.Pass?
    ensures var after := CreateMissing(files, dirs, paths).directories;
      forall i :: 0 <= i < |paths| ==> paths[i] in files || paths[i] in after
    decreases paths
  {
    if paths != [] {
      var d := NextDirectories(files, dirs, paths[0]);
      CreateMissingMakesAllExist(files, d, paths[1..]);
      CreateMissingOnlyCreatesNeeded(files, d, paths[1..]);
      assert forall i :: 1 <= i < |paths| ==> paths[i] == paths[1..][i - 1];
    }
  }

  /** A walk that fails names a path that was missing and that a regular file stands in the way of. */
  lemma {:induction false} CreateMissingFailure(files: map<string, seq<string>>, dirs: set<string>, paths: seq<string>)
    requires CreateMissing(files, dirs, paths).outcome.Fail?
    ensures var p := CreateMissing(files, dirs, paths).outcome.error;
      p in paths && p !in files && p !in dirs && !(Chain(p) !! files.Keys)
    decreases paths
  {
    if paths[0] in files || paths[0] in dirs || CreatedDirectories(files, dirs, paths[0]).Success? {
      var d := NextDirectories(files, dirs, paths[0]);
      assert dirs <= d;
      CreateMissingFailure(files, d, paths[1..]);
    }
  }

  /** When every path already exists, nothing happens. */
  lemma {:induction false} CreateMissingWhenAllExist(files: map<string, seq<string>>, dirs: set<string>, paths: seq<string>)
    requires forall i :: 0 <= i < |paths| ==> paths[i] in files || paths[i] in dirs
    ensures CreateMissing(files, dirs, paths) == Walk(dirs, Pass)
    decreases paths
  {
    if paths != [] {
      assert paths[0] in files || paths[0] in dirs;
      assert forall i :: 0 <= i < |paths[1..]| ==> paths[1..][i] == paths[i + 1];
      CreateMissingWhenAllExist(files, dirs, paths[1..]);
    }
  }

  /** Running the walk a second time after a successful one changes nothing. */
  lemma CreateMissingIdempotent(files: map<string, seq<string>>, dirs: set<string>, paths: seq<string>)
    requires CreateMissing(files, dirs, paths).outcome.Pass?
    ensures var after := CreateMissing(files, dirs, paths).directories;
      CreateMissing(files, after, paths) == Walk(after, Pass)
  {
    var after := CreateMissing(files, dirs, paths).directories;
    CreateMissingMakesAllExist(files, dirs, paths);
    CreateMissingWhenAllExist(files, after, paths);
  }

  // ---------------------------------------------------------------------------
  // Temporary names
  // ---------------------------------------------------------------------------

  /** A direct child of `dir` whose name starts with `prefix` and ends with `suffix`. */
  predicate IsTempPath(path: string, dir: string, prefix: string, suffix: string)
  {
    var base := dir + "/" + prefix;
    |base| + |suffix| <= |path| && path[..|base|] == base && path[|path| - |suffix|..] == suffix
    && '/' !in path[|base|..]
  }

  ghost function MaxLength(paths: set<string>): (n: nat)
    ensures forall p :: p in paths ==> |p| <= n
    decreases paths
  {
    if paths == {} then 0
    else
      var p :| p in paths;
      var m := MaxLength(paths - {p});
      if |p| > m then |p| else m
  }

  /** Whatever is taken, some name of the required shape is still free. */
  lemma FreshNameExists(taken: set<string>, base: string, suffix: string)
    requires '/' !in suffix
    ensures exists r :: '/' !in r && base + r + suffix !in taken
  {
    var r := seq(MaxLength(taken) + 1, _ => 'a');
    assert |base + r + suffix| > MaxLength(taken);
    assert '/' !in r;
  }

  lemma TempPathShape(dir: string, prefix: string, r: string, suffix: string)
    requires '/' !in prefix && '/' !in r && '/' !in suffix
    ensures IsTempPath(dir + "/" + prefix + r + suffix, dir, prefix, suffix)
  {
  }

  class FileSystem {
    /** Regular files and the lines written to them. */
    var files: map<string, seq<string>>
    /** Existing directories. */
    var directories: set<string>
    /** The owning user and group recorded on a path by a POSIX attribute view. */
    var userOwners: map<string, string>
    var groupOwners: map<string, string>

    constructor(files: map<string, seq<string>>, directories: set<string>)
      ensures this.files == files && this.directories == directories
      ensures userOwners == map[] && groupOwners == map[]
    {
      this.files := files;
      this.directories := directories;
      userOwners := map[];
      groupOwners := map[];
    }

    /** Files.exists */
    predicate Exists(path: string): (e: bool)
      reads this
      ensures e <==> path in files.Keys + directories
    {
      path in files || path in directories
    }

    /** Files.createTempFile(dir, prefix, suffix): a new empty file under a name nobody holds yet. */
    method CreateTempFile(dir: string, prefix: string, suffix: string) returns (path: string)
      requires '/' !in prefix && '/' !in suffix
      modifies this
      ensures IsTempPath(path, dir, prefix, suffix) && !old(Exists(path))
      ensures files == old(files)[path := []]
      ensures directories == old(directories) && userOwners == old(userOwners) && groupOwners == old(groupOwners)
    {
      var base := dir + "/" + prefix;
      FreshNameExists(files.Keys + directories, base, suffix);
      var r :| '/' !in r && base + r + suffix !in files.Keys + directories;
      TempPathShape(dir, prefix, r, suffix);
      path := base + r + suffix;
      files := files[path := []];
    }

    /** Files.createTempDirectory(dir, prefix): a new directory under a name nobody holds yet. */
    method CreateTempDirectory(dir: string, prefix: string) returns (path: string)
      requires '/' !in prefix
      modifies this
      ensures IsTempPath(path, dir, prefix, "") && !old(Exists(path))
      ensures directories == old(directories) + {path}
      ensures files == old(files) && userOwners == old(userOwners) && groupOwners == old(groupOwners)
    {
      var base := dir + "/" + prefix;
      FreshNameExists(files.Keys + directories, base, "");
      var r :| '/' !in r && base + r + "" !in files.Keys + directories;
      TempPathShape(dir, prefix, r, "");
      path := base + r + "";
      directories := directories + {path};
    }

    /** Files.write(path, lines): the file now holds exactly these lines. */
    method Write(path: string, lines: seq<string>)
      requires path !in directories
      modifies this
      ensures files == old(files)[path := lines]
      ensures directories == old(directories) && userOwners == old(userOwners) && groupOwners == old(groupOwners)
    {
      files := files[path := lines];
    }

    /** PosixFileAttributeView.setOwner */
    method SetOwner(path: string, user: string)
      requires Exists(path)
      modifies this
      ensures userOwners == old(userOwners)[path := user]
      ensures files == old(files) && directories == old(directories) && groupOwners == old(groupOwners)
    {
      userOwners := userOwners[path := user];
    }

    /** PosixFileAttributeView.setGroup */
    method SetGroup(path: string, group: string)
      requires Exists(path)
      modifies this
      ensures groupOwners == old(groupOwners)[path := group]
      ensures files == old(files) && directories == old(directories) && userOwners == old(userOwners)
    {
      groupOwners := groupOwners[path := group];
    }

    /** Files.createDirectories(path) */
    method CreateDirectories(path: string) returns (outcome: Outcome<string>)
      modifies this
      ensures match CreatedDirectories(old(files), old(directories), path)
        case Success(d) => outcome == Pass && directories == d
        case Failure(p) => outcome == Fail(p) && directories == old(directories)
      ensures files == old(files) && userOwners == old(userOwners) && groupOwners == old(groupOwners)
    {
      if Chain(path) !! files.Keys {
        directories := directories + Chain(path);
        outcome := Pass;
      } else {
        outcome := Fail(path);
      }
    }
  }
}
