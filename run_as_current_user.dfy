/**
 * RunAsCurrentUserConfigurationProvider: prepares what a container needs to
 * run as the invoking host user (substitute passwd and group files and a
 * home directory, mounted into the container) and creates the container's
 * missing local mount directories.
 */
module Execution {
  import opened Wrappers
  import opened IdentityFiles
  import opened FileSystems
  import opened Config
  import opened Events

  /** The host uid and gid the container process is started as. */
  datatype UserAndGroup = UserAndGroup(userId: int, groupId: int)

  datatype RunAsCurrentUserConfiguration =
    RunAsCurrentUserConfiguration(volumeMounts: set<VolumeMount>, userAndGroup: Option<UserAndGroup>)

  /** The mounts that put the generated files and the home directory in place. Always three, whatever the paths. */
  function IdentityMounts(passwd: string, group: string, home: string, homeDirectory: string): (mounts: set<VolumeMount>)
    ensures |mounts| == 3
    ensures forall m :: m in mounts ==> m.localPath in {passwd, group, home}
  {
    {VolumeMount(passwd, "/etc/passwd", "ro"),
     VolumeMount(group, "/etc/group", "ro"),
     VolumeMount(home, homeDirectory, "delegated")}
  }

  /** The events that announce the three temporary resources, in creation order. */
  function TemporaryResourceEvents(container: Container, passwd: string, group: string, home: string): (events: seq<Event>)
    ensures |events| == 3
    ensures forall i :: 0 <= i < 3 ==> events[i].container == container && (events[i].TemporaryDirectoryCreatedEvent? <==> i == 2)
    ensures events[0].path == passwd && events[1].path == group && events[2].path == home
  {
    [TemporaryFileCreatedEvent(container, passwd),
     TemporaryFileCreatedEvent(container, group),
     TemporaryDirectoryCreatedEvent(container, home)]
  }

  /** Each mount's host path is the path of the posted event for it: a temporary file for the read-only mounts, the temporary directory for the delegated home mount. */
  lemma MountsComeFromEvents(container: Container, passwd: string, group: string, home: string, homeDirectory: string, m: VolumeMount)
    requires m in IdentityMounts(passwd, group, home, homeDirectory)
    ensures var events := TemporaryResourceEvents(container, passwd, group, home);
      exists i :: 0 <= i < |events| && events[i].path == m.localPath && events[i].container == container &&
                  (events[i].TemporaryFileCreatedEvent? <==> m.options == "ro")
  {
    var events := TemporaryResourceEvents(container, passwd, group, home);
    var i := if m.containerPath == "/etc/passwd" && m.options == "ro" then 0
             else if m.options == "ro" then 1 else 2;
    assert events[i].path == m.localPath;
  }

  /** Each posted event's path is mounted, at /etc/passwd, /etc/group or the configured home directory. */
  lemma EventsAreMounted(container: Container, passwd: string, group: string, home: string, homeDirectory: string, i: nat)
    requires i < 3
    ensures var e := TemporaryResourceEvents(container, passwd, group, home)[i];
      var target := if i == 0 then "/etc/passwd" else if i == 1 then "/etc/group" else homeDirectory;
      exists m :: m in IdentityMounts(passwd, group, home, homeDirectory) && m.localPath == e.path && m.containerPath == target
  {
    var m := if i == 0 then VolumeMount(passwd, "/etc/passwd", "ro")
             else if i == 1 then VolumeMount(group, "/etc/group", "ro")
             else VolumeMount(home, homeDirectory, "delegated");
    assert m in IdentityMounts(passwd, group, home, homeDirectory);
  }

  /**
   * What createMounts leaves in the file system: three new, pairwise distinct
   * resources under the temporary directory, the passwd and group files with
   * the generated lines, and the home directory owned by the host user and
   * group.
   */
  twostate predicate TemporaryResourcesCreated(fs: FileSystem, info: SystemInfo, homeDirectory: string,
                                               passwd: string, group: string, home: string)
    reads fs
  {
    IsTempPath(passwd, "/tmp", "batect-passwd-", "") &&
    IsTempPath(group, "/tmp", "batect-group-", "") &&
    IsTempPath(home, "/tmp", "batect-home-", "") &&
    !old(fs.Exists(passwd)) && !old(fs.Exists(group)) && !old(fs.Exists(home)) &&
    passwd != group && group != home && passwd != home &&
    fs.files == old(fs.files)[passwd := PasswdLines(info, homeDirectory)][group := GroupLines(info)] &&
    fs.userOwners == old(fs.userOwners)[home := info.userName] &&
    fs.groupOwners == old(fs.groupOwners)[home := info.groupName]
  }

  class RunAsCurrentUserConfigurationProvider {
    const systemInfo: SystemInfo
    const fileSystem: FileSystem
    const temporaryDirectory: string := "/tmp"

    constructor(systemInfo: SystemInfo, fileSystem: FileSystem)
      ensures this.systemInfo == systemInfo && this.fileSystem == fileSystem
    {
      this.systemInfo := systemInfo;
      this.fileSystem := fileSystem;
    }

    /**
     * The configuration for one container. For the default container user
     * nothing is created or posted; otherwise the three temporary resources
     * are created and announced, the missing mount directories are created,
     * and the three identity mounts come back with the host uid and gid. A
     * failure to create a mount directory propagates as Failure, after the
     * temporary resources were created and announced.
     */
    method GenerateConfiguration(container: Container, eventSink: TaskEventSink)
      returns (r: Result<RunAsCurrentUserConfiguration, string>)
      modifies fileSystem, eventSink
      ensures container.runAsCurrentUserConfig.RunAsDefaultContainerUser? ==>
        r == Success(RunAsCurrentUserConfiguration({}, None)) &&
        eventSink.events == old(eventSink.events) && unchanged(fileSystem)
      ensures container.runAsCurrentUserConfig.RunAsCurrentUser? ==>
        var homeDirectory := container.runAsCurrentUserConfig.homeDirectory;
        var n := |old(eventSink.events)|;
        |eventSink.events| == n + 3 && eventSink.events[..n] == old(eventSink.events) &&
        var passwd, group, home := eventSink.events[n].path, eventSink.events[n + 1].path, eventSink.events[n + 2].path;
        eventSink.events[n..] == TemporaryResourceEvents(container, passwd, group, home) &&
        TemporaryResourcesCreated(fileSystem, systemInfo, homeDirectory, passwd, group, home) &&
        var walk := CreateMissing(fileSystem.files, old(fileSystem.directories) + {home}, LocalPaths(container.volumeMounts));
        fileSystem.directories == walk.directories &&
        (r.Success? ==> forall i :: 0 <= i < |container.volumeMounts| ==> fileSystem.Exists(container.volumeMounts[i].localPath)) &&
        match walk.outcome
        case Pass =>
          r == Success(RunAsCurrentUserConfiguration(IdentityMounts(passwd, group, home, homeDirectory),
                                                     Some(UserAndGroup(systemInfo.userId, systemInfo.groupId))))
        case Fail(p) => r == Failure(p)
    {
      match container.runAsCurrentUserConfig
      case RunAsCurrentUser(homeDirectory) =>
        var volumeMounts := CreateMounts(container, homeDirectory, eventSink);
        var outcome := CreateMissingVolumeMountDirectories(container);
        match outcome {
          case Pass =>
            r := Success(RunAsCurrentUserConfiguration(volumeMounts, Some(UserAndGroup(systemInfo.userId, systemInfo.groupId))));
          case Fail(p) =>
            r := Failure(p);
        }
      case RunAsDefaultContainerUser =>
        r := Success(RunAsCurrentUserConfiguration({}, None));
    }

    /** Creates and announces the passwd file, the group file and the home directory, in that order. */
    method CreateMounts(container: Container, homeDirectory: string, eventSink: TaskEventSink)
      returns (mounts: set<VolumeMount>)
      modifies fileSystem, eventSink
      ensures var n := |old(eventSink.events)|;
        |eventSink.events| == n + 3 && eventSink.events[..n] == old(eventSink.events) &&
        var passwd, group, home := eventSink.events[n].path, eventSink.events[n + 1].path, eventSink.events[n + 2].path;
        eventSink.events[n..] == TemporaryResourceEvents(container, passwd, group, home) &&
        TemporaryResourcesCreated(fileSystem, systemInfo, homeDirectory, passwd, group, home) &&
        fileSystem.directories == old(fileSystem.directories) + {home} &&
        mounts == IdentityMounts(passwd, group, home, homeDirectory)
    {
      var passwdFile := CreatePasswdFile(homeDirectory);
      eventSink.PostEvent(TemporaryFileCreatedEvent(container, passwdFile));

      var groupFile := CreateGroupFile();
      eventSink.PostEvent(TemporaryFileCreatedEvent(container, groupFile));

      var homePath := CreateHomeDirectory();
      eventSink.PostEvent(TemporaryDirectoryCreatedEvent(container, homePath));

      mounts := IdentityMounts(passwdFile, groupFile, homePath, homeDirectory);
      assert eventSink.events[|old(eventSink.events)|..] == TemporaryResourceEvents(container, passwdFile, groupFile, homePath);
    }

    /** A new temporary file holding the passwd lines for the host user. */
    method CreatePasswdFile(homeDirectory: string) returns (path: string)
      modifies fileSystem
      ensures IsTempPath(path, "/tmp", "batect-passwd-", "") && !old(fileSystem.Exists(path))
      ensures fileSystem.files == old(fileSystem.files)[path := PasswdLines(systemInfo, homeDirectory)]
      ensures fileSystem.directories == old(fileSystem.directories)
      ensures fileSystem.userOwners == old(fileSystem.userOwners) && fileSystem.groupOwners == old(fileSystem.groupOwners)
    {
      path := CreateTempFile("passwd");
      var lines := PasswdLines(systemInfo, homeDirectory);
      fileSystem.Write(path, lines);
    }

    /** A new temporary file holding the group lines for the host group. */
    method CreateGroupFile() returns (path: string)
      modifies fileSystem
      ensures IsTempPath(path, "/tmp", "batect-group-", "") && !old(fileSystem.Exists(path))
      ensures fileSystem.files == old(fileSystem.files)[path := GroupLines(systemInfo)]
      ensures fileSystem.directories == old(fileSystem.directories)
      ensures fileSystem.userOwners == old(fileSystem.userOwners) && fileSystem.groupOwners == old(fileSystem.groupOwners)
    {
      path := CreateTempFile("group");
      var lines := GroupLines(systemInfo);
      fileSystem.Write(path, lines);
    }

    /** A new temporary directory owned by the host user and the host group. */
    method CreateHomeDirectory() returns (path: string)
      modifies fileSystem
      ensures IsTempPath(path, "/tmp", "batect-home-", "") && !old(fileSystem.Exists(path))
      ensures fileSystem.directories == old(fileSystem.directories) + {path}
      ensures fileSystem.files == old(fileSystem.files)
      ensures fileSystem.userOwners == old(fileSystem.userOwners)[path := systemInfo.userName]
      ensures fileSystem.groupOwners == old(fileSystem.groupOwners)[path := systemInfo.groupName]
    {
      path := fileSystem.CreateTempDirectory(temporaryDirectory, "batect-home-");
      fileSystem.SetOwner(path, systemInfo.userName);
      fileSystem.SetGroup(path, systemInfo.groupName);
    }

    /** A new empty temporary file named batect-<name>-<random>. */
    method CreateTempFile(name: string) returns (path: string)
      requires '/' !in name
      modifies fileSystem
      ensures IsTempPath(path, "/tmp", "batect-" + name + "-", "") && !old(fileSystem.Exists(path))
      ensures fileSystem.files == old(fileSystem.files)[path := []]
      ensures fileSystem.directories == old(fileSystem.directories)
      ensures fileSystem.userOwners == old(fileSystem.userOwners) && fileSystem.groupOwners == old(fileSystem.groupOwners)
    {
      path := fileSystem.CreateTempFile(temporaryDirectory, "batect-" + name + "-", "");
    }

    /** Creates, in order, every local mount path that does not exist yet; stops at the first failure. */
    method CreateMissingVolumeMountDirectories(container: Container) returns (outcome: Outcome<string>)
      modifies fileSystem
      ensures CreateMissing(old(fileSystem.files), old(fileSystem.directories), LocalPaths(container.volumeMounts))
           == Walk(fileSystem.directories, outcome)
      ensures fileSystem.files == old(fileSystem.files)
      ensures fileSystem.userOwners == old(fileSystem.userOwners) && fileSystem.groupOwners == old(fileSystem.groupOwners)
      ensures old(fileSystem.directories) <= fileSystem.directories
      ensures outcome.Pass? ==> forall i :: 0 <= i < |container.volumeMounts| ==> fileSystem.Exists(container.volumeMounts[i].localPath)
      ensures outcome.Fail? ==> exists i :: 0 <= i < |container.volumeMounts| && container.volumeMounts[i].localPath == outcome.error
      ensures outcome.Fail? ==> !old(fileSystem.Exists(outcome.error)) && !(Chain(outcome.error) !! fileSystem.files.Keys)
    {
      ghost var files, dirs := fileSystem.files, fileSystem.directories;
      ghost var paths := LocalPaths(container.volumeMounts);
      outcome := WalkVolumeMounts(container);
      CreateMissingOnlyCreatesNeeded(files, dirs, paths);
      if outcome.Pass? {
        CreateMissingMakesAllExist(files, dirs, paths);
      } else {
        CreateMissingFailure(files, dirs, paths);
      }
    }

    /** The forEach over the container's volume mounts. */
    method WalkVolumeMounts(container: Container) returns (outcome: Outcome<string>)
      modifies fileSystem
      ensures CreateMissing(old(fileSystem.files), old(fileSystem.directories), LocalPaths(container.volumeMounts))
           == Walk(fileSystem.directories, outcome)
      ensures fileSystem.files == old(fileSystem.files)
      ensures fileSystem.userOwners == old(fileSystem.userOwners) && fileSystem.groupOwners == old(fileSystem.groupOwners)
    {
      var mounts := container.volumeMounts;
      ghost var paths := LocalPaths(mounts);
      outcome := Pass;
      var i := 0;
      while i < |mounts|
        invariant 0 <= i <= |mounts|
        invariant fileSystem.files == old(fileSystem.files)
        invariant fileSystem.userOwners == old(fileSystem.userOwners) && fileSystem.groupOwners == old(fileSystem.groupOwners)
        invariant outcome == Pass
        invariant CreateMissing(fileSystem.files, fileSystem.directories, paths[i..])
               == CreateMissing(old(fileSystem.files), old(fileSystem.directories), paths)
      {
        var path := mounts[i].localPath;
        assert paths[i..][1..] == paths[i + 1..];
        if !fileSystem.Exists(path) {
          var created := fileSystem.CreateDirectories(path);
          if created.Fail? {
            outcome := created;
            return;
          }
        }
        i := i + 1;
      }
    }
  }
}
