# Run-as-current-user configuration, modelled in Dafny

This project models batect's `RunAsCurrentUserConfigurationProvider`. Before a
container is created, the provider works out how that container's process
should run. With the `RunAsDefaultContainerUser` setting it does nothing and
returns no mounts and no user. With the `RunAsCurrentUser` setting it:

- writes a substitute `passwd` file and a substitute `group` file that
  describe the invoking host user and group;
- creates a temporary home directory owned by that user and group;
- posts one event per temporary resource, so that later cleanup can remove it;
- returns three volume mounts (the `passwd` file, the `group` file and the home
  directory) together with the host uid and gid;
- creates every local mount directory of the container that does not exist yet.

Modules, one per concern of the source:

- `Wrappers`: `Option`, `Result` and `Outcome`. A Java exception is modelled as a `Failure`/`Fail` value.
- `IdentityFiles`: the host identity (`SystemInfo`) and the `passwd` and `group` line builders, written as the source writes them. Beside them is their partner: a reader of the two colon-separated formats, and lookups by uid and gid that behave like `getpwuid`/`getgrgid` inside the container.
- `FileSystems`: the part of `java.nio` the provider uses, as the class `FileSystem`. Its state is a map from a file's path to its lines, a set of directories, and the owner and group recorded on a path. Temporary names are chosen non-deterministically: any name of the right shape that nobody holds. `CreateMissing` is the specification function of the directory walk.
- `Config`: `Container`, `VolumeMount` and `RunAsCurrentUserConfig`.
- `Events`: the two temporary-resource events and the append-only `TaskEventSink`.
- `Execution`: the provider class itself, with one method per function of the source.

The host identity (`SystemInfo`) is taken as a constructor value. The random part of a temporary name is a non-deterministic choice (`:|`), backed by a lemma that a free name always exists.

## Model

| member | source | states |
|---|---|---|
| `Execution.RunAsCurrentUserConfigurationProvider.GenerateConfiguration` | app/src/main/kotlin/batect/execution/RunAsCurrentUserConfigurationProvider.kt:39-47 | Default-user variant: returns no mounts and no user/group, posts no event and leaves the file system unchanged. Current-user variant: appends exactly three events for this container (passwd file, group file, home directory) and keeps earlier events. The paths in those events are fresh, distinct temp paths holding the generated lines, and the home directory is owned by the host user and group. Then the mount-directory walk runs. On success the result is the three identity mounts over those same paths plus exactly the host uid/gid, and every mount's local path exists. On failure the failing path is returned. |
| `Execution.RunAsCurrentUserConfigurationProvider.CreateMounts` | app/src/main/kotlin/batect/execution/RunAsCurrentUserConfigurationProvider.kt:49-64 | Posts TemporaryFileCreated(passwd), TemporaryFileCreated(group) and TemporaryDirectoryCreated(home) in that order, appended after the earlier events. The mounts it returns are built from exactly the posted paths. The only new directory is the home directory. |
| `Execution.RunAsCurrentUserConfigurationProvider.CreatePasswdFile` | app/src/main/kotlin/batect/execution/RunAsCurrentUserConfigurationProvider.kt:66-82 | Returns a path that did not exist before, under /tmp, named batect-passwd-…. It now holds the passwd lines for the host user and the configured home. Nothing else changes. |
| `Execution.RunAsCurrentUserConfigurationProvider.CreateGroupFile` | app/src/main/kotlin/batect/execution/RunAsCurrentUserConfigurationProvider.kt:84-100 | Returns a path that did not exist before, under /tmp, named batect-group-…. It now holds the group lines for the host group. Nothing else changes. |
| `Execution.RunAsCurrentUserConfigurationProvider.CreateHomeDirectory` | app/src/main/kotlin/batect/execution/RunAsCurrentUserConfigurationProvider.kt:102-112 | Returns a new directory under /tmp, named batect-home-…, whose owner is the host user name and whose group is the host group name. Nothing else changes. |
| `Execution.RunAsCurrentUserConfigurationProvider.CreateTempFile` | app/src/main/kotlin/batect/execution/RunAsCurrentUserConfigurationProvider.kt:114 | Returns a new empty file /tmp/batect-<name>-<random>, whose path did not exist before. |
| `Execution.RunAsCurrentUserConfigurationProvider.CreateMissingVolumeMountDirectories` | app/src/main/kotlin/batect/execution/RunAsCurrentUserConfigurationProvider.kt:116-124 | Its result and new directory set are those of the walk `CreateMissing`. Files and owners are untouched and no directory disappears. On success every mount's local path exists. On failure the error names a mount path that did not exist and had a regular file in the way. |
| `Execution.RunAsCurrentUserConfigurationProvider.WalkVolumeMounts` | app/src/main/kotlin/batect/execution/RunAsCurrentUserConfigurationProvider.kt:117-123 | The forEach loop. It checks each mount in order, calls createDirectories only for a path that is absent, and stops at the first failure. Its invariant ties it to `CreateMissing`. |
| `Execution.IdentityMounts` | app/src/main/kotlin/batect/execution/RunAsCurrentUserConfigurationProvider.kt:59-63 | Always exactly three mounts, and each one's host path is one of the three temporary paths. |
| `Execution.MountsComeFromEvents` | app/src/main/kotlin/batect/execution/RunAsCurrentUserConfigurationProvider.kt:50-63 | Every mount's host path is the path of a posted event for the same container. The `ro` mounts come from temporary-file events and the delegated mount from the temporary-directory event. |
| `Execution.EventsAreMounted` | app/src/main/kotlin/batect/execution/RunAsCurrentUserConfigurationProvider.kt:50-63 | Every posted path is mounted: the passwd file at /etc/passwd, the group file at /etc/group and the home directory at the configured homeDirectory. |
| `IdentityFiles.PasswdLines` | app/src/main/kotlin/batect/execution/RunAsCurrentUserConfigurationProvider.kt:70-77 | The passwd lines: one line when the host uid is 0 and two otherwise. The first line is always root's entry (`root:x:0:0:root:`…), and the last line names the configured home directory and /bin/sh. |
| `IdentityFiles.GroupLines` | app/src/main/kotlin/batect/execution/RunAsCurrentUserConfigurationProvider.kt:86-95 | The group lines: one line when the host gid is 0 and two otherwise. The first line is always `root:x:0:root`; when the gid is not 0, the second line lists the host user as the group's member. |
| `IdentityFiles.IntToString` | app/src/main/kotlin/batect/execution/RunAsCurrentUserConfigurationProvider.kt:75 | The `${userId}`/`${groupId}` rendering: a non-empty run of decimal digits with an optional leading '-'. `ParseIntToString` reads it back. |
| `FileSystems.CreateMissing` | app/src/main/kotlin/batect/execution/RunAsCurrentUserConfigurationProvider.kt:116-124 | The walk over the mount paths that `WalkVolumeMounts` is proved equal to. It never removes a directory, and a failure names one of the walked paths. |
| `Execution.TemporaryResourceEvents` | app/src/main/kotlin/batect/execution/RunAsCurrentUserConfigurationProvider.kt:50-57 | The posted events: exactly three, all for this container, carrying the passwd, group and home paths in that order; only the third is a directory event. |
| `IdentityFiles.PasswdLinesParse` | app/src/main/kotlin/batect/execution/RunAsCurrentUserConfigurationProvider.kt:70-77 | Read back as a passwd file, the generated lines are one of two things. If uid is 0, a single root entry (uid 0, gid 0) with the configured home and /bin/sh. Otherwise, the root entry with home /root, then the host user with the host uid, the host gid, the configured home and /bin/sh. |
| `IdentityFiles.HostUserResolves` | app/src/main/kotlin/batect/execution/RunAsCurrentUserConfigurationProvider.kt:70-77 | In the generated passwd file, uids are unique. The host uid resolves to an entry with the configured home and /bin/sh; the entry is root when uid is 0 and the host user otherwise. uid 0 always resolves to root. |
| `IdentityFiles.GroupLinesParse` | app/src/main/kotlin/batect/execution/RunAsCurrentUserConfigurationProvider.kt:86-95 | Read back as a group file, the generated lines are one of two things. If gid is 0, the single entry root:x:0:root. Otherwise root, then the host group with the host gid and the host user as its member. |
| `IdentityFiles.HostGroupResolves` | app/src/main/kotlin/batect/execution/RunAsCurrentUserConfigurationProvider.kt:86-95 | In the generated group file, gids are unique. The host gid resolves to root (members root) when it is 0, and otherwise to the host group whose member is the host user. gid 0 always resolves to root. |
| `IdentityFiles.ParseIntToString` | app/src/main/kotlin/batect/execution/RunAsCurrentUserConfigurationProvider.kt:75 | The decimal rendering of a uid or gid in a template reads back as the same integer, so the rendering is injective. |
| `FileSystems.CreateMissingOnlyCreatesNeeded` | app/src/main/kotlin/batect/execution/RunAsCurrentUserConfigurationProvider.kt:116-124 | Directories that existed stay. Every new directory lies on the way to a mount path that did not exist before (the path itself or one of its ancestors). |
| `FileSystems.CreateMissingMakesAllExist` | app/src/main/kotlin/batect/execution/RunAsCurrentUserConfigurationProvider.kt:116-124 | After a walk that does not fail, every mount path exists. |
| `FileSystems.CreateMissingFailure` | app/src/main/kotlin/batect/execution/RunAsCurrentUserConfigurationProvider.kt:120-121 | A failed walk names a mount path that existed neither as a file nor as a directory, and that path or one of its ancestors is a regular file. |
| `FileSystems.CreateMissingWhenAllExist` | app/src/main/kotlin/batect/execution/RunAsCurrentUserConfigurationProvider.kt:120 | When every path already exists, the walk succeeds and creates nothing. |
| `FileSystems.CreateMissingIdempotent` | app/src/main/kotlin/batect/execution/RunAsCurrentUserConfigurationProvider.kt:116-124 | Running the walk again after a successful one succeeds and changes nothing. |
| `FileSystems.CreatedDirectories` | app/src/main/kotlin/batect/execution/RunAsCurrentUserConfigurationProvider.kt:121 | `Files.createDirectories` succeeds exactly when neither the path nor any of its ancestors is a regular file. |
| `FileSystems.FreshNameExists` | app/src/main/kotlin/batect/execution/RunAsCurrentUserConfigurationProvider.kt:114 | However many paths are taken, a name of the form <base><random><suffix> with no '/' in the random part is still free. |
| `FileSystems.FileSystem.CreateTempFile` | app/src/main/kotlin/batect/execution/RunAsCurrentUserConfigurationProvider.kt:114 | The new path is a direct child of the directory with the given prefix and suffix, and did not exist before. It is now an empty file. Nothing else changes. |
| `FileSystems.FileSystem.CreateTempDirectory` | app/src/main/kotlin/batect/execution/RunAsCurrentUserConfigurationProvider.kt:103 | The new path is a direct child of the directory with the given prefix, and did not exist before. It is now a directory. Nothing else changes. |
| `FileSystems.FileSystem.Write` | app/src/main/kotlin/batect/execution/RunAsCurrentUserConfigurationProvider.kt:79 | The file holds exactly the given lines afterwards. Nothing else changes. |
| `FileSystems.FileSystem.SetOwner` | app/src/main/kotlin/batect/execution/RunAsCurrentUserConfigurationProvider.kt:108 | Records the user name as the path's owner. Nothing else changes. |
| `FileSystems.FileSystem.SetGroup` | app/src/main/kotlin/batect/execution/RunAsCurrentUserConfigurationProvider.kt:109 | Records the group name as the path's group. Nothing else changes. |
| `FileSystems.FileSystem.CreateDirectories` | app/src/main/kotlin/batect/execution/RunAsCurrentUserConfigurationProvider.kt:121 | On success, the path and every ancestor are directories. When a regular file is in the way, it fails and changes nothing. |
| `FileSystems.FileSystem.Exists` | app/src/main/kotlin/batect/execution/RunAsCurrentUserConfigurationProvider.kt:120 | `Files.exists`: a path exists exactly when it is taken, as a regular file or as a directory. The walk creates only paths for which it is false, and fresh temporary names are those for which it was false. |
| `Config.LocalPaths` | app/src/main/kotlin/batect/execution/RunAsCurrentUserConfigurationProvider.kt:117-118 | One local path per mount, in the mounts' iteration order. |
| `Events.TaskEventSink.PostEvent` | app/src/main/kotlin/batect/execution/RunAsCurrentUserConfigurationProvider.kt:51 | Appends the event and keeps every earlier one. |

## Left out

- batect's task dependency graph, event log, step engine and orchestration loop are outside this model; it covers only `RunAsCurrentUserConfigurationProvider`.
- Java exceptions other than a regular file standing in the way of `createDirectories` are not modelled. These include a missing or unwritable `/tmp`, a failing `Files.write`, and an unknown user or group name in the principal lookup.
- `FileSystems.FileSystem.Write`: requires that the path is not a directory, instead of modelling the `IOException` that `Files.write` raises. The provider only writes to a file it has just created.
- `FileSystems.FileSystem.SetOwner`: requires an existing path, instead of modelling the exception for a missing one. The provider only calls it on the directory it has just created. The same holds for `FileSystems.FileSystem.SetGroup`.
- `FileSystems.FileSystem.CreateTempFile`: requires a prefix and suffix without '/', where Java throws `IllegalArgumentException`. The provider passes only the fixed names `passwd` and `group`. `FileSystems.FileSystem.CreateTempDirectory` has the same requirement on its prefix, for the same reason; the provider passes only the literal `batect-home-`.
- `FileSystems.FileSystem.CreateDirectories`: the model creates nothing when a regular file is in the way. That is what Java does on a consistent file system, where nothing exists below a regular file. Partial creation after permission errors is not modelled.
- Path handling: paths are plain strings. There is no normalisation of `//` or a trailing `/`, no resolution of relative paths against the working directory, and the root `/` is assumed to exist.
- POSIX ownership is recorded as a user name and a group name on the path, not as a principal.
- File contents are lists of lines. The line separator that `Files.write` appends is not modelled.
- The random part of a temporary name is a non-deterministic choice of any free name with no '/'. Java's naming algorithm is not modelled.
- The container's volume mounts (a Kotlin `Set`) are a sequence in iteration order.
- uid and gid are unbounded integers. The provider does no arithmetic on them, so Kotlin's 32-bit `Int` plays no role.
- The identity-file lemmas assume that the user name, group name and home directory contain no ':'. The provider writes such names unescaped, and the resulting lines would not read back as intended.
