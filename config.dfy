/** The parts of a container's configuration the provider reads. */
module Config {
  /** A mount of a host path into the container, with its mount options. */
  datatype VolumeMount = VolumeMount(localPath: string, containerPath: string, options: string)

  /** The container's run-as-current-user setting. */
  datatype RunAsCurrentUserConfig =
    | RunAsCurrentUser(homeDirectory: string)
    | RunAsDefaultContainerUser

  datatype Container = Container(name: string, runAsCurrentUserConfig: RunAsCurrentUserConfig, volumeMounts: seq<VolumeMount>)

  /** The host paths of the mounts, in iteration order. */
  function LocalPaths(mounts: seq<VolumeMount>): (paths: seq<string>)
    ensures |paths| == |mounts|
    ensures forall i :: 0 <= i < |mounts| ==> paths[i] == mounts[i].localPath
  {
    if mounts == [] then [] else [mounts[0].localPath] + LocalPaths(mounts[1..])
  }
}
