/** The node side of pkg/volume/node.go: publishing a registered volume by
    bind-mounting it onto a target path, unpublishing it, and reporting its
    usage from the filesystem statistics. The mount point is recorded on the
    Volume object that the registry itself holds, so the registry entry changes. */
module Mounter {
  import opened Results
  import Csi
  import Fs
  import Registry

  datatype MountError =
    | LookupFailed(cause: Registry.ManagerError) // "failed to get volume"
    | TargetDirFailed                            // "failed to create target directory"
    | SubPathDirFailed                           // "failed to create subpath directory"
    | SubPathMountFailed                         // "failed to bind mount subpath"
    | MountFailed                                // "failed to bind mount volume"
    | UnmountFailed                              // "failed to unmount volume"
    | RemoveTargetFailed                         // "failed to remove target directory"
    | StatsFailed                                // "failed to get volume stats"

  /** The directory NodePublishVolume binds onto the target: the `subPath`
      entry of the volume context inside the volume when it is not empty, the
      volume directory otherwise. */
  function PublishSource(volumePath: Fs.Path, volumeContext: map<string, string>): Fs.Path
  {
    var subPath := Lookup(volumeContext, "subPath");
    if subPath != "" then Fs.Join(volumePath, subPath) else volumePath
  }

  /** The directories NodePublishVolume creates: the target, and the source when it is a sub-path. */
  function PublishDirs(targetPath: Fs.Path, volumePath: Fs.Path, volumeContext: map<string, string>): set<Fs.Path>
  {
    if Lookup(volumeContext, "subPath") != "" then {targetPath, PublishSource(volumePath, volumeContext)}
    else {targetPath}
  }

  /** Without a sub-path the source is the volume directory itself; a sub-path
      that is a plain name selects the entry of that name inside it. */
  lemma PublishSourceIsSubPath(volumePath: Fs.Path, volumeContext: map<string, string>)
    ensures Lookup(volumeContext, "subPath") == "" ==> PublishSource(volumePath, volumeContext) == volumePath
    ensures Fs.PlainName(Lookup(volumeContext, "subPath")) ==>
      && PublishSource(volumePath, volumeContext) != volumePath
      && Fs.IsChild(PublishSource(volumePath, volumeContext), volumePath)
      && Fs.ChildName(PublishSource(volumePath, volumeContext), volumePath) == Lookup(volumeContext, "subPath")
  {
    var subPath := Lookup(volumeContext, "subPath");
    if Fs.PlainName(subPath) {
      Fs.JoinIsChild(volumePath, subPath);
    }
  }

  const TwoTo63: int := 0x8000_0000_0000_0000
  const TwoTo64: int := 0x1_0000_0000_0000_0000

  type U64 = x: int | 0 <= x < 0x1_0000_0000_0000_0000
  type I64 = x: int | -0x8000_0000_0000_0000 <= x < 0x8000_0000_0000_0000

  /** Go's uint64(x), and the wrap-around of uint64 arithmetic. */
  function ToU64(x: int): U64
  {
    x % TwoTo64
  }

  /** Go's int64(x), and the wrap-around of int64 arithmetic. */
  function ToI64(x: int): I64
  {
    var w := x % TwoTo64;
    if w < TwoTo63 then w else w - TwoTo64
  }

  lemma ToI64Shift(x: int, k: int)
    ensures ToI64(x + k * TwoTo64) == ToI64(x)
  {
    assert (x + k * TwoTo64) % TwoTo64 == x % TwoTo64;
  }

  /** How many times 2^64 the int64 wrap-around adds to `x`. */
  function WrapCount(x: int): int
  {
    if x % TwoTo64 < TwoTo63 then -(x / TwoTo64) else -(x / TwoTo64) - 1
  }

  lemma ToI64Offset(x: int)
    ensures ToI64(x) == x + WrapCount(x) * TwoTo64
  {
  }

  /** The fields of syscall.Statfs_t the statistics use. */
  datatype Statfs = Statfs(blocks: U64, bavail: U64, bsize: I64)

  /** One csi.VolumeUsage in BYTES. */
  datatype VolumeUsage = VolumeUsage(available: I64, total: I64, used: I64)

  /** int64(a * uint64(bsize)): a block count times the block size, in Go's
      uint64 arithmetic, converted to int64. */
  function BlockBytes(count: U64, bsize: I64): I64
  {
    ToI64(ToU64(count * ToU64(bsize)))
  }

  /** The usage reported for a total and an available byte count: used is
      their int64 difference, and used and available add up to the total in the
      same 64-bit arithmetic. */
  function UsageOf(total: I64, available: I64): (u: VolumeUsage)
    ensures u.total == total && u.available == available
    ensures ToI64(u.used + u.available) == u.total
  {
    var used := ToI64(total as int - available);
    ToI64Offset(total as int - available);
    ToI64Shift(total, WrapCount(total as int - available));
    VolumeUsage(available, total, used)
  }

  /** The byte counts NodeGetVolumeStats reports. */
  function BytesUsage(s: Statfs): VolumeUsage
  {
    UsageOf(BlockBytes(s.blocks, s.bsize), BlockBytes(s.bavail, s.bsize))
  }

  /** Without overflow, the int64 conversions keep the exact product. */
  lemma BlockBytesExact(count: U64, bsize: I64)
    requires 0 <= bsize && count * bsize < TwoTo63
    ensures BlockBytes(count, bsize) == count * bsize
  {
    var p := count * bsize;
    assert ToU64(bsize) == bsize;
    assert 0 <= p;
    assert ToU64(p) == p;
  }

  /** When the products fit in an int64, the counts are the exact byte counts
      and used = total - available, which is not negative when no more blocks
      are available than exist. */
  lemma {:induction false} BytesUsageExact(s: Statfs)
    requires 0 <= s.bsize && s.bavail <= s.blocks && s.blocks * s.bsize < TwoTo63
    ensures BytesUsage(s).total == s.blocks * s.bsize
    ensures BytesUsage(s).available == s.bavail * s.bsize
    ensures BytesUsage(s).used == BytesUsage(s).total - BytesUsage(s).available
    ensures BytesUsage(s).used >= 0
  {
    MulMonotone(s.bavail, s.blocks, s.bsize);
    BlockBytesExact(s.blocks, s.bsize);
    BlockBytesExact(s.bavail, s.bsize);
    UsageOfExact(BlockBytes(s.blocks, s.bsize), BlockBytes(s.bavail, s.bsize));
  }

  /** Without overflow, used is the exact difference of total and available. */
  lemma UsageOfExact(total: I64, available: I64)
    requires 0 <= available <= total
    ensures UsageOf(total, available).used == total - available
  {
  }

  lemma MulMonotone(a: nat, b: nat, c: nat)
    requires a <= b
    ensures a * c <= b * c
  {
  }

  class NodeMounter {
    const volumeManager: Registry.VolumeManager

    constructor (volumeManager: Registry.VolumeManager)
      ensures this.volumeManager == volumeManager
    {
      this.volumeManager := volumeManager;
    }

    /** NodePublishVolume: look the volume up, create the target directory,
        create the sub-path directory if one is asked for, bind-mount, and only
        then record the target as the mount point of the registry's Volume. */
    method NodePublishVolume(req: Csi.NodePublishVolumeRequest, fs: Fs.Host) returns (err: Option<MountError>)
      requires volumeManager.Valid() && fs.Valid()
      modifies fs, volumeManager.volumes.Values
      ensures volumeManager.Valid() && fs.Valid()
      ensures fs.files == old(fs.files)
      ensures req.volumeId !in volumeManager.volumes ==>
        err == Some(LookupFailed(Registry.NotFound(req.volumeId))) && unchanged(fs)
      ensures err.Some? ==>
        && volumeManager.Snapshot() == old(volumeManager.Snapshot())
        && fs.mounts == old(fs.mounts)
        && old(fs.dirs) <= fs.dirs
        && (req.volumeId in volumeManager.volumes ==>
              fs.dirs <= old(fs.dirs) + PublishDirs(req.targetPath, Fs.Join(volumeManager.baseDir, req.volumeId), req.volumeContext))
      ensures err == Some(TargetDirFailed) ==> fs.dirs == old(fs.dirs)
      ensures err.None? ==>
        && req.volumeId in volumeManager.volumes
        && fs.dirs == old(fs.dirs) + PublishDirs(req.targetPath, Fs.Join(volumeManager.baseDir, req.volumeId), req.volumeContext)
        && fs.mounts == Fs.Push(old(fs.mounts), req.targetPath, PublishSource(Fs.Join(volumeManager.baseDir, req.volumeId), req.volumeContext))
        && volumeManager.Snapshot() ==
             old(volumeManager.Snapshot())[req.volumeId := old(volumeManager.Snapshot())[req.volumeId].(mountPoint := req.targetPath)]
    {
      var volumeId := req.volumeId;
      var targetPath := req.targetPath;
      var found := volumeManager.GetVolume(volumeId);
      if found.Err? {
        return Some(LookupFailed(found.error));
      }
      var volume := found.value;
      var ok := fs.MkdirAll(targetPath);
      if !ok {
        volumeManager.SnapshotKept();
        return Some(TargetDirFailed);
      }
      var subPath := Lookup(req.volumeContext, "subPath");
      if subPath != "" {
        var volumePath := Fs.Join(volume.path, subPath);
        ok := fs.MkdirAll(volumePath);
        if !ok {
          volumeManager.SnapshotKept();
          return Some(SubPathDirFailed);
        }
        ok := fs.BindMount(volumePath, targetPath);
        if !ok {
          volumeManager.SnapshotKept();
          return Some(SubPathMountFailed);
        }
      } else {
        ok := fs.BindMount(volume.path, targetPath);
        if !ok {
          volumeManager.SnapshotKept();
          return Some(MountFailed);
        }
      }
      volume.mountPoint := targetPath;
      volumeManager.FiledSnapshot(volumeId);
      err := None;
    }

    /** NodeUnpublishVolume: look the volume up, unmount the target, remove the
        target directory, and only then clear the mount point of the registry's
        Volume, whatever target it named. */
    method NodeUnpublishVolume(req: Csi.NodeUnpublishVolumeRequest, fs: Fs.Host) returns (err: Option<MountError>)
      requires volumeManager.Valid() && fs.Valid()
      modifies fs, volumeManager.volumes.Values
      ensures volumeManager.Valid() && fs.Valid()
      ensures req.volumeId !in volumeManager.volumes ==>
        err == Some(LookupFailed(Registry.NotFound(req.volumeId))) && unchanged(fs)
      ensures req.targetPath !in old(fs.mounts) ==> err.Some?
      ensures err.Some? ==> volumeManager.Snapshot() == old(volumeManager.Snapshot())
      ensures err.Some? ==> err.value.LookupFailed? || err == Some(UnmountFailed) || err == Some(RemoveTargetFailed)
      ensures err == Some(UnmountFailed) ==> fs.dirs == old(fs.dirs) && fs.files == old(fs.files) && fs.mounts == old(fs.mounts)
      ensures err == Some(RemoveTargetFailed) ==>
        && req.targetPath in old(fs.mounts)
        && fs.mounts == Fs.Pop(old(fs.mounts), req.targetPath)
        && (req.targetPath in old(fs.dirs) ==> req.targetPath in fs.dirs)
        && Fs.OutsideAll(fs.dirs, {req.targetPath} + Fs.Exposed(fs.mounts, req.targetPath))
           == Fs.OutsideAll(old(fs.dirs), {req.targetPath} + Fs.Exposed(fs.mounts, req.targetPath))
        && Fs.OutsideAll(fs.files, {req.targetPath} + Fs.Exposed(fs.mounts, req.targetPath))
           == Fs.OutsideAll(old(fs.files), {req.targetPath} + Fs.Exposed(fs.mounts, req.targetPath))
      ensures err.None? ==>
        && req.volumeId in volumeManager.volumes
        && req.targetPath in old(fs.mounts) && |old(fs.mounts)[req.targetPath]| == 1
        && fs.mounts == old(fs.mounts) - {req.targetPath}
        && req.targetPath !in fs.mounts
        && fs.NothingAt(req.targetPath)
        && fs.dirs == Fs.Outside(old(fs.dirs), req.targetPath)
        && fs.files == Fs.Outside(old(fs.files), req.targetPath)
        && volumeManager.Snapshot() ==
             old(volumeManager.Snapshot())[req.volumeId := old(volumeManager.Snapshot())[req.volumeId].(mountPoint := "")]
    {
      var volumeId := req.volumeId;
      var targetPath := req.targetPath;
      var found := volumeManager.GetVolume(volumeId);
      if found.Err? {
        return Some(LookupFailed(found.error));
      }
      var volume := found.value;
      var ok := fs.Unmount(targetPath);
      if !ok {
        volumeManager.SnapshotKept();
        return Some(UnmountFailed);
      }
      ok := fs.RemoveAll(targetPath);
      if !ok {
        volumeManager.SnapshotKept();
        return Some(RemoveTargetFailed);
      }
      volume.mountPoint := "";
      volumeManager.FiledSnapshot(volumeId);
      err := None;
    }

    /** NodeGetVolumeStats, with the result of syscall.Statfs on the volume
        directory given as `statfs` (None when the call fails). */
    method NodeGetVolumeStats(volumeId: string, statfs: Option<Statfs>) returns (r: Result<VolumeUsage, MountError>)
      ensures volumeId !in volumeManager.volumes ==> r == Err(LookupFailed(Registry.NotFound(volumeId)))
      ensures volumeId in volumeManager.volumes && statfs.None? ==> r == Err(StatsFailed)
      ensures volumeId in volumeManager.volumes && statfs.Some? ==>
        && r.Ok? && r.value == BytesUsage(statfs.value)
        && ToI64(r.value.used + r.value.available) == r.value.total
    {
      var found := volumeManager.GetVolume(volumeId);
      if found.Err? {
        return Err(LookupFailed(found.error));
      }
      if statfs.None? {
        return Err(StatsFailed);
      }
      var s := statfs.value;
      var availableBytes := BlockBytes(s.bavail, s.bsize);
      var totalBytes := BlockBytes(s.blocks, s.bsize);
      var usedBytes := ToI64(totalBytes as int - availableBytes);
      r := Ok(VolumeUsage(availableBytes, totalBytes, usedBytes));
    }
  }

  /** Publishing a volume at a target and then unpublishing it: when both
      succeed the mount table is as before, the target was not mounted before
      and is gone, and the registry is as before except that the volume's mount
      point is now empty, whatever it held. Publishing over a target that is
      already mounted stacks a second mount, so the unpublish that follows
      cannot remove the target. */
  method PublishThenUnpublish(n: NodeMounter, volumeId: string, target: Fs.Path, fs: Fs.Host)
    returns (published: Option<MountError>, unpublished: Option<MountError>)
    requires n.volumeManager.Valid() && fs.Valid()
    modifies fs, n.volumeManager.volumes.Values
    ensures n.volumeManager.Valid() && fs.Valid()
    ensures published.None? && target in old(fs.mounts) ==> unpublished.Some?
    ensures published.None? && unpublished.None? ==>
      && fs.mounts == old(fs.mounts)
      && target !in fs.mounts
      && fs.NothingAt(target)
      && volumeId in n.volumeManager.volumes
      && n.volumeManager.Snapshot() ==
           old(n.volumeManager.Snapshot())[volumeId := old(n.volumeManager.Snapshot())[volumeId].(mountPoint := "")]
  {
    Fs.PopPush(fs.mounts, target, PublishSource(Fs.Join(n.volumeManager.baseDir, volumeId), map[]));
    ghost var before := n.volumeManager.Snapshot();
    published := n.NodePublishVolume(Csi.NodePublishVolumeRequest(volumeId, target, map[]), fs);
    ghost var between := n.volumeManager.Snapshot();
    unpublished := n.NodeUnpublishVolume(Csi.NodeUnpublishVolumeRequest(volumeId, target), fs);
    if published.None? && unpublished.None? {
      MountPointReset(before, between, n.volumeManager.Snapshot(), volumeId, target);
    }
  }

  /** Filing a mount point and then clearing it leaves the registry as if the
      mount point had been cleared straight away. */
  lemma MountPointReset(before: map<string, Registry.VolumeRec>, between: map<string, Registry.VolumeRec>,
                        after: map<string, Registry.VolumeRec>, id: string, target: Fs.Path)
    requires id in before
    requires between == before[id := before[id].(mountPoint := target)]
    requires after == between[id := between[id].(mountPoint := "")]
    ensures after == before[id := before[id].(mountPoint := "")]
  {
  }
}

