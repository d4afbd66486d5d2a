/** The CSI identity, controller and node handlers of pkg/driver/driver.go,
    the implementation the server registers. It keeps no registry: a volume is
    the directory named by its request name under the base path, and its id is
    that name. Every handler validates its request in a fixed order before it
    touches the filesystem, and answers with a gRPC status on failure. */
module CsiDriver {
  import opened Results
  import Csi
  import Fs
  import Registry

  const DriverName: string := "ephemeral.csi.local"
  const DriverVersion: string := "0.1.0"

  /** 1 * 1024 * 1024 * 1024 bytes, reported when no size is required. */
  const DefaultCapacity: int := 1073741824

  datatype InitError =
    | BasePathRequired // "base path is required"
    | BaseDirFailed    // "failed to create base directory"

  datatype PluginInfo = PluginInfo(name: string, vendorVersion: string)

  datatype NodeInfo = NodeInfo(nodeId: string)

  /** The RPCs the driver answers with Unimplemented, whatever the request. */
  datatype UnsupportedRpc =
    | ControllerPublishVolume
    | ControllerUnpublishVolume
    | CreateSnapshot
    | DeleteSnapshot
    | ListSnapshots
    | ControllerExpandVolume
    | ControllerGetVolume
    | ControllerModifyVolume
    | NodeStageVolume
    | NodeUnstageVolume
    | NodeGetVolumeStats
    | NodeExpandVolume

  function RpcName(rpc: UnsupportedRpc): string
  {
    match rpc
    case ControllerPublishVolume => "ControllerPublishVolume"
    case ControllerUnpublishVolume => "ControllerUnpublishVolume"
    case CreateSnapshot => "CreateSnapshot"
    case DeleteSnapshot => "DeleteSnapshot"
    case ListSnapshots => "ListSnapshots"
    case ControllerExpandVolume => "ControllerExpandVolume"
    case ControllerGetVolume => "ControllerGetVolume"
    case ControllerModifyVolume => "ControllerModifyVolume"
    case NodeStageVolume => "NodeStageVolume"
    case NodeUnstageVolume => "NodeUnstageVolume"
    case NodeGetVolumeStats => "NodeGetVolumeStats"
    case NodeExpandVolume => "NodeExpandVolume"
  }

  /** The capacity CreateVolume reports: the default when zero bytes are
      required, any other amount (a negative one included) as it was given. */
  function Capacity(requiredBytes: int): (size: int)
    ensures size != 0
    ensures requiredBytes != 0 ==> size == requiredBytes
    ensures requiredBytes == 0 ==> size == DefaultCapacity
  {
    if requiredBytes == 0 then DefaultCapacity else requiredBytes
  }

  /** The handler agrees with the registry's parseSize on sizes that are not
      negative and departs from it on negative ones, which it echoes. */
  lemma CapacityVersusParseSize(requiredBytes: int)
    ensures requiredBytes >= 0 ==> Capacity(requiredBytes) == Registry.ParseSize(requiredBytes)
    ensures requiredBytes < 0 ==> Capacity(requiredBytes) == requiredBytes < 0 < Registry.ParseSize(requiredBytes)
  {
  }

  /** The volume CreateVolume reports for a request: its name as the id, the
      capacity, and the request parameters as the volume context. */
  function CreatedVolume(req: Csi.CreateVolumeRequest): (v: Csi.Volume)
    ensures v.volumeId == req.name && v.volumeContext == req.parameters
    ensures v.capacityBytes == Capacity(Csi.GetRequiredBytes(req.capacityRange))
  {
    Csi.Volume(req.name, Capacity(Csi.GetRequiredBytes(req.capacityRange)), req.parameters)
  }

  /** The ids of a list of volumes. */
  function Ids(vs: seq<Csi.Volume>): set<string>
  {
    set i | 0 <= i < |vs| :: vs[i].volumeId
  }

  /** The names of the directory entries of a listing. */
  function DirNames(entries: seq<Fs.DirEntry>): set<string>
  {
    set i | 0 <= i < |entries| && entries[i].isDir :: entries[i].name
  }

  /** A complete listing of `p` names exactly the directories directly under `p`. */
  lemma {:induction false} ListedDirs(entries: seq<Fs.DirEntry>, p: Fs.Path, dirs: set<Fs.Path>, files: set<Fs.Path>)
    requires Fs.Names(entries) == Fs.ChildNames(dirs + files, p)
    requires forall i :: 0 <= i < |entries| ==> (entries[i].isDir <==> Fs.Join(p, entries[i].name) in dirs)
    ensures DirNames(entries) == Fs.ChildNames(dirs, p)
  {
    forall n | n in DirNames(entries)
      ensures n in Fs.ChildNames(dirs, p)
    {
      var i :| 0 <= i < |entries| && entries[i].isDir && entries[i].name == n;
      assert n in Fs.Names(entries);
      var d :| d in dirs + files && Fs.IsChild(d, p) && Fs.ChildName(d, p) == n;
      Fs.ChildIsJoin(d, p);
    }
    forall n | n in Fs.ChildNames(dirs, p)
      ensures n in DirNames(entries)
    {
      var d :| d in dirs && Fs.IsChild(d, p) && Fs.ChildName(d, p) == n;
      Fs.ChildIsJoin(d, p);
      assert n in Fs.ChildNames(dirs + files, p);
      var i :| 0 <= i < |entries| && entries[i].name == n;
    }
  }

  class Driver {
    const name: string := DriverName
    const version: string := DriverVersion
    const nodeID: string
    const basePath: Fs.Path

    constructor (nodeID: string, basePath: Fs.Path)
      ensures this.nodeID == nodeID && this.basePath == basePath
    {
      this.nodeID := nodeID;
      this.basePath := basePath;
    }

    /** GetPluginInfo: the fixed name and version. */
    function GetPluginInfo(): (info: PluginInfo)
      ensures info.name == DriverName && info.vendorVersion == DriverVersion
    {
      PluginInfo(name, version)
    }

    /** NodeGetInfo: the node id the driver was created with. */
    function NodeGetInfo(): (info: NodeInfo)
      ensures info.nodeId == nodeID
    {
      NodeInfo(nodeID)
    }

    /** The handlers of the unsupported RPCs. */
    function Unsupported(rpc: UnsupportedRpc): (status: Csi.Status)
      ensures status.code == Csi.Unimplemented
      ensures status.message == RpcName(rpc) + " is not supported"
    {
      Csi.Status(Csi.Unimplemented, RpcName(rpc) + " is not supported")
    }

    /** CreateVolume: an empty name is refused before anything else; then the
        directory named by the request is created (an existing one is reused). */
    method CreateVolume(req: Csi.CreateVolumeRequest, fs: Fs.Host) returns (r: Result<Csi.Volume, Csi.Status>)
      requires fs.Valid()
      modifies fs
      ensures fs.Valid() && fs.files == old(fs.files) && fs.mounts == old(fs.mounts)
      ensures req.name == "" ==> r == Err(Csi.Status(Csi.InvalidArgument, "volume name is required")) && fs.dirs == old(fs.dirs)
      ensures req.name != "" && Fs.Join(basePath, req.name) in old(fs.dirs) ==> r.Ok?
      ensures r.Ok? ==> r.value == CreatedVolume(req) && fs.dirs == old(fs.dirs) + {Fs.Join(basePath, req.name)}
      ensures r.Err? && req.name != "" ==>
        r.error == Csi.Status(Csi.Internal, "failed to create volume directory") && fs.dirs == old(fs.dirs)
    {
      if req.name == "" {
        return Err(Csi.Status(Csi.InvalidArgument, "volume name is required"));
      }
      var size := Csi.GetRequiredBytes(req.capacityRange);
      if size == 0 {
        size := DefaultCapacity;
      }
      var volumePath := Fs.Join(basePath, req.name);
      var ok := fs.MkdirAll(volumePath);
      if !ok {
        return Err(Csi.Status(Csi.Internal, "failed to create volume directory"));
      }
      r := Ok(Csi.Volume(req.name, size, req.parameters));
    }

    /** DeleteVolume: an empty id is refused; otherwise the volume directory
        tree is removed, which succeeds when there is nothing to remove. */
    method DeleteVolume(req: Csi.DeleteVolumeRequest, fs: Fs.Host) returns (err: Option<Csi.Status>)
      requires fs.Valid()
      modifies fs
      ensures fs.Valid() && fs.mounts == old(fs.mounts)
      ensures req.volumeId == "" ==> err == Some(Csi.Status(Csi.InvalidArgument, "volume ID is required")) && unchanged(fs)
      ensures req.volumeId != "" && old(fs.NothingAt(Fs.Join(basePath, req.volumeId))) ==> err.None?
      ensures err.None? ==>
        && req.volumeId != ""
        && fs.NothingAt(Fs.Join(basePath, req.volumeId))
        && fs.dirs == Fs.Outside(old(fs.dirs), Fs.Join(basePath, req.volumeId))
        && fs.files == Fs.Outside(old(fs.files), Fs.Join(basePath, req.volumeId))
      ensures req.volumeId != "" && old(fs.MountedUnder(Fs.Join(basePath, req.volumeId))) ==> err.Some?
      ensures err.Some? && req.volumeId != "" ==>
        && err == Some(Csi.Status(Csi.Internal, "failed to delete volume directory"))
        && fs.dirs <= old(fs.dirs) && fs.files <= old(fs.files)
        && Fs.OutsideAll(fs.dirs, {Fs.Join(basePath, req.volumeId)} + Fs.Exposed(fs.mounts, Fs.Join(basePath, req.volumeId)))
           == Fs.OutsideAll(old(fs.dirs), {Fs.Join(basePath, req.volumeId)} + Fs.Exposed(fs.mounts, Fs.Join(basePath, req.volumeId)))
        && Fs.OutsideAll(fs.files, {Fs.Join(basePath, req.volumeId)} + Fs.Exposed(fs.mounts, Fs.Join(basePath, req.volumeId)))
           == Fs.OutsideAll(old(fs.files), {Fs.Join(basePath, req.volumeId)} + Fs.Exposed(fs.mounts, Fs.Join(basePath, req.volumeId)))
    {
      if req.volumeId == "" {
        return Some(Csi.Status(Csi.InvalidArgument, "volume ID is required"));
      }
      var volumePath := Fs.Join(basePath, req.volumeId);
      var ok := fs.RemoveAll(volumePath);
      if !ok {
        return Some(Csi.Status(Csi.Internal, "failed to delete volume directory"));
      }
      err := None;
    }

    /** ValidateVolumeCapabilities: an empty id is refused, a volume whose
        directory does not exist is not found, and otherwise the requested
        capabilities are confirmed as they were asked for. */
    method ValidateVolumeCapabilities(req: Csi.ValidateVolumeCapabilitiesRequest, fs: Fs.Host)
      returns (r: Result<seq<Csi.VolumeCapability>, Csi.Status>)
      ensures req.volumeId == "" ==> r == Err(Csi.Status(Csi.InvalidArgument, "volume ID is required"))
      ensures req.volumeId != "" && !fs.Exists(Fs.Join(basePath, req.volumeId)) ==>
        r == Err(Csi.Status(Csi.NotFound, "volume not found"))
      ensures req.volumeId != "" && fs.Exists(Fs.Join(basePath, req.volumeId)) ==> r == Ok(req.volumeCapabilities)
    {
      if req.volumeId == "" {
        return Err(Csi.Status(Csi.InvalidArgument, "volume ID is required"));
      }
      var volumePath := Fs.Join(basePath, req.volumeId);
      if !fs.Exists(volumePath) {
        return Err(Csi.Status(Csi.NotFound, "volume not found"));
      }
      r := Ok(req.volumeCapabilities);
    }

    /** ListVolumes: one volume per directory directly under the base path,
        named as the directory, except those whose entry information could not
        be read (returned in `skipped`); other files are passed over. */
    method ListVolumes(fs: Fs.Host) returns (r: Result<seq<Csi.Volume>, Csi.Status>, ghost skipped: set<string>)
      requires fs.Valid()
      ensures basePath !in fs.dirs ==> r.Err?
      ensures r.Err? ==> r.error == Csi.Status(Csi.Internal, "failed to list volumes")
      ensures r.Ok? ==> Ids(r.value) !! skipped && Ids(r.value) + skipped == Fs.ChildNames(fs.dirs, basePath)
      ensures r.Ok? ==> forall i, j :: 0 <= i < j < |r.value| ==> r.value[i].volumeId != r.value[j].volumeId
      ensures r.Ok? ==> forall i :: 0 <= i < |r.value| ==>
        Fs.Join(basePath, r.value[i].volumeId) in fs.dirs && r.value[i].volumeContext == map[]
    {
      var entries: seq<Csi.Volume> := [];
      skipped := {};
      var ok, files := fs.ReadDir(basePath);
      if !ok {
        return Err(Csi.Status(Csi.Internal, "failed to list volumes")), skipped;
      }
      ListedDirs(files, basePath, fs.dirs, fs.files);
      var i := 0;
      while i < |files|
        invariant 0 <= i <= |files|
        invariant Ids(entries) !! skipped
        invariant Ids(entries) + skipped == DirNames(files[..i])
        invariant forall a, b :: 0 <= a < b < |entries| ==> entries[a].volumeId != entries[b].volumeId
        invariant forall a :: 0 <= a < |entries| ==>
          Fs.Join(basePath, entries[a].volumeId) in fs.dirs && entries[a].volumeContext == map[]
      {
        var file := files[i];
        assert file.name !in DirNames(files[..i]);
        assert DirNames(files[..i + 1]) == DirNames(files[..i]) + (if file.isDir then {file.name} else {}) by {
          assert files[..i + 1] == files[..i] + [file];
        }
        if file.isDir {
          var infoOk, size := fs.Info(Fs.Join(basePath, file.name));
          if !infoOk {
            skipped := skipped + {file.name};
          } else {
            assert Ids(entries + [Csi.Volume(file.name, size, map[])]) == Ids(entries) + {file.name} by {
              var e := entries + [Csi.Volume(file.name, size, map[])];
              assert e[|entries|].volumeId == file.name;
              forall n | n in Ids(entries) ensures n in Ids(e) {
                var a :| 0 <= a < |entries| && entries[a].volumeId == n;
                assert e[a] == entries[a];
              }
            }
            entries := entries + [Csi.Volume(file.name, size, map[])];
          }
        }
        i := i + 1;
      }
      assert files[..i] == files;
      r := Ok(entries);
    }

    /** NodePublishVolume: the id, then the target path, then the existence of
        the volume directory are checked before any change; then the target is
        created and the volume directory bind-mounted onto it. The sub-path of
        the volume context is not used. */
    method NodePublishVolume(req: Csi.NodePublishVolumeRequest, fs: Fs.Host) returns (err: Option<Csi.Status>)
      requires fs.Valid()
      modifies fs
      ensures fs.Valid() && fs.files == old(fs.files)
      ensures req.volumeId == "" ==> err == Some(Csi.Status(Csi.InvalidArgument, "volume ID is required")) && unchanged(fs)
      ensures req.volumeId != "" && req.targetPath == "" ==>
        err == Some(Csi.Status(Csi.InvalidArgument, "target path is required")) && unchanged(fs)
      ensures req.volumeId != "" && req.targetPath != "" && !old(fs.Exists(Fs.Join(basePath, req.volumeId))) ==>
        err == Some(Csi.Status(Csi.NotFound, "volume not found")) && unchanged(fs)
      ensures err.Some? ==> fs.mounts == old(fs.mounts) && old(fs.dirs) <= fs.dirs <= old(fs.dirs) + {req.targetPath}
      ensures err.Some? && req.volumeId != "" && req.targetPath != "" && old(fs.Exists(Fs.Join(basePath, req.volumeId))) ==>
        err == Some(Csi.Status(Csi.Internal, "failed to create target directory"))
        || err == Some(Csi.Status(Csi.Internal, "failed to mount volume"))
      ensures err.None? ==>
        && req.volumeId != "" && req.targetPath != ""
        && fs.dirs == old(fs.dirs) + {req.targetPath}
        && fs.mounts == Fs.Push(old(fs.mounts), req.targetPath, Fs.Join(basePath, req.volumeId))
    {
      if req.volumeId == "" {
        return Some(Csi.Status(Csi.InvalidArgument, "volume ID is required"));
      }
      if req.targetPath == "" {
        return Some(Csi.Status(Csi.InvalidArgument, "target path is required"));
      }
      var volumePath := Fs.Join(basePath, req.volumeId);
      if !fs.Exists(volumePath) {
        return Some(Csi.Status(Csi.NotFound, "volume not found"));
      }
      var ok := fs.MkdirAll(req.targetPath);
      if !ok {
        return Some(Csi.Status(Csi.Internal, "failed to create target directory"));
      }
      ok := fs.BindMount(volumePath, req.targetPath);
      if !ok {
        return Some(Csi.Status(Csi.Internal, "failed to mount volume"));
      }
      err := None;
    }

    /** NodeUnpublishVolume: the id and the target path must be given (the
        volume itself is never looked up); the target is unmounted and then
        removed, and an unmount failure leaves everything in place. */
    method NodeUnpublishVolume(req: Csi.NodeUnpublishVolumeRequest, fs: Fs.Host) returns (err: Option<Csi.Status>)
      requires fs.Valid()
      modifies fs
      ensures fs.Valid()
      ensures req.volumeId == "" ==> err == Some(Csi.Status(Csi.InvalidArgument, "volume ID is required")) && unchanged(fs)
      ensures req.volumeId != "" && req.targetPath == "" ==>
        err == Some(Csi.Status(Csi.InvalidArgument, "target path is required")) && unchanged(fs)
      ensures req.volumeId != "" && req.targetPath != "" && req.targetPath !in old(fs.mounts) ==>
        err == Some(Csi.Status(Csi.Internal, "failed to unmount volume"))
      ensures err == Some(Csi.Status(Csi.Internal, "failed to unmount volume")) ==>
        fs.dirs == old(fs.dirs) && fs.files == old(fs.files) && fs.mounts == old(fs.mounts)
      ensures err == Some(Csi.Status(Csi.Internal, "failed to remove target directory")) ==>
        && req.targetPath in old(fs.mounts)
        && fs.mounts == Fs.Pop(old(fs.mounts), req.targetPath)
        && (req.targetPath in old(fs.dirs) ==> req.targetPath in fs.dirs)
        && Fs.OutsideAll(fs.dirs, {req.targetPath} + Fs.Exposed(fs.mounts, req.targetPath))
           == Fs.OutsideAll(old(fs.dirs), {req.targetPath} + Fs.Exposed(fs.mounts, req.targetPath))
        && Fs.OutsideAll(fs.files, {req.targetPath} + Fs.Exposed(fs.mounts, req.targetPath))
           == Fs.OutsideAll(old(fs.files), {req.targetPath} + Fs.Exposed(fs.mounts, req.targetPath))
      ensures err.Some? && req.volumeId != "" && req.targetPath != "" ==>
        err == Some(Csi.Status(Csi.Internal, "failed to unmount volume"))
        || err == Some(Csi.Status(Csi.Internal, "failed to remove target directory"))
      ensures err.None? ==>
        && req.volumeId != "" && req.targetPath != ""
        && req.targetPath in old(fs.mounts) && |old(fs.mounts)[req.targetPath]| == 1
        && fs.mounts == old(fs.mounts) - {req.targetPath}
        && req.targetPath !in fs.mounts
        && fs.NothingAt(req.targetPath)
        && fs.dirs == Fs.Outside(old(fs.dirs), req.targetPath)
        && fs.files == Fs.Outside(old(fs.files), req.targetPath)
    {
      if req.volumeId == "" {
        return Some(Csi.Status(Csi.InvalidArgument, "volume ID is required"));
      }
      if req.targetPath == "" {
        return Some(Csi.Status(Csi.InvalidArgument, "target path is required"));
      }
      var ok := fs.Unmount(req.targetPath);
      if !ok {
        return Some(Csi.Status(Csi.Internal, "failed to unmount volume"));
      }
      ok := fs.RemoveAll(req.targetPath);
      if !ok {
        return Some(Csi.Status(Csi.Internal, "failed to remove target directory"));
      }
      err := None;
    }
  }

  /** NewDriver: an empty base path is refused; otherwise the base directory is
      created (an existing one is reused) and the driver carries the fixed name
      and version, the node id and the base path. */
  method NewDriver(nodeID: string, basePath: Fs.Path, fs: Fs.Host) returns (r: Result<Driver, InitError>)
    requires fs.Valid()
    modifies fs
    ensures fs.Valid() && fs.files == old(fs.files) && fs.mounts == old(fs.mounts)
    ensures basePath == "" ==> r == Err(BasePathRequired) && fs.dirs == old(fs.dirs)
    ensures basePath != "" && basePath in old(fs.dirs) ==> r.Ok?
    ensures r.Err? && basePath != "" ==> r.error == BaseDirFailed && fs.dirs == old(fs.dirs)
    ensures r.Ok? ==>
      && fresh(r.value)
      && r.value.name == DriverName && r.value.version == DriverVersion
      && r.value.nodeID == nodeID && r.value.basePath == basePath
      && basePath in fs.dirs && fs.dirs == old(fs.dirs) + {basePath}
  {
    if basePath == "" {
      return Err(BasePathRequired);
    }
    var ok := fs.MkdirAll(basePath);
    if !ok {
      return Err(BaseDirFailed);
    }
    var d := new Driver(nodeID, basePath);
    r := Ok(d);
  }

  /** A client retrying CreateVolume after a success gets the same answer, and
      the retry changes nothing on disk. */
  method CreateVolumeRetried(d: Driver, req: Csi.CreateVolumeRequest, fs: Fs.Host)
    returns (first: Result<Csi.Volume, Csi.Status>, second: Result<Csi.Volume, Csi.Status>)
    requires fs.Valid()
    modifies fs
    ensures first.Ok? ==> second == first
    ensures first.Ok? ==> fs.dirs == old(fs.dirs) + {Fs.Join(d.basePath, req.name)}
    ensures fs.files == old(fs.files) && fs.mounts == old(fs.mounts)
  {
    first := d.CreateVolume(req, fs);
    ghost var dirsBetween := fs.dirs;
    second := d.CreateVolume(req, fs);
    assert first.Ok? ==> fs.dirs == dirsBetween;
  }

  /** The whole life of a volume through the driver: created, published at a
      target, unpublished and deleted. When every step succeeds, the target was
      not mounted before and is gone now, the mount table is as before, and
      nothing is left of the volume directory. */
  method VolumeLifecycle(d: Driver, name: string, target: Fs.Path, fs: Fs.Host) returns (ok: bool)
    requires fs.Valid()
    modifies fs
    ensures fs.Valid()
    ensures ok ==>
      && name != "" && target != ""
      && fs.NothingAt(target) && !fs.Exists(target)
      && fs.NothingAt(Fs.Join(d.basePath, name))
      && target !in old(fs.mounts)
      && fs.mounts == old(fs.mounts)
  {
    var created := d.CreateVolume(Csi.CreateVolumeRequest(name, None, map[]), fs);
    if created.Err? {
      return false;
    }
    ghost var mountsBefore := fs.mounts;
    var published := d.NodePublishVolume(Csi.NodePublishVolumeRequest(name, target, map[]), fs);
    if published.Some? {
      return false;
    }
    Fs.PopPush(mountsBefore, target, Fs.Join(d.basePath, name));
    var unpublished := d.NodeUnpublishVolume(Csi.NodeUnpublishVolumeRequest(name, target), fs);
    if unpublished.Some? {
      return false;
    }
    var deleted := d.DeleteVolume(Csi.DeleteVolumeRequest(name), fs);
    ok := deleted.None?;
  }

  /** A volume created through the driver under a plain name is listed
      afterwards, or else counted among the entries whose information could not
      be read. */
  method CreateThenList(d: Driver, req: Csi.CreateVolumeRequest, fs: Fs.Host)
    returns (created: Result<Csi.Volume, Csi.Status>, listed: Result<seq<Csi.Volume>, Csi.Status>, ghost skipped: set<string>)
    requires fs.Valid() && Fs.PlainName(req.name)
    modifies fs
    ensures created.Ok? && listed.Ok? ==> req.name in Ids(listed.value) + skipped
    ensures created.Ok? ==> Fs.Join(d.basePath, req.name) in fs.dirs
  {
    created := d.CreateVolume(req, fs);
    listed, skipped := d.ListVolumes(fs);
    if created.Ok? && listed.Ok? {
      Fs.JoinIsChild(d.basePath, req.name);
    }
  }
}

