/** The volume registry of pkg/volume/manager.go: a table from volume id to a
    shared, mutable Volume object, kept consistent with the directory that backs
    each volume under the base directory. The read/write lock of the Go type is
    not modelled; every operation runs to completion before the next starts. */
module Registry {
  import opened Results
  import Csi
  import Fs

  /** 1 << 30 bytes, the size of a volume created without a positive size. */
  const DefaultSize: int := 1073741824

  const IdPrefix: string := "vol-"

  /** generateVolumeID: the id of the volume created for a request name. */
  function GenerateVolumeId(name: string): (id: string)
    ensures |id| == |IdPrefix| + |name| && id[..|IdPrefix|] == IdPrefix && id[|IdPrefix|..] == name
  {
    IdPrefix + name
  }

  /** Different names never share an id, because the prefix is fixed. */
  lemma GenerateVolumeIdInjective(a: string, b: string)
    requires GenerateVolumeId(a) == GenerateVolumeId(b)
    ensures a == b
  {
  }

  /** parseSize: a requested size is kept when positive and replaced by the default otherwise. */
  function ParseSize(size: int): (r: int)
    ensures r > 0
    ensures size > 0 ==> r == size
    ensures size <= 0 ==> r == DefaultSize
  {
    if size <= 0 then DefaultSize else size
  }

  /** The value of every field of a Volume at one moment. */
  datatype VolumeRec = VolumeRec(
    id: string,
    path: Fs.Path,
    size: int,
    podId: string,
    retention: string,
    mountPoint: Fs.Path,
    subPath: Fs.Path,
    usage: int,
    lastAccess: int)

  class Volume {
    var id: string
    var path: Fs.Path
    var size: int
    var podId: string
    var retention: string
    var mountPoint: Fs.Path
    var subPath: Fs.Path
    var usage: int
    var lastAccess: int

    /** A composite literal that sets the first five fields; the rest keep Go's zero values. */
    constructor (id: string, path: Fs.Path, size: int, podId: string, retention: string)
      ensures Record() == VolumeRec(id, path, size, podId, retention, "", "", 0, 0)
    {
      this.id, this.path, this.size, this.podId, this.retention := id, path, size, podId, retention;
      mountPoint, subPath, usage, lastAccess := "", "", 0, 0;
    }

    function Record(): VolumeRec
      reads this
    {
      VolumeRec(id, path, size, podId, retention, mountPoint, subPath, usage, lastAccess)
    }
  }

  /** What CreateVolume records for a request: the derived id, its directory
      under the base directory, the parsed size and two of the parameters. */
  function NewRecord(baseDir: Fs.Path, req: Csi.CreateVolumeRequest): VolumeRec
  {
    var id := GenerateVolumeId(req.name);
    VolumeRec(id, Fs.Join(baseDir, id), ParseSize(Csi.GetRequiredBytes(req.capacityRange)),
              Lookup(req.parameters, "podID"), Lookup(req.parameters, "retentionPolicy"),
              "", "", 0, 0)
  }

  datatype ManagerError =
    | BaseDirFailed        // "failed to create base directory"
    | VolumeDirFailed      // "failed to create volume directory"
    | NotFound(id: string) // "volume <id> not found"
    | DeleteDirFailed      // "failed to delete volume directory"

  class VolumeManager {
    const baseDir: Fs.Path
    var volumes: map<string, Volume>

    /** Every entry is filed under its own id and lives in the directory named
        by it; so no Volume object is filed twice. */
    ghost predicate Valid()
      reads this, volumes.Values
    {
      forall id | id in volumes :: volumes[id].id == id && volumes[id].path == Fs.Join(baseDir, id)
    }

    /** The registry as a value: each id with the current fields of its Volume. */
    ghost function Snapshot(): map<string, VolumeRec>
      reads this, volumes.Values
    {
      map id | id in volumes :: volumes[id].Record()
    }

    constructor (baseDir: Fs.Path)
      ensures this.baseDir == baseDir && volumes == map[]
      ensures Valid()
    {
      this.baseDir := baseDir;
      volumes := map[];
    }

    /** CreateVolume: the directory is created first; only when that succeeds
        is a new Volume filed under the derived id, replacing whatever was there. */
    method CreateVolume(req: Csi.CreateVolumeRequest, fs: Fs.Host) returns (r: Result<Volume, ManagerError>)
      requires Valid() && fs.Valid()
      modifies this, fs
      ensures Valid() && fs.Valid()
      ensures fs.files == old(fs.files) && fs.mounts == old(fs.mounts)
      ensures Fs.Join(baseDir, GenerateVolumeId(req.name)) in old(fs.dirs) ==> r.Ok?
      ensures r.Err? ==> r.error == VolumeDirFailed && volumes == old(volumes) && fs.dirs == old(fs.dirs)
      ensures r.Ok? ==>
        && fresh(r.value)
        && volumes == old(volumes)[GenerateVolumeId(req.name) := r.value]
        && fs.dirs == old(fs.dirs) + {Fs.Join(baseDir, GenerateVolumeId(req.name))}
      ensures r.Err? ==> Snapshot() == old(Snapshot())
      ensures r.Ok? ==> Snapshot() == old(Snapshot())[GenerateVolumeId(req.name) := NewRecord(baseDir, req)]
    {
      var id := GenerateVolumeId(req.name);
      var path := Fs.Join(baseDir, id);
      var ok := fs.MkdirAll(path);
      if !ok {
        return Err(VolumeDirFailed);
      }
      var size := ParseSize(Csi.GetRequiredBytes(req.capacityRange));
      var retention := Lookup(req.parameters, "retentionPolicy");
      var podId := Lookup(req.parameters, "podID");
      var v := new Volume(id, path, size, podId, retention);
      assert v.Record() == NewRecord(baseDir, req);
      volumes := volumes[id := v];
      r := Ok(v);
      FiledSnapshot(id);
    }

    /** DeleteVolume: an unknown id is an error; the directory tree is removed
        first, and the entry is dropped only when that succeeds. */
    method DeleteVolume(id: string, fs: Fs.Host) returns (err: Option<ManagerError>)
      requires Valid() && fs.Valid()
      modifies this, fs
      ensures Valid() && fs.Valid()
      ensures id !in old(volumes) ==> err == Some(NotFound(id)) && volumes == old(volumes) && unchanged(fs)
      ensures id in old(volumes) && err.Some? ==> err == Some(DeleteDirFailed) && volumes == old(volumes)
      ensures err.Some? ==>
        && fs.dirs <= old(fs.dirs) && fs.files <= old(fs.files)
        && Fs.OutsideAll(fs.dirs, {Fs.Join(baseDir, id)} + Fs.Exposed(fs.mounts, Fs.Join(baseDir, id)))
           == Fs.OutsideAll(old(fs.dirs), {Fs.Join(baseDir, id)} + Fs.Exposed(fs.mounts, Fs.Join(baseDir, id)))
        && Fs.OutsideAll(fs.files, {Fs.Join(baseDir, id)} + Fs.Exposed(fs.mounts, Fs.Join(baseDir, id)))
           == Fs.OutsideAll(old(fs.files), {Fs.Join(baseDir, id)} + Fs.Exposed(fs.mounts, Fs.Join(baseDir, id)))
      ensures err.None? ==> id in old(volumes) && volumes == old(volumes) - {id}
      ensures err.None? ==>
        && fs.NothingAt(Fs.Join(baseDir, id))
        && fs.dirs == Fs.Outside(old(fs.dirs), Fs.Join(baseDir, id))
        && fs.files == Fs.Outside(old(fs.files), Fs.Join(baseDir, id))
      ensures fs.mounts == old(fs.mounts)
      ensures Snapshot() == if err.None? then old(Snapshot()) - {id} else old(Snapshot())
    {
      if id !in volumes {
        return Some(NotFound(id));
      }
      var v := volumes[id];
      var ok := fs.RemoveAll(v.path);
      if !ok {
        return Some(DeleteDirFailed);
      }
      volumes := volumes - {id};
      err := None;
    }

    /** GetVolume: the Volume object itself (not a copy) filed under `id`. */
    method GetVolume(id: string) returns (r: Result<Volume, ManagerError>)
      ensures id in volumes ==> r == Ok(volumes[id])
      ensures id !in volumes ==> r == Err(NotFound(id))
    {
      if id !in volumes {
        return Err(NotFound(id));
      }
      r := Ok(volumes[id]);
    }

    /** ListVolumes: every filed Volume exactly once, in the map's iteration order (left open). */
    method ListVolumes() returns (vs: seq<Volume>)
      requires Valid()
      ensures |vs| == |volumes|
      ensures forall v :: v in vs <==> v in volumes.Values
      ensures forall i, j :: 0 <= i < j < |vs| ==> vs[i] != vs[j]
    {
      vs := [];
      var rest := volumes.Keys;
      while rest != {}
        invariant rest <= volumes.Keys
        invariant |vs| + |rest| == |volumes|
        invariant forall i :: 0 <= i < |vs| ==> vs[i].id in volumes && volumes[vs[i].id] == vs[i] && vs[i].id !in rest
        invariant forall id :: id in volumes && id !in rest ==> volumes[id] in vs
        invariant forall i, j :: 0 <= i < j < |vs| ==> vs[i] != vs[j]
        decreases rest
      {
        var id :| id in rest;
        vs := vs + [volumes[id]];
        rest := rest - {id};
      }
    }

    /** UpdateVolumeUsage: sets the usage of the named volume and nothing else. */
    method UpdateVolumeUsage(id: string, usage: int) returns (err: Option<ManagerError>)
      requires Valid()
      modifies volumes.Values
      ensures Valid()
      ensures id !in volumes ==> err == Some(NotFound(id)) && Snapshot() == old(Snapshot())
      ensures id in volumes ==> err == None && Snapshot() == old(Snapshot())[id := old(Snapshot())[id].(usage := usage)]
    {
      if id !in volumes {
        return Some(NotFound(id));
      }
      var v := volumes[id];
      v.usage := usage;
      err := None;
    }

    /** Filing one object under one key, with every other filed object left
        alone, changes the registry's value at that key only. */
    twostate lemma FiledSnapshot(id: string)
      requires id in volumes && volumes == old(volumes)[id := volumes[id]]
      requires forall k | k in old(volumes) && k != id :: old(volumes[k].Record()) == volumes[k].Record()
      ensures Snapshot() == old(Snapshot())[id := volumes[id].Record()]
      ensures old(Valid()) && volumes[id].id == id && volumes[id].path == Fs.Join(baseDir, id) ==> Valid()
    {
    }

    /** A registry none of whose Volume objects changed has the same value and stays valid. */
    twostate lemma SnapshotKept()
      requires unchanged(this) && forall k | k in volumes :: unchanged(volumes[k])
      ensures Snapshot() == old(Snapshot())
      ensures old(Valid()) ==> Valid()
    {
    }
  }

  /** NewVolumeManager: an empty registry, once the base directory exists. */
  method NewVolumeManager(baseDir: Fs.Path, fs: Fs.Host) returns (r: Result<VolumeManager, ManagerError>)
    requires fs.Valid()
    modifies fs
    ensures fs.Valid()
    ensures fs.files == old(fs.files) && fs.mounts == old(fs.mounts)
    ensures baseDir in old(fs.dirs) ==> r.Ok?
    ensures r.Err? ==> r.error == BaseDirFailed && fs.dirs == old(fs.dirs)
    ensures r.Ok? ==>
      && fresh(r.value) && r.value.Valid() && r.value.baseDir == baseDir && r.value.volumes == map[]
      && fs.dirs == old(fs.dirs) + {baseDir}
  {
    var ok := fs.MkdirAll(baseDir);
    if !ok {
      return Err(BaseDirFailed);
    }
    var m := new VolumeManager(baseDir);
    r := Ok(m);
  }

  /** Creating a volume twice under one name: the second call finds the
      directory in place and succeeds, the id is the same, and the registry holds
      one entry for it, now the second, distinct Volume object. Only the
      volume directory is added on disk. */
  method CreateTwice(m: VolumeManager, req: Csi.CreateVolumeRequest, fs: Fs.Host)
    returns (first: Result<Volume, ManagerError>, second: Result<Volume, ManagerError>)
    requires m.Valid() && fs.Valid()
    modifies m, fs
    ensures first.Ok? ==> second.Ok?
    ensures first.Ok? ==>
      && first.value != second.value
      && m.volumes == old(m.volumes)[GenerateVolumeId(req.name) := second.value]
      && second.value.Record() == NewRecord(m.baseDir, req)
    ensures first.Ok? ==> fs.dirs == old(fs.dirs) + {Fs.Join(m.baseDir, GenerateVolumeId(req.name))}
    ensures fs.files == old(fs.files) && fs.mounts == old(fs.mounts)
    ensures m.Valid() && fs.Valid()
  {
    first := m.CreateVolume(req, fs);
    if first.Err? {
      second := m.CreateVolume(req, fs);
      return;
    }
    ghost var between := m.volumes;
    second := m.CreateVolume(req, fs);
    assert m.volumes == between[GenerateVolumeId(req.name) := second.value];
    assert m.Snapshot()[GenerateVolumeId(req.name)] == second.value.Record();
  }
}
