# Ephemeral CSI driver: a verified Dafny model

This project models the volume lifecycle of `kubernetes-ephemeral-csi`, a
Container Storage Interface (CSI v1) plugin that serves node-local, ephemeral
volumes backed by directories. Three parts of the Go code are modelled:

- **The volume registry** (`pkg/volume/manager.go`, module `Registry`).
  `VolumeManager` owns a map from volume id to a shared, mutable `*Volume`. It
  creates, deletes, looks up, lists and updates volumes. Each volume is backed
  by a directory under the base directory.
- **The node mounter** (`pkg/volume/node.go`, module `Mounter`). It publishes a
  registered volume by bind-mounting its directory (or a sub-path of it) onto a
  target path, and unpublishes it. It records the mount point on the `Volume`
  object that the registry itself holds. It also computes usage statistics in
  64-bit integer arithmetic.
- **The protocol handlers** (`pkg/driver/driver.go`, module `CsiDriver`). These
  are the gRPC identity, controller and node handlers. They keep no registry:
  a volume is the directory named by its request name under the base path.
  Each handler validates its request in a fixed order. It answers errors with
  the gRPC codes InvalidArgument, NotFound, Internal and Unimplemented.

Supporting modules:

- `Results` holds `Option`, `Result` and Go's read of a missing map key as `""`.
- `Csi` holds the protocol messages, reduced to the fields the code reads.
- `Fs` replaces the operating system with abstract state. The state is:
  - the set of existing directories;
  - the set of other files;
  - the bind-mount table. It maps each target to the stack of sources bound
    on it; the last one is the one visible, as with Linux's stacked bind mounts.

  Each filesystem call (`MkdirAll`, `RemoveAll`, bind mount, unmount,
  `ReadDir`, `Info`) is decided by that state where the Go library decides it
  from the state alone. Otherwise it may fail nondeterministically.

The registry is a Dafny `class` holding a `map<string, Volume>` of references
to `Volume` objects. When the node mounter assigns `volume.mountPoint`
through the reference `GetVolume` returned, the registry's own entry changes.
This is the aliasing the Go code relies on. `VolumeManager.Snapshot()` is a
ghost view of the registry as a map of values, and the contracts are stated
over it. The model follows the code as written, including where it departs
from the intended design:

- the registry's `CreateVolume` overwrites an existing entry;
- unpublish clears the mount point whatever it held;
- the driver's `CreateVolume` applies its default size only to a zero size,
  so a negative size is echoed back.

## Model

| member | source | states |
|---|---|---|
| Results.Lookup | pkg/volume/manager.go:66-67 | A map index yields the stored value for a present key and "" for a missing one. |
| Csi.GetRequiredBytes | pkg/volume/manager.go:65 | The required bytes of the capacity range, or 0 when the range is absent. |
| Fs.Host.MkdirAll | pkg/volume/manager.go:60 | An existing directory is a success and an existing non-directory a failure. On success the directory exists; on failure nothing changes; files and mounts never change. |
| Fs.Host.RemoveAll | pkg/volume/manager.go:94 | Nothing to remove is a success. A mount at or under the path makes it fail (EBUSY). Success removes the path and everything under it, and nothing else. Failure removes nothing outside the path and the sources visible through mounts under it, and keeps the path itself. The mount table never changes. |
| Fs.Host.BindMount | pkg/volume/node.go:130-137 | Fails unless source and target exist. Success pushes the source on top of the target's stack, over any earlier mount; directories and files never change. |
| Fs.Host.Unmount | pkg/volume/node.go:82 | Fails when the target is not mounted. Success pops the topmost mount of that target only, uncovering the one beneath; directories and files never change. |
| Fs.PopPush | pkg/volume/node.go:82 | Unmounting a target right after a bind mount on it restores the mount table exactly. |
| Fs.JoinIsChild | pkg/volume/manager.go:59 | Joining a plain name (non-empty, no "/", not "." or "..") gives a path directly under the base whose last element is that name. |
| Fs.Host.ReadDir | pkg/driver/driver.go:151 | Fails unless the path is a directory. Success lists every entry directly under it exactly once, and marks an entry as a directory exactly when it is one. |
| Fs.Host.Info | pkg/driver/driver.go:158 | Fails when the entry does not exist. |
| Registry.GenerateVolumeId | pkg/volume/manager.go:146-149 | The id starts with the fixed prefix "vol-", and what follows the prefix is the name. |
| Registry.GenerateVolumeIdInjective | pkg/volume/manager.go:146-149 | Two names with the same id are the same name. |
| Registry.ParseSize | pkg/volume/manager.go:151-156 | Always positive: a positive size is kept, and zero or a negative size becomes 1 << 30. |
| Registry.Volume.constructor | pkg/volume/manager.go:69-75 | A new Volume carries the five given fields; the mount point, sub-path, usage and last access hold their zero values. |
| Registry.VolumeManager.constructor | pkg/volume/manager.go:44-47 | A new registry has the given base directory and no volumes. |
| Registry.NewVolumeManager | pkg/volume/manager.go:39-48 | Creates the base directory first. An existing one is reused; a failure yields no registry. Success yields an empty, valid registry. |
| Registry.VolumeManager.CreateVolume | pkg/volume/manager.go:51-81 | The map is touched only after the volume directory exists. A mkdir failure leaves registry and disk unchanged. Success files a fresh Volume under "vol-"+name, replacing any previous entry. Its record has the path under the base directory, the parsed size, and the podID and retentionPolicy parameters. |
| Registry.VolumeManager.DeleteVolume | pkg/volume/manager.go:84-102 | An unknown id is NotFound and changes nothing. A removal failure keeps the entry and removes no directory or file outside the volume directory and the sources visible through mounts under it. Success removes exactly that key and leaves nothing at the volume's directory. |
| Registry.VolumeManager.GetVolume | pkg/volume/manager.go:105-115 | The filed Volume object itself for a known id, NotFound otherwise. |
| Registry.VolumeManager.ListVolumes | pkg/volume/manager.go:118-128 | Exactly the filed Volume objects, each once; the length is the size of the map. |
| Registry.VolumeManager.UpdateVolumeUsage | pkg/volume/manager.go:131-142 | Changes only the usage of the named volume, or reports NotFound and changes nothing. |
| Registry.VolumeManager.FiledSnapshot | pkg/volume/manager.go:77 | Filing one object under one key changes the registry's value at that key only, and keeps it valid. |
| Registry.VolumeManager.SnapshotKept | pkg/volume/node.go:38-89 | A registry whose objects did not change keeps its value and validity. |
| Registry.CreateTwice | pkg/volume/manager.go:56-77 | After a successful first create, a second create with the same name succeeds. It files a new, distinct object under the same id, replacing the first, and nothing else in the registry changes. On disk only the volume directory is added; files and mounts are unchanged, and registry and filesystem stay valid. |
| Mounter.PublishSourceIsSubPath | pkg/volume/node.go:43-61 | With no subPath the bind source is the volume directory. A plain-name subPath gives a different source, directly under the volume directory and named by the subPath. |
| Mounter.UsageOf | pkg/volume/node.go:115 | used is total − available in int64 arithmetic, so used + available wraps back to total. |
| Mounter.BlockBytesExact | pkg/volume/node.go:113-114 | Without overflow, int64(count * uint64(bsize)) is the exact product. |
| Mounter.BytesUsageExact | pkg/volume/node.go:112-115 | Without overflow: total = Blocks·Bsize, available = Bavail·Bsize and used = total − available. used is not negative when Bavail ≤ Blocks. |
| Mounter.NodeMounter.constructor | pkg/volume/node.go:20-24 | The mounter works on the given registry. |
| Mounter.NodeMounter.NodePublishVolume | pkg/volume/node.go:27-68 | An unknown id fails before any filesystem call. A failure leaves the registry and mount table unchanged and creates at most the target and sub-path directories; a target mkdir failure creates nothing. Success creates those directories and mounts the subPath-selected source on top of the target's stack. The registry's own Volume then has mount point = target. |
| Mounter.NodeMounter.NodeUnpublishVolume | pkg/volume/node.go:71-96 | An unknown id fails before any unmount, and so does a target that is not mounted. An unmount failure changes nothing. A removal failure pops the top mount, keeps the target itself, and touches nothing outside it and the sources still visible under it. Success requires that exactly one mount was on the target: it unmounts and removes the target, and sets the registry's Volume mount point to "" whatever it held. |
| Mounter.NodeMounter.NodeGetVolumeStats | pkg/volume/node.go:99-127 | NotFound for an unknown volume and a failure when statfs fails. Otherwise it returns the 64-bit byte counts of the statistics, with used + available = total in int64 arithmetic. |
| Mounter.PublishThenUnpublish | pkg/volume/node.go:27-96 | Publishing over a target that is already mounted makes the following unpublish fail. When both succeed, the mount table is as before, the target is unmounted and gone, and the registry is as before except that the volume's mount point is "". |
| CsiDriver.Capacity | pkg/driver/driver.go:87-90 | The reported capacity is never 0: zero required bytes become 1073741824, and any other value, negative included, is echoed. |
| CsiDriver.CapacityVersusParseSize | pkg/driver/driver.go:87-90 | The handler's capacity equals the registry's parseSize for sizes ≥ 0. For a negative size the handler reports it while the registry uses the default. |
| CsiDriver.CreatedVolume | pkg/driver/driver.go:98-104 | The reported volume has the request name as id, the capacity, and the parameters as context. |
| CsiDriver.ListedDirs | pkg/driver/driver.go:156-157 | The directory entries of a complete listing are exactly the directories directly under the path. |
| CsiDriver.Driver.constructor | pkg/driver/driver.go:39-44 | The driver holds the given node id and base path, with the fixed name and version. |
| CsiDriver.NewDriver | pkg/driver/driver.go:29-45 | An empty base path is refused before any filesystem call. A base-directory failure yields no driver. Success yields a fresh driver with name "ephemeral.csi.local", version "0.1.0", the given node id and base path, and the base directory exists. |
| CsiDriver.Driver.GetPluginInfo | pkg/driver/driver.go:48-53 | The fixed name and version. |
| CsiDriver.Driver.NodeGetInfo | pkg/driver/driver.go:319-323 | The node id the driver was created with. |
| CsiDriver.Driver.Unsupported | pkg/driver/driver.go:121-127 | Each unsupported RPC answers Unimplemented with "<rpc> is not supported", whatever the request. The same holds for the handlers at driver.go 212-234, 237-243 and 297-303. |
| CsiDriver.Driver.CreateVolume | pkg/driver/driver.go:81-105 | An empty name is InvalidArgument with the filesystem unchanged. An existing directory is reused, so the call succeeds. A mkdir failure is Internal. Success reports CreatedVolume and leaves the directory existing. |
| CsiDriver.Driver.DeleteVolume | pkg/driver/driver.go:107-119 | An empty id is InvalidArgument with nothing changed. Nothing at the path is a success. Success leaves nothing at or under the volume directory. A mount under the directory makes it fail. A removal failure is Internal and removes no directory or file outside the volume directory and the sources visible through mounts under it. |
| CsiDriver.Driver.ValidateVolumeCapabilities | pkg/driver/driver.go:129-145 | Checks in order: an empty id is InvalidArgument, a missing volume directory is NotFound. Otherwise the requested capabilities are confirmed unchanged. |
| CsiDriver.Driver.ListVolumes | pkg/driver/driver.go:147-176 | A listing failure is Internal. Otherwise every directory directly under the base path is either listed once, under its own name, or skipped because its info could not be read. Non-directories are never listed. |
| CsiDriver.Driver.NodePublishVolume | pkg/driver/driver.go:245-272 | Checks in order, before any change: empty id, then empty target (InvalidArgument), then a missing volume directory (NotFound). A mkdir or mount failure is Internal and mounts nothing. Success creates the target and bind-mounts the volume directory on top of the target's stack. |
| CsiDriver.Driver.NodeUnpublishVolume | pkg/driver/driver.go:274-295 | Empty id, then empty target, is InvalidArgument. The volume is never looked up. A target that is not mounted fails. An unmount failure is Internal and changes nothing. A removal failure is Internal: it pops the top mount, keeps the target, and touches nothing outside it and the sources still visible under it. Success requires exactly one mount on the target: it unmounts the target and leaves nothing at it. |
| CsiDriver.CreateVolumeRetried | pkg/driver/driver.go:93-104 | Retrying a successful create gets the identical response. The retry creates no directory, and neither call changes files or mounts. |
| CsiDriver.CreateThenList | pkg/driver/driver.go:93-96 | A volume created under a plain name (non-empty, no "/", not "." or "..") is listed afterwards, or counted among the entries whose info could not be read. |
| CsiDriver.VolumeLifecycle | pkg/driver/driver.go:81-295 | When create, publish, unpublish and delete all succeed, the target was not mounted before and is gone now, the mount table is exactly as before, and nothing is left at the volume directory. |

## Left out

- Locking: the `sync.RWMutex` of `VolumeManager` is not modelled. Operations run one at a time, so concurrent interleavings are not covered.
- Process bootstrap (`cmd/`), gRPC transport, klog logging, `Probe`, `GetCapacity` and the static capability lists (`GetPluginCapabilities`, `ControllerGetCapabilities`, `NodeGetCapabilities`) carry no state and are not part of this model.
- Real system calls (`os.MkdirAll`, `os.RemoveAll`, `os.Stat`, `os.ReadDir`, `syscall.Unmount`, `syscall.Statfs`, `mount --bind`) are replaced by the abstract `Fs.Host`. Permission and I/O failures are nondeterministic.
- Fs.Join: is `base + "/" + name`, without the lexical cleaning of `filepath.Join`. The two agree when the base is clean and is neither "/" nor ".", and the name is a plain name. For the base "/" Go gives "/x" where the model gives "//x". For the base "." (a legal `--base-path`) Go gives "x" where the model gives "./x", so a volume path and a target that are one path in Go are two in the model. The containment lemmas (`Fs.JoinIsChild`, `Mounter.PublishSourceIsSubPath`, `CsiDriver.CreateThenList`) are stated for plain names only.
- Mounter.NodeMounter.NodePublishVolume: a subPath holding ".." resolves in Go outside the volume directory. For example, "../vol-b" bind-mounts another volume's directory. The model keeps the joined path under the volume path, so it does not capture this escape.
- CsiDriver.Driver.DeleteVolume: in Go the id "." names the base directory itself, so `os.RemoveAll` deletes every volume, and ".." names its parent. The model's joined path for such an id is a separate path under the base.
- CsiDriver.Driver.CreateVolume: names such as ".", ".." or "a/../b" are cleaned by Go into the base directory, its parent or another volume's directory. The model does not capture this. The same holds for the ids of `ValidateVolumeCapabilities` and `NodePublishVolume`.
- Fs.Host.BindMount: the contents of a bind source do not appear under its target in the model. Paths are not resolved through mounts, and neither is the aliasing of entries that a bind mount creates.
- Fs.Host.RemoveAll: on failure, only says that nothing is removed outside the path and the sources visible through mounts under it, and that the path itself stays. Which entries underneath were removed is left open. Go's `os.RemoveAll` deletes through a bind mount before it fails with EBUSY; the model bounds that by the visible sources.
- Fs.Host.MkdirAll: creates only the named path. Missing parents are not created, and the mode bits are not modelled.
- Fs.Host.ReadDir: the listing order (sorted by name in Go) is left open.
- Fs.Host.Info: the size reported for a directory entry (`info.Size()`, used as the capacity in `ListVolumes`) depends on the operating system and is left open.
- `os.Stat` errors other than "does not exist" are not modelled: the existence check is exact. In `ValidateVolumeCapabilities` and the driver's `NodePublishVolume`, such errors let the call proceed in Go.
- Error messages are modelled as the fixed text before `: %v`. The wrapped cause of an Internal status is dropped.
- Registry.VolumeManager.DeleteVolume: its postcondition speaks of the directory `Join(baseDir, id)`, which the registry invariant makes equal to the `Path` the code removes.
- Mounter.NodeMounter.NodeGetVolumeStats: takes the result of `syscall.Statfs` as a parameter (None for a failure), and reports only the byte-unit usage entry.
- The `SubPath`, `Usage` (outside `UpdateVolumeUsage`) and `LastAccess` fields are never written by the modelled code, and so are never changed in the model.
- The int64/uint64 arithmetic of the statistics is modelled with explicit wrap-around. The exact-arithmetic facts are stated under a no-overflow precondition (Mounter.BytesUsageExact).

Where the code departs from the intended design, the model follows the code:

- The registry's `CreateVolume` overwrites an existing entry. The design calls for an insert-if-absent that returns the existing entry.
- Unpublish clears the mount point whatever target it named. The design clears it only when it equals the target.
- Unmounting a target that is not mounted is an error, so unpublish is not idempotent. The design requires an idempotent unmount.
- The driver's `NodeUnpublishVolume` on a target directory that was never mounted answers Internal (`umount` fails). The test at pkg/driver/driver_test.go:175-197 expects success there.
- The registry's `DeleteVolume` reports an unknown id as an error, while the driver's `DeleteVolume` succeeds on a volume that never existed.
- The registry's `CreateVolume` creates the directory before filing the entry. The design inserts the entry first and rolls it back. In both, a failure leaves registry and disk unchanged.
- `NodeGetVolumeStats` does not update the volume's usage or last-access time, though the design has stat queries do so.
