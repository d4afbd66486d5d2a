/** The Container Storage Interface (CSI v1) messages the volume code reads and
    writes, reduced to the fields it uses, and the gRPC status it answers errors with. */
module Csi {
  import opened Results

  /** CapacityRange; an absent range reads as zero required bytes, as the
      generated protobuf getter GetRequiredBytes does on a nil message. */
  datatype CapacityRange = CapacityRange(requiredBytes: int, limitBytes: int)

  function GetRequiredBytes(range: Option<CapacityRange>): (b: int)
    ensures range.None? ==> b == 0
    ensures range.Some? ==> b == range.value.requiredBytes
  {
    match range
    case None => 0
    case Some(c) => c.requiredBytes
  }

  datatype CreateVolumeRequest = CreateVolumeRequest(
    name: string,
    capacityRange: Option<CapacityRange>,
    parameters: map<string, string>)

  datatype DeleteVolumeRequest = DeleteVolumeRequest(volumeId: string)

  /** The volume a controller reports back. */
  datatype Volume = Volume(volumeId: string, capacityBytes: int, volumeContext: map<string, string>)

  datatype AccessMode =
    | Unknown
    | SingleNodeWriter
    | SingleNodeReaderOnly
    | MultiNodeReaderOnly
    | MultiNodeSingleWriter
    | MultiNodeMultiWriter
    | SingleNodeSingleWriter
    | SingleNodeMultiWriter

  datatype VolumeCapability =
    | Block(mode: AccessMode)
    | Mount(fsType: string, mountFlags: seq<string>, mode: AccessMode)

  datatype ValidateVolumeCapabilitiesRequest = ValidateVolumeCapabilitiesRequest(
    volumeId: string,
    volumeCapabilities: seq<VolumeCapability>)

  datatype NodePublishVolumeRequest = NodePublishVolumeRequest(
    volumeId: string,
    targetPath: string,
    volumeContext: map<string, string>)

  datatype NodeUnpublishVolumeRequest = NodeUnpublishVolumeRequest(volumeId: string, targetPath: string)

  /** The gRPC status codes the handlers use. */
  datatype Code = InvalidArgument | NotFound | Internal | Unimplemented

  datatype Status = Status(code: Code, message: string)
}
