/** The Kubernetes objects the controller reads and writes, as values, and the
    keyed collection they live in. */
module Kube {

  datatype Option<+T> = None | Some(value: T)

  type Int64 = x: int | -0x8000_0000_0000_0000 <= x < 0x8000_0000_0000_0000

  const FINALIZER_NAME := "vgFinalizer"
  const LABEL_SNAPSHOT_GROUP := "snapshotGroup"
  const LABEL_VOLUME_GROUP := "volume-group"
  const DRIVER_TYPE_POWERSTORE := "csi-powerstore.dellemc.com"

  datatype Kind = GroupKind | SnapshotKind | ContentKind | ClassKind | ClaimKind | VolumeKind

  datatype Key = Key(ns: string, name: string, kind: Kind)

  datatype Policy = DeletePolicy | RetainPolicy | OtherPolicy

  // NoPhase is the empty status string of a group nobody has processed yet.
  datatype Phase = NoPhase | Pending | Error | Complete

  datatype GroupSpec = GroupSpec(
    driverName: string,
    className: string,
    pvcLabel: string,
    pvcList: Option<seq<string>>,
    timeout: Int64)

  datatype GroupStatus = GroupStatus(
    groupId: string,
    snapshots: string,
    creationTime: int,
    ready: bool,
    phase: Phase)

  datatype VolumeGroup = VolumeGroup(
    ns: string,
    name: string,
    finalizers: seq<string>,
    deleting: bool,
    spec: GroupSpec,
    status: GroupStatus)

  // Every pointer field of the source is an Option: None is the nil pointer.
  datatype SnapshotStatus = SnapshotStatus(ready: Option<bool>, bound: Option<string>)

  datatype VolumeSnapshot = VolumeSnapshot(
    ns: string,
    name: string,
    labels: map<string, string>,
    deleting: bool,
    className: Option<string>,
    contentName: Option<string>,
    status: Option<SnapshotStatus>)

  datatype ContentStatus = ContentStatus(handle: string, creationTime: int, ready: bool, restoreSize: int)

  datatype SnapshotContent = SnapshotContent(
    name: string,
    refNs: string,
    refName: string,
    handle: Option<string>,
    className: Option<string>,
    policy: Policy,
    driver: string,
    status: Option<ContentStatus>)

  datatype SnapshotClass = SnapshotClass(name: string, driver: string, policy: Policy)

  datatype Claim = Claim(ns: string, name: string, labels: map<string, string>, volumeName: string, bound: bool)

  datatype CsiSource = CsiSource(driver: string, handle: string)

  datatype Volume = Volume(name: string, csi: Option<CsiSource>, bound: bool)

  datatype Object =
    | GroupObject(group: VolumeGroup)
    | SnapshotObject(snapshot: VolumeSnapshot)
    | ContentObject(content: SnapshotContent)
    | ClassObject(class_: SnapshotClass)
    | ClaimObject(claim: Claim)
    | VolumeObject(volume: Volume)

  function GroupKey(ns: string, name: string): Key { Key(ns, name, GroupKind) }
  function SnapshotKey(ns: string, name: string): Key { Key(ns, name, SnapshotKind) }
  function ContentKey(name: string): Key { Key("", name, ContentKind) }
  function ClassKey(name: string): Key { Key("", name, ClassKind) }
  function ClaimKey(ns: string, name: string): Key { Key(ns, name, ClaimKind) }
  function VolumeKey(name: string): Key { Key("", name, VolumeKind) }

  function KeyOf(o: Object): Key {
    match o
    case GroupObject(g) => GroupKey(g.ns, g.name)
    case SnapshotObject(s) => SnapshotKey(s.ns, s.name)
    case ContentObject(c) => ContentKey(c.name)
    case ClassObject(c) => ClassKey(c.name)
    case ClaimObject(c) => ClaimKey(c.ns, c.name)
    case VolumeObject(v) => VolumeKey(v.name)
  }

  // Everything is stored under its own key, so the kind in a key tells the type of the object.
  ghost predicate WellKeyed(m: map<Key, Object>) {
    forall k | k in m :: KeyOf(m[k]) == k
  }

  type Objects = m: map<Key, Object> | WellKeyed(m) witness map[]

  predicate IsDeleting(o: Object) {
    (o.GroupObject? && o.group.deleting) || (o.SnapshotObject? && o.snapshot.deleting)
  }

  // What the driver says about one member, and about the whole group.
  datatype DriverSnapshot = DriverSnapshot(
    name: string,
    sourceId: string,
    snapId: string,
    capacity: int,
    creationTime: int,
    ready: bool)

  datatype DriverResponse = DriverResponse(groupId: string, creationTime: int, snapshots: seq<DriverSnapshot>)

  datatype DriverRequest = DriverRequest(name: string, volumeIds: seq<string>, existingGroupId: string)
}
