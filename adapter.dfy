/** `VPLEXAdapter`: the provisioning engine. Each operation issues a fixed, ordered
    sequence of gateway commands, leg by leg, and stops at the first refused one
    without undoing anything; the capacity survey folds per-cluster listings. */
module Adapter {
  import opened Basics
  import opened Text
  import opened Rest
  import opened Common

  // ------------------------------------------------------------ plans

  /** The commands of consecutive legs, one block after another. */
  function Concat(blocks: seq<seq<Command>>): seq<Command>
    decreases |blocks|
  {
    if blocks == [] then [] else Concat(blocks[..|blocks| - 1]) + blocks[|blocks| - 1]
  }

  lemma ConcatSnoc(blocks: seq<seq<Command>>, i: nat)
    requires i < |blocks|
    ensures Concat(blocks[..i + 1]) == Concat(blocks[..i]) + blocks[i]
  {
    assert blocks[..i + 1][..i] == blocks[..i];
  }

  lemma {:induction false} ConcatPrefix(blocks: seq<seq<Command>>, i: nat)
    requires i <= |blocks|
    ensures Concat(blocks[..i]) <= Concat(blocks)
    decreases |blocks| - i
  {
    if i < |blocks| {
      ConcatSnoc(blocks, i);
      ConcatPrefix(blocks, i + 1);
    } else {
      assert blocks[..i] == blocks;
    }
  }

  /** Legs of uniform width w take w commands each. */
  lemma {:induction false} ConcatLength(blocks: seq<seq<Command>>, w: nat)
    requires forall i :: 0 <= i < |blocks| ==> |blocks[i]| == w
    ensures |Concat(blocks)| == w * |blocks|
    decreases |blocks|
  {
    if blocks != [] {
      ConcatLength(blocks[..|blocks| - 1], w);
    }
  }

  /** Leg i of a plan `head + legs + tail` starts right after the head and the legs before it. */
  lemma LegAt(head: seq<Command>, blocks: seq<seq<Command>>, tail: seq<Command>, i: nat)
    requires i < |blocks|
    ensures |Concat(blocks[..i + 1])| == |Concat(blocks[..i])| + |blocks[i]|
    ensures |head| + |Concat(blocks[..i])| + |blocks[i]| <= |head + Concat(blocks) + tail|
    ensures forall j :: 0 <= j < |blocks[i]| ==>
      (head + Concat(blocks) + tail)[|head| + |Concat(blocks[..i])| + j] == blocks[i][j]
  {
    ConcatSnoc(blocks, i);
    ConcatPrefix(blocks, i + 1);
    var before := Concat(blocks[..i]);
    forall j | 0 <= j < |blocks[i]|
      ensures (head + Concat(blocks) + tail)[|head| + |before| + j] == blocks[i][j]
    {
      assert Concat(blocks)[|before| + j] == Concat(blocks[..i + 1])[|before| + j];
    }
  }

  /** In legs of uniform width w, call j of leg i sits at position w * i + j. */
  lemma ConcatAt(blocks: seq<seq<Command>>, w: nat, i: nat, j: nat)
    requires forall k :: 0 <= k < |blocks| ==> |blocks[k]| == w
    requires i < |blocks| && j < w
    ensures |Concat(blocks)| == w * |blocks|
    ensures w * i + j < |Concat(blocks)| && Concat(blocks)[w * i + j] == blocks[i][j]
  {
    ConcatLength(blocks, w);
    ConcatLength(blocks[..i], w);
    LegAt([], blocks, [], i);
    assert [] + Concat(blocks) + [] == Concat(blocks);
  }

  /** `create_volume`'s four calls for leg i. */
  function CreateVolumeLeg(s: ExtraSpecs, i: nat): seq<Command>
    requires WellFormed(s) && i < s.volumeInfo.count
  {
    [ReDiscoveryArraysCommand(s.arrayInfo.clusters[i], s.arrayInfo.hards[i]),
     ClaimStorageVolumeCommand(s.volumeInfo.lun[i], s.arrayInfo.storageVolumes[i]),
     CreateExtentCommand(s.volumeInfo.lun[i]),
     CreateLocalDeviceCommand(s.volumeInfo.device[i], s.volumeInfo.extent[i], s.volumeInfo.geometry)]
  }

  function CreateVolumeLegs(s: ExtraSpecs): seq<seq<Command>>
    requires WellFormed(s)
  {
    seq(s.volumeInfo.count, i requires 0 <= i < s.volumeInfo.count && WellFormed(s) => CreateVolumeLeg(s, i))
  }

  /** The device the virtual volume is built on: the first leg's. */
  function AttachDevice(s: ExtraSpecs): string
    requires WellFormed(s)
  {
    if s.volumeInfo.count > 0 then s.volumeInfo.device[0] else ""
  }

  /** The mirror leg's device: the second leg's, or nothing with fewer than two legs. */
  function MirrorDevice(s: ExtraSpecs): string
    requires WellFormed(s)
  {
    if s.volumeInfo.count > 1 then s.volumeInfo.device[1] else ""
  }

  /** Every leg, then the virtual volume and the mirror attachment. */
  function CreateVolumePlan(s: ExtraSpecs): seq<Command>
    requires WellFormed(s)
  {
    Concat(CreateVolumeLegs(s)) +
    [CreateVirtualVolumeCommand(AttachDevice(s)), AttachMirrorDeviceCommand(AttachDevice(s), MirrorDevice(s))]
  }

  /** The device `delete_volume` detaches: since its `index == index` test always
      holds, the last listed device rather than the first. */
  function DetachDevice(s: ExtraSpecs): string
    requires WellFormed(s)
  {
    if s.volumeInfo.count > 0 then s.volumeInfo.device[s.volumeInfo.count - 1] else ""
  }

  function DeleteVolumeHead(s: ExtraSpecs): seq<Command>
    requires WellFormed(s)
  {
    [ConsistencyGroupRemoveVirtualVolumesCommand(s.volumeInfo.cgName, s.volumeInfo.volumeName),
     DestroyVirtualVolumeCommand(s.volumeInfo.volumeName),
     DetachMirrorDeviceCommand(DetachDevice(s), MirrorDevice(s))]
  }

  /** `delete_volume`'s five calls for leg i; the local device carries the mirror date. */
  function DeleteVolumeLeg(s: ExtraSpecs, date: string, i: nat): seq<Command>
    requires WellFormed(s) && i < s.volumeInfo.count
  {
    [DestroyDistributedDevicesCommand(s.volumeInfo.device[i]),
     DestroyLocalDeviceCommand(s.volumeInfo.device[i] + date),
     DestroyExtentCommand(s.volumeInfo.extent[i]),
     UnclaimStorageVolumeCommand(s.volumeInfo.lun[i]),
     ForgetStorageVolumeCommand(s.arrayInfo.hards[i])]
  }

  /** No legs can be issued without a mirror date: the device name cannot be formed. */
  function DeleteVolumeLegs(s: ExtraSpecs, date: Option<string>): seq<seq<Command>>
    requires WellFormed(s)
  {
    if date.None? then []
    else seq(s.volumeInfo.count, i requires 0 <= i < s.volumeInfo.count && WellFormed(s) => DeleteVolumeLeg(s, date.value, i))
  }

  function DeleteVolumePlan(s: ExtraSpecs, date: Option<string>): seq<Command>
    requires WellFormed(s)
  {
    DeleteVolumeHead(s) + Concat(DeleteVolumeLegs(s, date))
  }

  /** The cluster the consistency group lives on: the first site's. */
  function FirstCluster(s: ExtraSpecs): string
    requires WellFormed(s)
  {
    if s.volumeInfo.count > 0 then s.arrayInfo.clusters[0] else ""
  }

  function CreateConsistencyGroupPlan(s: ExtraSpecs): seq<Command>
    requires WellFormed(s)
  {
    [CreateConsistencyGroupCommand(s.volumeInfo.cgName, FirstCluster(s)),
     SetConsistencyGroupVisibilityCommand(s.volumeInfo.attributes, s.volumeInfo.visibility),
     SetDetachRuleToConsistencyGroupCommand(FirstCluster(s), s.volumeInfo.delay, s.volumeInfo.cgName),
     AddVirtualVolumesToConsistencyGroupCommand(s.volumeInfo.volumeName, s.volumeInfo.cgName)]
  }

  /** `check_and_create_storage_view`'s five calls for site i. */
  function CreateViewLeg(s: ExtraSpecs, virtualVolume: string, i: nat): seq<Command>
    requires WellFormed(s) && i < s.volumeInfo.count
  {
    [CreateExportStorageViewCommand(s.arrayInfo.clusters[i], s.volumeInfo.svName[i], s.arrayInfo.portGroup[i]),
     RegisterExportInitiatorPortCommand(s.arrayInfo.clusters[i], s.volumeInfo.initiatorPort[i], JoinPorts(s.volumeInfo.port[i])),
     AddInitiatorPortToExportStorageViewCommand(s.volumeInfo.svName[i], s.volumeInfo.initiatorPort[i]),
     AddPortToExportStorageViewCommand(s.volumeInfo.svName[i], s.arrayInfo.portGroup[i]),
     AddVirtualVolumeToExportStorageViewCommand(s.volumeInfo.svName[i], virtualVolume)]
  }

  function CreateViewLegs(s: ExtraSpecs, virtualVolume: string): seq<seq<Command>>
    requires WellFormed(s)
  {
    seq(s.volumeInfo.count, i requires 0 <= i < s.volumeInfo.count && WellFormed(s) => CreateViewLeg(s, virtualVolume, i))
  }

  function CreateViewPlan(s: ExtraSpecs, virtualVolume: string): seq<Command>
    requires WellFormed(s)
  {
    Concat(CreateViewLegs(s, virtualVolume))
  }

  /** `check_and_delete_storage_view`'s five calls for site i. */
  function DeleteViewLeg(s: ExtraSpecs, virtualVolume: string, i: nat): seq<Command>
    requires WellFormed(s) && i < s.volumeInfo.count
  {
    [RemoveInitiatorPortExportStorageViewCommand(s.volumeInfo.svName[i], s.volumeInfo.initiatorPort[i]),
     RemovePortExportStorageViewCommand(s.volumeInfo.svName[i], s.arrayInfo.portGroup[i]),
     RemoveVirtualVolumeExportStorageViewCommand(virtualVolume, s.volumeInfo.svName[i]),
     DestroyExportStorageViewCommand(s.volumeInfo.svName[i]),
     UnregisterExportInitiatorPortCommand(s.volumeInfo.initiatorPort[i])]
  }

  function DeleteViewLegs(s: ExtraSpecs, virtualVolume: string): seq<seq<Command>>
    requires WellFormed(s)
  {
    seq(s.volumeInfo.count, i requires 0 <= i < s.volumeInfo.count && WellFormed(s) => DeleteViewLeg(s, virtualVolume, i))
  }

  function DeleteViewPlan(s: ExtraSpecs, virtualVolume: string): seq<Command>
    requires WellFormed(s)
  {
    Concat(DeleteViewLegs(s, virtualVolume))
  }

  // ------------------------------------------------------------ plan lemmas

  /** Creating a volume takes four calls per leg and two more. */
  lemma CreateVolumePlanLength(s: ExtraSpecs)
    requires WellFormed(s)
    ensures |CreateVolumePlan(s)| == 4 * s.volumeInfo.count + 2
  {
    ConcatLength(CreateVolumeLegs(s), 4);
  }

  /** Leg i of creating a volume occupies positions 4i .. 4i + 3, so every call of
      leg i precedes every call of leg i + 1. */
  lemma CreateVolumePlanLeg(s: ExtraSpecs, i: nat)
    requires WellFormed(s) && i < s.volumeInfo.count
    ensures |CreateVolumePlan(s)| == 4 * s.volumeInfo.count + 2
    ensures CreateVolumePlan(s)[4 * i] == ReDiscoveryArraysCommand(s.arrayInfo.clusters[i], s.arrayInfo.hards[i])
    ensures CreateVolumePlan(s)[4 * i + 1] == ClaimStorageVolumeCommand(s.volumeInfo.lun[i], s.arrayInfo.storageVolumes[i])
    ensures CreateVolumePlan(s)[4 * i + 2] == CreateExtentCommand(s.volumeInfo.lun[i])
    ensures CreateVolumePlan(s)[4 * i + 3] == CreateLocalDeviceCommand(s.volumeInfo.device[i], s.volumeInfo.extent[i], s.volumeInfo.geometry)
  {
    var blocks := CreateVolumeLegs(s);
    var tail := [CreateVirtualVolumeCommand(AttachDevice(s)), AttachMirrorDeviceCommand(AttachDevice(s), MirrorDevice(s))];
    var plan := CreateVolumePlan(s);
    assert plan == [] + Concat(blocks) + tail;
    ConcatLength(blocks, 4);
    ConcatLength(blocks[..i], 4);
    LegAt([], blocks, tail, i);
    var leg := CreateVolumeLeg(s, i);
    assert blocks[i] == leg;
    var m := |Concat(blocks[..i])|;
    assert m == 4 * i;
    assert plan[0 + m + 0] == leg[0] && plan[0 + m + 1] == leg[1];
    assert plan[0 + m + 2] == leg[2] && plan[0 + m + 3] == leg[3];
  }

  /** The virtual volume and the mirror attachment come after every leg; with a
      single leg the mirror argument is empty. */
  lemma CreateVolumePlanTail(s: ExtraSpecs)
    requires WellFormed(s)
    ensures var n := s.volumeInfo.count;
      |CreateVolumePlan(s)| == 4 * n + 2 &&
      CreateVolumePlan(s)[4 * n] == CreateVirtualVolumeCommand(AttachDevice(s)) &&
      CreateVolumePlan(s)[4 * n + 1] == AttachMirrorDeviceCommand(AttachDevice(s), MirrorDevice(s))
    ensures s.volumeInfo.count == 1 ==>
      CreateVolumePlan(s)[5] == AttachMirrorDeviceCommand(s.volumeInfo.device[0], "")
  {
    ConcatLength(CreateVolumeLegs(s), 4);
  }

  /** Deleting a volume takes three leading calls, then five per leg once the mirror
      date is known. */
  lemma DeleteVolumePlanLength(s: ExtraSpecs, date: Option<string>)
    requires WellFormed(s)
    ensures |DeleteVolumePlan(s, date)| == 3 + (if date.Some? then 5 * s.volumeInfo.count else 0)
    ensures DeleteVolumePlan(s, date)[0] == ConsistencyGroupRemoveVirtualVolumesCommand(s.volumeInfo.cgName, s.volumeInfo.volumeName)
    ensures DeleteVolumePlan(s, date)[1] == DestroyVirtualVolumeCommand(s.volumeInfo.volumeName)
    ensures DeleteVolumePlan(s, date)[2] == DetachMirrorDeviceCommand(DetachDevice(s), MirrorDevice(s))
  {
    ConcatLength(DeleteVolumeLegs(s, date), 5);
  }

  /** Leg i of deleting a volume occupies positions 3 + 5i .. 3 + 5i + 4. */
  lemma DeleteVolumePlanLeg(s: ExtraSpecs, date: Option<string>, i: nat)
    requires WellFormed(s) && i < s.volumeInfo.count && date.Some?
    ensures |DeleteVolumePlan(s, date)| == 3 + 5 * s.volumeInfo.count
    ensures DeleteVolumePlan(s, date)[3 + 5 * i] == DestroyDistributedDevicesCommand(s.volumeInfo.device[i])
    ensures DeleteVolumePlan(s, date)[3 + 5 * i + 1] == DestroyLocalDeviceCommand(s.volumeInfo.device[i] + date.value)
    ensures DeleteVolumePlan(s, date)[3 + 5 * i + 2] == DestroyExtentCommand(s.volumeInfo.extent[i])
    ensures DeleteVolumePlan(s, date)[3 + 5 * i + 3] == UnclaimStorageVolumeCommand(s.volumeInfo.lun[i])
    ensures DeleteVolumePlan(s, date)[3 + 5 * i + 4] == ForgetStorageVolumeCommand(s.arrayInfo.hards[i])
  {
    var blocks := DeleteVolumeLegs(s, date);
    var leg := DeleteVolumeLeg(s, date.value, i);
    assert blocks[i] == leg;
    ConcatAt(blocks, 5, i, 0);
    ConcatAt(blocks, 5, i, 1);
    ConcatAt(blocks, 5, i, 2);
    ConcatAt(blocks, 5, i, 3);
    ConcatAt(blocks, 5, i, 4);
  }

  /** Without a mirror date only the three leading calls are planned. */
  lemma DeleteVolumePlanWithoutDate(s: ExtraSpecs)
    requires WellFormed(s)
    ensures DeleteVolumePlan(s, None) == DeleteVolumeHead(s)
  {
  }

  /** Delete undoes what create did, leg by leg: the extent it destroys is the one create
      built the leg's device from, the LUN it unclaims is the one create claimed, and
      the array it forgets is the one create re-discovered. */
  lemma DeleteVolumeUndoesCreate(s: ExtraSpecs, date: string, i: nat)
    requires WellFormed(s) && i < s.volumeInfo.count
    ensures var create := CreateVolumePlan(s);
      var delete := DeleteVolumePlan(s, Some(date));
      |create| == 4 * s.volumeInfo.count + 2 && |delete| == 3 + 5 * s.volumeInfo.count &&
      create[4 * i + 3] == CreateLocalDeviceCommand(s.volumeInfo.device[i], s.volumeInfo.extent[i], s.volumeInfo.geometry) &&
      delete[3 + 5 * i] == DestroyDistributedDevicesCommand(s.volumeInfo.device[i]) &&
      delete[3 + 5 * i + 2] == DestroyExtentCommand(s.volumeInfo.extent[i]) &&
      create[4 * i + 1] == ClaimStorageVolumeCommand(s.volumeInfo.lun[i], s.arrayInfo.storageVolumes[i]) &&
      delete[3 + 5 * i + 3] == UnclaimStorageVolumeCommand(s.volumeInfo.lun[i]) &&
      create[4 * i] == ReDiscoveryArraysCommand(s.arrayInfo.clusters[i], s.arrayInfo.hards[i]) &&
      delete[3 + 5 * i + 4] == ForgetStorageVolumeCommand(s.arrayInfo.hards[i])
  {
    CreateVolumePlanLeg(s, i);
    DeleteVolumePlanLeg(s, Some(date), i);
  }

  /** For a descriptor built from the sites, leg i of create claims the volume's i-th
      LUN on site i's storage volume, and builds that LUN's device from its extent. */
  lemma CreateVolumePlanNames(s: ExtraSpecs, sites: seq<Topology.Site>, req: Request, protocol: string, count: nat, i: nat)
    requires SpecsDescribe(s, sites, req, protocol, count) && i < count
    ensures WellFormed(s) && |CreateVolumePlan(s)| == 4 * count + 2
    ensures CreateVolumePlan(s)[4 * i] == ReDiscoveryArraysCommand(sites[i].cluster, sites[i].emcSymmetrix)
    ensures CreateVolumePlan(s)[4 * i + 1] == ClaimStorageVolumeCommand(LunName(req.volume.value.id, i), sites[i].vpd83t3)
    ensures CreateVolumePlan(s)[4 * i + 3] ==
      CreateLocalDeviceCommand(DeviceName(LunName(req.volume.value.id, i)), ExtentName(LunName(req.volume.value.id, i)), Geometry)
  {
    SpecsDescribeWellFormed(s, sites, req, protocol, count);
    CreateVolumePlanLeg(s, i);
  }

  /** The group is created on the first site's cluster, given its visibility and detach
      rule, and receives the volume, in that order; deleting it is one destroy. */
  lemma ConsistencyGroupPlanShape(s: ExtraSpecs, sites: seq<Topology.Site>, req: Request, protocol: string, count: nat)
    requires SpecsDescribe(s, sites, req, protocol, count)
    ensures WellFormed(s)
    ensures CreateConsistencyGroupPlan(s) ==
      [CreateConsistencyGroupCommand(CgName(req.group.value.id), sites[0].cluster),
       SetConsistencyGroupVisibilityCommand(CgAttribute(CgName(req.group.value.id)), Visibility),
       SetDetachRuleToConsistencyGroupCommand(sites[0].cluster, Delay, CgName(req.group.value.id)),
       AddVirtualVolumesToConsistencyGroupCommand(VolumeName(req.volume.value.id), CgName(req.group.value.id))]
  {
    SpecsDescribeWellFormed(s, sites, req, protocol, count);
  }

  /** Storage views take five calls per site. */
  lemma ViewPlanLength(s: ExtraSpecs, virtualVolume: string)
    requires WellFormed(s)
    ensures |CreateViewPlan(s, virtualVolume)| == 5 * s.volumeInfo.count
    ensures |DeleteViewPlan(s, virtualVolume)| == 5 * s.volumeInfo.count
  {
    ConcatLength(CreateViewLegs(s, virtualVolume), 5);
    ConcatLength(DeleteViewLegs(s, virtualVolume), 5);
  }

  /** Site i's calls creating its view occupy positions 5i .. 5i + 4. */
  lemma CreateViewPlanLeg(s: ExtraSpecs, virtualVolume: string, i: nat)
    requires WellFormed(s) && i < s.volumeInfo.count
    ensures var plan := CreateViewPlan(s, virtualVolume);
      |plan| == 5 * s.volumeInfo.count &&
      plan[5 * i] == CreateExportStorageViewCommand(s.arrayInfo.clusters[i], s.volumeInfo.svName[i], s.arrayInfo.portGroup[i]) &&
      plan[5 * i + 1] == RegisterExportInitiatorPortCommand(s.arrayInfo.clusters[i], s.volumeInfo.initiatorPort[i], JoinPorts(s.volumeInfo.port[i])) &&
      plan[5 * i + 2] == AddInitiatorPortToExportStorageViewCommand(s.volumeInfo.svName[i], s.volumeInfo.initiatorPort[i]) &&
      plan[5 * i + 3] == AddPortToExportStorageViewCommand(s.volumeInfo.svName[i], s.arrayInfo.portGroup[i]) &&
      plan[5 * i + 4] == AddVirtualVolumeToExportStorageViewCommand(s.volumeInfo.svName[i], virtualVolume)
  {
    var blocks := CreateViewLegs(s, virtualVolume);
    var leg := CreateViewLeg(s, virtualVolume, i);
    assert blocks[i] == leg;
    ConcatAt(blocks, 5, i, 0);
    ConcatAt(blocks, 5, i, 1);
    ConcatAt(blocks, 5, i, 2);
    ConcatAt(blocks, 5, i, 3);
    ConcatAt(blocks, 5, i, 4);
  }

  /** Site i's calls removing its view occupy positions 5i .. 5i + 4. */
  lemma DeleteViewPlanLeg(s: ExtraSpecs, virtualVolume: string, i: nat)
    requires WellFormed(s) && i < s.volumeInfo.count
    ensures var plan := DeleteViewPlan(s, virtualVolume);
      |plan| == 5 * s.volumeInfo.count &&
      plan[5 * i] == RemoveInitiatorPortExportStorageViewCommand(s.volumeInfo.svName[i], s.volumeInfo.initiatorPort[i]) &&
      plan[5 * i + 1] == RemovePortExportStorageViewCommand(s.volumeInfo.svName[i], s.arrayInfo.portGroup[i]) &&
      plan[5 * i + 2] == RemoveVirtualVolumeExportStorageViewCommand(virtualVolume, s.volumeInfo.svName[i]) &&
      plan[5 * i + 3] == DestroyExportStorageViewCommand(s.volumeInfo.svName[i]) &&
      plan[5 * i + 4] == UnregisterExportInitiatorPortCommand(s.volumeInfo.initiatorPort[i])
  {
    var blocks := DeleteViewLegs(s, virtualVolume);
    var leg := DeleteViewLeg(s, virtualVolume, i);
    assert blocks[i] == leg;
    ConcatAt(blocks, 5, i, 0);
    ConcatAt(blocks, 5, i, 1);
    ConcatAt(blocks, 5, i, 2);
    ConcatAt(blocks, 5, i, 3);
    ConcatAt(blocks, 5, i, 4);
  }

  /** Deleting the views undoes creating them, site by site: the view created is the
      view destroyed, the port group added is the one removed, and the initiator port
      registered is the one unregistered. */
  lemma DeleteViewUndoesCreate(s: ExtraSpecs, virtualVolume: string, i: nat)
    requires WellFormed(s) && i < s.volumeInfo.count
    ensures var create := CreateViewPlan(s, virtualVolume);
      var delete := DeleteViewPlan(s, virtualVolume);
      |create| == 5 * s.volumeInfo.count && |delete| == 5 * s.volumeInfo.count &&
      create[5 * i] == CreateExportStorageViewCommand(s.arrayInfo.clusters[i], s.volumeInfo.svName[i], s.arrayInfo.portGroup[i]) &&
      delete[5 * i + 3] == DestroyExportStorageViewCommand(s.volumeInfo.svName[i]) &&
      create[5 * i + 3] == AddPortToExportStorageViewCommand(s.volumeInfo.svName[i], s.arrayInfo.portGroup[i]) &&
      delete[5 * i + 1] == RemovePortExportStorageViewCommand(s.volumeInfo.svName[i], s.arrayInfo.portGroup[i]) &&
      create[5 * i + 1] == RegisterExportInitiatorPortCommand(s.arrayInfo.clusters[i], s.volumeInfo.initiatorPort[i], JoinPorts(s.volumeInfo.port[i])) &&
      delete[5 * i + 4] == UnregisterExportInitiatorPortCommand(s.volumeInfo.initiatorPort[i])
  {
    CreateViewPlanLeg(s, virtualVolume, i);
    DeleteViewPlanLeg(s, virtualVolume, i);
  }

  // ------------------------------------------------------------ capacity survey

  /** `sys.maxsize` on a 64-bit interpreter: the survey's starting minimum. */
  const MaxSize: int := 9223372036854775807

  /** The figures reported for one cluster. */
  datatype Capacity = Capacity(total: int, provisioned: int, free: int)

  /** A record in use or claimed counts toward the total; any other is free. */
  predicate Counted(r: StorageRecord) { r.use == "use" || r.use == "claim" }

  function TotalOf(rs: seq<StorageRecord>): int
    decreases |rs|
  {
    if rs == [] then 0
    else TotalOf(rs[..|rs| - 1]) + (if Counted(rs[|rs| - 1]) then rs[|rs| - 1].capacity else 0)
  }

  function FreeOf(rs: seq<StorageRecord>): int
    decreases |rs|
  {
    if rs == [] then 0
    else FreeOf(rs[..|rs| - 1]) + (if Counted(rs[|rs| - 1]) then 0 else rs[|rs| - 1].capacity)
  }

  /** All the capacity a listing holds, whatever its use. */
  function CapacityOf(rs: seq<StorageRecord>): int
    decreases |rs|
  {
    if rs == [] then 0 else CapacityOf(rs[..|rs| - 1]) + rs[|rs| - 1].capacity
  }

  /** A cluster's figures: provisioned is never incremented, since the branch meant
      for records in use is shadowed by the one before it. */
  function Tally(rs: seq<StorageRecord>): Capacity {
    Capacity(TotalOf(rs), 0, FreeOf(rs))
  }

  /** Total and free partition the listing: every record is counted exactly once. */
  lemma {:induction false} TallyPartitions(rs: seq<StorageRecord>)
    ensures Tally(rs).total + Tally(rs).free == CapacityOf(rs)
    ensures Tally(rs).provisioned == 0
    decreases |rs|
  {
    if rs != [] {
      TallyPartitions(rs[..|rs| - 1]);
    }
  }

  /** Only records outside use and claim reach free: a listing holding nothing else has
      no free capacity, and one holding nothing of them has no total. */
  lemma {:induction false} TallyClassifies(rs: seq<StorageRecord>)
    ensures (forall k :: 0 <= k < |rs| ==> Counted(rs[k])) ==> Tally(rs).free == 0
    ensures (forall k :: 0 <= k < |rs| ==> !Counted(rs[k])) ==> Tally(rs).total == 0
    decreases |rs|
  {
    if rs != [] {
      TallyClassifies(rs[..|rs| - 1]);
    }
  }

  /** `storages_json['attributes']`: no body is not subscriptable, and an object
      without the key has no listing. */
  function Listing(m: Message): (r: Result<seq<StorageRecord>, Error>)
    ensures r.Success? <==> m.Object? && m.attributes.Some?
  {
    match m
    case NoBody => Failure(TypeMismatch("storages_json"))
    case EmptyObject => Failure(KeyMissing("attributes"))
    case Object(_, attributes) =>
      if attributes.None? then Failure(KeyMissing("attributes")) else Success(attributes.value)
  }

  /** The figures of cluster k, the k-th listing request of a survey starting at request base. */
  function ClusterTally(clusters: seq<string>, base: nat, appliance: (nat, Command) -> Response, k: nat): Result<Capacity, Error>
    requires k < |clusters|
  {
    var c := GetDetailsFromStorageCommand(clusters[k]);
    match Verdict(appliance, base + k, c)
    case Fail(e) => Failure(e)
    case Pass =>
      match Listing(appliance(base + k, c).message)
      case Failure(e) => Failure(e)
      case Success(rs) => Success(Tally(rs))
  }

  /** The running minimum after the given clusters: `sys.maxsize`, lowered by each strictly smaller total. */
  function MinTotal(caps: seq<Capacity>): int
    decreases |caps|
  {
    if caps == [] then MaxSize
    else
      var m := MinTotal(caps[..|caps| - 1]);
      if m > caps[|caps| - 1].total then caps[|caps| - 1].total else m
  }

  /** The cluster whose figures the survey reports: the last one that lowered the minimum. */
  function ChosenIndex(caps: seq<Capacity>): (r: Option<nat>)
    ensures r.Some? ==> r.value < |caps|
    decreases |caps|
  {
    if caps == [] then None
    else if MinTotal(caps[..|caps| - 1]) > caps[|caps| - 1].total then Some(|caps| - 1)
    else ChosenIndex(caps[..|caps| - 1])
  }

  function Choice(caps: seq<Capacity>): Option<Capacity> {
    match ChosenIndex(caps)
    case None => None
    case Some(j) => Some(caps[j])
  }

  /** Cluster j has the strictly smallest total among those before it, a total no later
      cluster undercuts, and one below `sys.maxsize`. */
  ghost predicate FirstMinimum(caps: seq<Capacity>, j: nat)
  {
    j < |caps| && caps[j].total < MaxSize &&
    (forall k :: 0 <= k < j ==> caps[k].total > caps[j].total) &&
    (forall k :: j < k < |caps| ==> caps[k].total >= caps[j].total)
  }

  /** How far a survey gets: the figures of the clusters processed, or where it stopped and why. */
  datatype Scan = Scanned(caps: seq<Capacity>) | Stopped(at: nat, error: Error)

  /** What each cluster's listing request would yield, in survey order. */
  function Tallies(clusters: seq<string>, base: nat, appliance: (nat, Command) -> Response): (ts: seq<Result<Capacity, Error>>)
    ensures |ts| == |clusters|
  {
    seq(|clusters|, k requires 0 <= k < |clusters| => ClusterTally(clusters, base, appliance, k))
  }

  /** Cluster k's entry is what its listing request yields. */
  lemma TallyAt(clusters: seq<string>, base: nat, appliance: (nat, Command) -> Response, k: nat)
    requires k < |clusters|
    ensures Tallies(clusters, base, appliance)[k] == ClusterTally(clusters, base, appliance, k)
  {
  }

  /** The survey of the first n clusters, given what each cluster yields: each is
      tallied in turn, and a total that lowers the minimum to zero stops it (the
      reserved percentage divides by it). */
  function ScanClusters(ts: seq<Result<Capacity, Error>>, n: nat): Scan
    requires n <= |ts|
    decreases n
  {
    if n == 0 then Scanned([])
    else
      match ScanClusters(ts, n - 1)
      case Stopped(at, e) => Stopped(at, e)
      case Scanned(caps) =>
        match ts[n - 1]
        case Failure(e) => Stopped(n - 1, e)
        case Success(c) =>
          if MinTotal(caps) > c.total && c.total == 0 then Stopped(n - 1, DivisionByZero)
          else Scanned(caps + [c])
  }

  /** `get_details_from_storage`'s result. With no clusters the closing log line names
      figures no iteration bound. */
  function SurveyOf(ts: seq<Result<Capacity, Error>>): Result<Option<Capacity>, Error> {
    match ScanClusters(ts, |ts|)
    case Stopped(_, e) => Failure(e)
    case Scanned(caps) =>
      if |ts| == 0 then Failure(Unbound("total_capacity_gb")) else Success(Choice(caps))
  }

  /** The number of listing requests a survey issues. */
  function RequestsOf(ts: seq<Result<Capacity, Error>>): (r: nat)
    ensures r <= |ts|
  {
    match ScanClusters(ts, |ts|)
    case Stopped(at, _) => ScanStopsAtFirstFailure(ts, |ts|); at + 1
    case Scanned(_) => |ts|
  }

  /** The listing requests for the first n clusters, in order. */
  function Requests(clusters: seq<string>, n: nat): (r: seq<Command>)
    requires n <= |clusters|
    ensures |r| == n
    ensures forall k :: 0 <= k < n ==> r[k] == GetDetailsFromStorageCommand(clusters[k])
  {
    seq(n, k requires 0 <= k < n => GetDetailsFromStorageCommand(clusters[k]))
  }

  /** The gateway's log holds, after log0, the listing requests for the first n clusters. */
  ghost predicate Surveyed(clusters: seq<string>, log0: seq<Command>, log: seq<Command>, n: nat)
  {
    n <= |clusters| && log == log0 + Requests(clusters, n)
  }

  /** One more cluster, one more listing request. */
  lemma RequestsSnoc(clusters: seq<string>, log0: seq<Command>, log: seq<Command>, n: nat)
    requires Surveyed(clusters, log0, log, n) && n < |clusters|
    ensures Surveyed(clusters, log0, log + [GetDetailsFromStorageCommand(clusters[n])], n + 1)
  {
    assert Requests(clusters, n + 1) == Requests(clusters, n) + [GetDetailsFromStorageCommand(clusters[n])];
  }

  /** One more cluster: a failed one, or one whose total lowers the minimum to zero,
      stops the survey there; any other extends it, and the minimum and the chosen
      figures move to it exactly when its total is strictly smaller. */
  lemma ScanStep(ts: seq<Result<Capacity, Error>>, n: nat, caps: seq<Capacity>)
    requires n < |ts| && ScanClusters(ts, n) == Scanned(caps)
    ensures ts[n].Failure? ==> ScanClusters(ts, n + 1) == Stopped(n, ts[n].error)
    ensures ts[n].Success? && MinTotal(caps) > ts[n].value.total && ts[n].value.total == 0 ==>
      ScanClusters(ts, n + 1) == Stopped(n, DivisionByZero)
    ensures ts[n].Success? && !(MinTotal(caps) > ts[n].value.total && ts[n].value.total == 0) ==>
      var c := ts[n].value;
      ScanClusters(ts, n + 1) == Scanned(caps + [c]) &&
      MinTotal(caps + [c]) == (if MinTotal(caps) > c.total then c.total else MinTotal(caps)) &&
      Choice(caps + [c]) == (if MinTotal(caps) > c.total then Some(c) else Choice(caps))
  {
    if ts[n].Success? {
      var c := ts[n].value;
      assert (caps + [c])[..|caps|] == caps;
    }
  }

  /** Once stopped, a survey stays stopped where it stopped. */
  lemma {:induction false} ScanStaysStopped(ts: seq<Result<Capacity, Error>>, n: nat, m: nat)
    requires n <= m <= |ts| && ScanClusters(ts, n).Stopped?
    ensures ScanClusters(ts, m) == ScanClusters(ts, n)
    decreases m
  {
    if m > n {
      ScanStaysStopped(ts, n, m - 1);
    }
  }

  /** A survey stopped at cluster i fails with that cluster's error, having issued a
      listing request for each cluster up to and including i. */
  lemma ScanStopsThere(ts: seq<Result<Capacity, Error>>, i: nat)
    requires i < |ts| && ScanClusters(ts, i + 1).Stopped? && ScanClusters(ts, i + 1).at == i
    ensures SurveyOf(ts) == Failure(ScanClusters(ts, i + 1).error)
    ensures RequestsOf(ts) == i + 1
  {
    ScanStaysStopped(ts, i + 1, |ts|);
  }

  /** A survey stops at the first cluster whose step fails, having issued one request
      more than the clusters it completed, and no more than there are clusters. */
  lemma {:induction false} ScanStopsAtFirstFailure(ts: seq<Result<Capacity, Error>>, n: nat)
    requires n <= |ts| && ScanClusters(ts, n).Stopped?
    ensures var at := ScanClusters(ts, n).at;
      at < n && ScanClusters(ts, at).Scanned? && ScanClusters(ts, at + 1) == ScanClusters(ts, n)
    decreases n
  {
    if ScanClusters(ts, n - 1).Stopped? {
      ScanStopsAtFirstFailure(ts, n - 1);
    }
  }

  /** A survey that got through n clusters holds the tally of each of them, in order. */
  lemma {:induction false} ScanTallies(ts: seq<Result<Capacity, Error>>, n: nat)
    requires n <= |ts| && ScanClusters(ts, n).Scanned?
    ensures var caps := ScanClusters(ts, n).caps;
      |caps| == n && forall k :: 0 <= k < n ==> ts[k] == Success(caps[k])
    decreases n
  {
    if n > 0 {
      ScanTallies(ts, n - 1);
      var caps := ScanClusters(ts, n - 1).caps;
      assert ScanClusters(ts, n).caps == caps + [ts[n - 1].value];
    }
  }

  /** The running minimum is the smallest total, capped at `sys.maxsize`, and the chosen
      cluster holds it and undercuts every cluster before it. */
  lemma {:induction false} MinTotalChosen(caps: seq<Capacity>)
    ensures MinTotal(caps) <= MaxSize
    ensures forall k :: 0 <= k < |caps| ==> MinTotal(caps) <= caps[k].total
    ensures ChosenIndex(caps).None? ==> MinTotal(caps) == MaxSize
    ensures ChosenIndex(caps).Some? ==>
      var j := ChosenIndex(caps).value;
      MinTotal(caps) == caps[j].total && caps[j].total < MaxSize &&
      forall k :: 0 <= k < j ==> caps[k].total > caps[j].total
    decreases |caps|
  {
    if caps != [] {
      var front := caps[..|caps| - 1];
      MinTotalChosen(front);
      assert forall k :: 0 <= k < |front| ==> front[k] == caps[k];
    }
  }

  /** The survey reports the first cluster with the strictly smallest total below
      `sys.maxsize`, and nothing when every total reaches it. */
  lemma ChoiceIsFirstMinimum(caps: seq<Capacity>)
    ensures ChosenIndex(caps).None? <==> forall k :: 0 <= k < |caps| ==> caps[k].total >= MaxSize
    ensures forall j: nat :: ChosenIndex(caps) == Some(j) <==> FirstMinimum(caps, j)
  {
    MinTotalChosen(caps);
    forall j: nat | FirstMinimum(caps, j)
      ensures ChosenIndex(caps) == Some(j)
    {
      var i := ChosenIndex(caps).value;
      assert FirstMinimum(caps, i);
    }
  }

  /** A completed survey never ends with a zero minimum: a zero total that would
      lower the minimum stops it. */
  lemma {:induction false} ScannedMinimumNonZero(ts: seq<Result<Capacity, Error>>, n: nat)
    requires n <= |ts| && ScanClusters(ts, n).Scanned?
    ensures MinTotal(ScanClusters(ts, n).caps) != 0
    decreases n
  {
    if n > 0 {
      ScannedMinimumNonZero(ts, n - 1);
      var caps := ScanClusters(ts, n - 1).caps;
      var c := ts[n - 1].value;
      assert ScanClusters(ts, n).caps == caps + [c];
      assert (caps + [c])[..|caps|] == caps;
    }
  }

  /** What a successful survey reports: every cluster was fetched, and the figures are
      those of the first cluster with the strictly smallest, non-zero total below
      `sys.maxsize`; nothing is reported when no total is below it. */
  lemma SurveyReportsFirstMinimum(ts: seq<Result<Capacity, Error>>)
    requires SurveyOf(ts).Success?
    ensures |ts| > 0 && RequestsOf(ts) == |ts|
    ensures var caps := ScanClusters(ts, |ts|).caps;
      var reported := SurveyOf(ts).value;
      |caps| == |ts| &&
      (forall k :: 0 <= k < |ts| ==> ts[k] == Success(caps[k])) &&
      (reported.None? <==> forall k :: 0 <= k < |caps| ==> caps[k].total >= MaxSize) &&
      (forall j: nat :: FirstMinimum(caps, j) ==> reported == Some(caps[j])) &&
      (reported.Some? ==> reported.value.total != 0)
  {
    var caps := ScanClusters(ts, |ts|).caps;
    ScanTallies(ts, |ts|);
    ChoiceIsFirstMinimum(caps);
    MinTotalChosen(caps);
    ScannedMinimumNonZero(ts, |ts|);
  }

  /** The figures a survey of the gateway's listings reports never count anything as provisioned. */
  lemma SurveyProvisionsNothing(clusters: seq<string>, base: nat, appliance: (nat, Command) -> Response)
    requires SurveyOf(Tallies(clusters, base, appliance)).Success?
    requires SurveyOf(Tallies(clusters, base, appliance)).value.Some?
    ensures SurveyOf(Tallies(clusters, base, appliance)).value.value.provisioned == 0
  {
    var ts := Tallies(clusters, base, appliance);
    var caps := ScanClusters(ts, |ts|).caps;
    ScanTallies(ts, |ts|);
    var j := ChosenIndex(caps).value;
    TallyAt(clusters, base, appliance, j);
  }

  /** A survey of no clusters fails: the closing log line reads totals never bound. */
  lemma SurveyOfNoClusters()
    ensures SurveyOf([]) == Failure(Unbound("total_capacity_gb"))
    ensures RequestsOf([]) == 0
  {
  }

  /** A zero total at the first cluster stops the survey there: nothing else is fetched. */
  lemma SurveyZeroFirstTotal(ts: seq<Result<Capacity, Error>>)
    requires |ts| > 0 && ts[0].Success? && ts[0].value.total == 0
    ensures SurveyOf(ts) == Failure(DivisionByZero)
    ensures RequestsOf(ts) == 1
  {
    assert ScanClusters(ts, 1) == Stopped(0, DivisionByZero);
    ScanStopsThere(ts, 0);
  }

  /** A refused or unreadable listing stops the survey at that cluster with its error,
      once the clusters before it went through. */
  lemma SurveyFailsAtFailedCluster(ts: seq<Result<Capacity, Error>>, i: nat)
    requires i < |ts| && ScanClusters(ts, i).Scanned? && ts[i].Failure?
    ensures SurveyOf(ts) == Failure(ts[i].error)
    ensures RequestsOf(ts) == i + 1
  {
    ScanStopsThere(ts, i);
  }

  /** The inner loop of `get_details_from_storage` over one cluster's listing: records
      in use or claimed add to the total, the rest to the free capacity. */
  method TallyStorage(storageList: seq<StorageRecord>) returns (c: Capacity)
    ensures c == Tally(storageList)
  {
    var total := 0;
    var provisioned := 0;
    var free := 0;
    var k := 0;
    while k < |storageList|
      invariant 0 <= k <= |storageList|
      invariant total == TotalOf(storageList[..k]) && free == FreeOf(storageList[..k]) && provisioned == 0
    {
      var storage := storageList[k];
      assert storageList[..k + 1][..k] == storageList[..k];
      if storage.use == "use" || storage.use == "claim" {
        total := total + storage.capacity;
      } else if storage.use == "use" {
        // Unreachable: the test before already took every record in use.
        assert false;
      } else {
        free := free + storage.capacity;
      }
      k := k + 1;
    }
    assert storageList[..k] == storageList;
    c := Capacity(total, provisioned, free);
  }

  // ------------------------------------------------------------ the adapter

  /** `VPLEXAdapter`: the gateway it drives, and the date of the last mirror attachment
      (as the text the device names carry). */
  class VplexAdapter {
    const rest: VplexRest
    var mirrorDeviceDate: Option<string>

    constructor (rest: VplexRest)
      ensures this.rest == rest && mirrorDeviceDate == None
    {
      this.rest := rest;
      mirrorDeviceDate := None;
    }

    /** `create_volume`: the plan is issued until a call is refused; the mirror date is
        recorded, as `now`, only once the mirror is attached. */
    method CreateVolume(s: ExtraSpecs, now: string) returns (o: Outcome<Error>)
      requires WellFormed(s)
      modifies rest`log, this`mirrorDeviceDate
      ensures Ran(CreateVolumePlan(s), old(rest.log), rest.appliance, rest.log, o)
      ensures mirrorDeviceDate == if o.Pass? then Some(now) else old(mirrorDeviceDate)
    {
      ghost var log0 := rest.log;
      ghost var plan := CreateVolumePlan(s);
      var clusters := s.arrayInfo.clusters;
      var hards := s.arrayInfo.hards;
      var storageVolumes := s.arrayInfo.storageVolumes;
      var luns := s.volumeInfo.lun;
      var devices := s.volumeInfo.device;
      var extents := s.volumeInfo.extent;
      var geometry := s.volumeInfo.geometry;
      var size := s.volumeInfo.count;
      var attachDevice := "";
      var mirrorDevice := "";
      var index := 0;
      ghost var n := 0;
      while index < size
        invariant 0 <= index <= size && n == 4 * index
        invariant Partial(plan, log0, rest.appliance, rest.log, n)
        invariant attachDevice == if index > 0 then devices[0] else ""
        invariant mirrorDevice == if index > 1 then devices[1] else ""
        invariant mirrorDeviceDate == old(mirrorDeviceDate)
      {
        if index == 0 {
          attachDevice := devices[index];
        }
        if index == 1 {
          mirrorDevice := devices[index];
        }
        CreateVolumePlanLeg(s, index);
        o := CreateVolumeLegCalls(plan, log0, n, clusters[index], hards[index], luns[index],
                                  storageVolumes[index], devices[index], extents[index], geometry);
        if o.Fail? { return; }
        index := index + 1;
        n := n + 4;
      }
      CreateVolumePlanTail(s);
      o := AttachCalls(plan, log0, n, attachDevice, mirrorDevice);
      if o.Fail? { return; }
      mirrorDeviceDate := Some(now);
    }

    /** The end of `create_volume`: the virtual volume on the first leg's device, and
        the mirror attached to it; these are the plan's last two calls. */
    method AttachCalls(ghost plan: seq<Command>, ghost log0: seq<Command>, ghost n: nat,
                       attachDevice: string, mirrorDevice: string)
      returns (o: Outcome<Error>)
      requires Partial(plan, log0, rest.appliance, rest.log, n) && n + 2 == |plan|
      requires plan[n] == CreateVirtualVolumeCommand(attachDevice)
      requires plan[n + 1] == AttachMirrorDeviceCommand(attachDevice, mirrorDevice)
      modifies rest`log
      ensures Ran(plan, log0, rest.appliance, rest.log, o)
    {
      Accept(plan, log0, rest.appliance, rest.log, n);
      o := rest.CreateVirtualVolume(attachDevice);
      if o.Fail? { return; }
      Accept(plan, log0, rest.appliance, rest.log, n + 1);
      o := rest.AttachMirrorDevice(attachDevice, mirrorDevice);
      if o.Pass? {
        assert plan[..n + 2] == plan;
      }
    }

    /** One leg of `create_volume`: the array is re-discovered, the LUN claimed, and its
        extent and local device built. */
    method CreateVolumeLegCalls(ghost plan: seq<Command>, ghost log0: seq<Command>, ghost n: nat,
                                cluster: string, hard: string, lun: string, storageVolume: string,
                                device: string, extent: string, geometry: string)
      returns (o: Outcome<Error>)
      requires Partial(plan, log0, rest.appliance, rest.log, n) && n + 4 <= |plan|
      requires plan[n] == ReDiscoveryArraysCommand(cluster, hard)
      requires plan[n + 1] == ClaimStorageVolumeCommand(lun, storageVolume)
      requires plan[n + 2] == CreateExtentCommand(lun)
      requires plan[n + 3] == CreateLocalDeviceCommand(device, extent, geometry)
      modifies rest`log
      ensures if o.Pass? then Partial(plan, log0, rest.appliance, rest.log, n + 4)
              else Ran(plan, log0, rest.appliance, rest.log, o)
    {
      Accept(plan, log0, rest.appliance, rest.log, n);
      o := rest.ReDiscoveryArrays(cluster, hard);
      if o.Fail? { return; }
      Accept(plan, log0, rest.appliance, rest.log, n + 1);
      o := rest.ClaimStorageVolume(lun, storageVolume);
      if o.Fail? { return; }
      Accept(plan, log0, rest.appliance, rest.log, n + 2);
      o := rest.CreateExtent(lun);
      if o.Fail? { return; }
      Accept(plan, log0, rest.appliance, rest.log, n + 3);
      o := rest.CreateLocalDevice(device, extent, geometry);
    }

    /** `delete_volume`: the three leading calls, then per leg the five destroys. Which
        device is detached follows the first loop's always-true test. Any failure,
        including a device name that cannot be formed for want of a mirror date,
        surfaces as the one backend exception; `verdict` is how the planned calls ended. */
    method DeleteVolume(s: ExtraSpecs) returns (o: Outcome<Error>, ghost verdict: Outcome<Error>)
      requires WellFormed(s)
      modifies rest`log
      ensures Ran(DeleteVolumePlan(s, mirrorDeviceDate), old(rest.log), rest.appliance, rest.log, verdict)
      ensures o == if verdict.Pass? && (mirrorDeviceDate.Some? || s.volumeInfo.count == 0) then Pass else Fail(DeleteFailed)
    {
      var date := mirrorDeviceDate;
      ghost var log0 := rest.log;
      ghost var plan := DeleteVolumePlan(s, date);
      DeleteVolumePlanLength(s, date);
      var volumeName := s.volumeInfo.volumeName;
      var cgName := s.volumeInfo.cgName;
      var devices := s.volumeInfo.device;
      var attachDevice := "";
      var mirrorDevice := "";
      var size := s.volumeInfo.count;
      var index := 0;
      while index < size
        invariant 0 <= index <= size
        invariant attachDevice == if index > 0 then devices[index - 1] else ""
        invariant mirrorDevice == if index > 1 then devices[1] else ""
      {
        // The test is `index == index`, as written: it always holds.
        if index == index {
          attachDevice := devices[index];
        }
        if index == 1 {
          mirrorDevice := devices[index];
        }
        index := index + 1;
      }
      var reply := RemoveVolumeCalls(plan, log0, cgName, volumeName, attachDevice, mirrorDevice);
      verdict := reply;
      if reply.Fail? { return Fail(DeleteFailed), verdict; }
      o, verdict := DestroyLegs(s, date, plan, log0);
    }

    /** The legs of `delete_volume`, each after the leading calls went through. */
    method DestroyLegs(s: ExtraSpecs, date: Option<string>, ghost plan: seq<Command>, ghost log0: seq<Command>)
      returns (o: Outcome<Error>, ghost verdict: Outcome<Error>)
      requires WellFormed(s) && plan == DeleteVolumePlan(s, date)
      requires Partial(plan, log0, rest.appliance, rest.log, 3)
      modifies rest`log
      ensures Ran(plan, log0, rest.appliance, rest.log, verdict)
      ensures o == if verdict.Pass? && (date.Some? || s.volumeInfo.count == 0) then Pass else Fail(DeleteFailed)
    {
      DeleteVolumePlanLength(s, date);
      var devices := s.volumeInfo.device;
      var size := s.volumeInfo.count;
      verdict := Pass;
      var index := 0;
      ghost var n := 3;
      while index < size
        invariant 0 <= index <= size && n == 3 + 5 * index
        invariant date.None? ==> index == 0
        invariant Partial(plan, log0, rest.appliance, rest.log, n)
      {
        if index == index {
          if date.None? {
            // The device name is the name plus the date; with no date it cannot be formed.
            assert plan[..3] == plan;
            return Fail(DeleteFailed), Pass;
          }
          var deviceNameDate := devices[index] + date.value;
          var reply := DeleteVolumeLegCalls(s, date, index, plan, log0, n, deviceNameDate);
          if reply.Fail? { return Fail(DeleteFailed), reply; }
        } else {
          // Unreachable: the source would destroy the undated local device here.
          assert false;
        }
        index := index + 1;
        n := n + 5;
      }
      assert plan[..n] == plan;
      o := Pass;
    }

    /** The start of `delete_volume`: the volume leaves its group and is destroyed, and
        the mirror is detached; these are the plan's first three calls. */
    method RemoveVolumeCalls(ghost plan: seq<Command>, ghost log0: seq<Command>,
                             cgName: string, volumeName: string, attachDevice: string, mirrorDevice: string)
      returns (o: Outcome<Error>)
      requires rest.log == log0 && 3 <= |plan|
      requires plan[0] == ConsistencyGroupRemoveVirtualVolumesCommand(cgName, volumeName)
      requires plan[1] == DestroyVirtualVolumeCommand(volumeName)
      requires plan[2] == DetachMirrorDeviceCommand(attachDevice, mirrorDevice)
      modifies rest`log
      ensures if o.Pass? then Partial(plan, log0, rest.appliance, rest.log, 3)
              else Ran(plan, log0, rest.appliance, rest.log, o)
    {
      assert Partial(plan, log0, rest.appliance, rest.log, 0);
      Accept(plan, log0, rest.appliance, rest.log, 0);
      o := rest.ConsistencyGroupRemoveVirtualVolumes(cgName, volumeName);
      if o.Fail? { return; }
      Accept(plan, log0, rest.appliance, rest.log, 1);
      o := rest.DestroyVirtualVolume(volumeName);
      if o.Fail? { return; }
      Accept(plan, log0, rest.appliance, rest.log, 2);
      o := rest.DetachMirrorDevice(attachDevice, mirrorDevice);
    }

    /** One leg of `delete_volume`: the distributed and the dated local device, the
        extent, the LUN's claim, and the array held for it. */
    method DeleteVolumeLegCalls(s: ExtraSpecs, date: Option<string>, i: nat,
                                ghost plan: seq<Command>, ghost log0: seq<Command>, ghost n: nat,
                                deviceNameDate: string)
      returns (o: Outcome<Error>)
      requires WellFormed(s) && i < s.volumeInfo.count && date.Some? && plan == DeleteVolumePlan(s, date)
      requires n == 3 + 5 * i && Partial(plan, log0, rest.appliance, rest.log, n)
      requires deviceNameDate == s.volumeInfo.device[i] + date.value
      modifies rest`log
      ensures if o.Pass? then Partial(plan, log0, rest.appliance, rest.log, n + 5)
              else Ran(plan, log0, rest.appliance, rest.log, o)
    {
      DeleteVolumePlanLeg(s, date, i);
      var device := s.volumeInfo.device[i];
      var extent := s.volumeInfo.extent[i];
      var lun := s.volumeInfo.lun[i];
      var hard := s.arrayInfo.hards[i];
      Accept(plan, log0, rest.appliance, rest.log, n);
      o := rest.DestroyDistributedDevices(device);
      if o.Fail? { return; }
      Accept(plan, log0, rest.appliance, rest.log, n + 1);
      o := rest.DestroyLocalDevice(deviceNameDate);
      if o.Fail? { return; }
      Accept(plan, log0, rest.appliance, rest.log, n + 2);
      o := rest.DestroyExtent(extent);
      if o.Fail? { return; }
      Accept(plan, log0, rest.appliance, rest.log, n + 3);
      o := rest.UnclaimStorageVolume(lun);
      if o.Fail? { return; }
      Accept(plan, log0, rest.appliance, rest.log, n + 4);
      o := rest.ForgetStorageVolume(hard);
    }

    /** `create_consistencygroup`: the first site's cluster, then the four calls in order. */
    method CreateConsistencyGroup(s: ExtraSpecs) returns (o: Outcome<Error>)
      requires WellFormed(s)
      modifies rest`log
      ensures Ran(CreateConsistencyGroupPlan(s), old(rest.log), rest.appliance, rest.log, o)
    {
      ghost var log0 := rest.log;
      ghost var plan := CreateConsistencyGroupPlan(s);
      var cgName := s.volumeInfo.cgName;
      var clusters := s.arrayInfo.clusters;
      var attributes := s.volumeInfo.attributes;
      var visibility := s.volumeInfo.visibility;
      var delay := s.volumeInfo.delay;
      var volumeName := s.volumeInfo.volumeName;
      var clusterName := "";
      var size := s.volumeInfo.count;
      var index := 0;
      while index < size
        invariant 0 <= index <= size
        invariant clusterName == if index > 0 then clusters[0] else ""
      {
        if index == 0 {
          clusterName := clusters[index];
        }
        index := index + 1;
      }
      assert Partial(plan, log0, rest.appliance, rest.log, 0);
      Accept(plan, log0, rest.appliance, rest.log, 0);
      o := rest.CreateConsistencyGroup(cgName, clusterName);
      if o.Fail? { return; }
      Accept(plan, log0, rest.appliance, rest.log, 1);
      o := rest.SetConsistencyGroupVisibility(attributes, visibility);
      if o.Fail? { return; }
      Accept(plan, log0, rest.appliance, rest.log, 2);
      o := rest.SetDetachRuleToConsistencyGroup(clusterName, delay, cgName);
      if o.Fail? { return; }
      Accept(plan, log0, rest.appliance, rest.log, 3);
      o := rest.AddVirtualVolumesToConsistencyGroup(volumeName, cgName);
      if o.Pass? {
        assert plan[..4] == plan;
      }
    }

    /** `delete_consistency_group`: one destroy of the group. */
    method DeleteConsistencyGroup(s: ExtraSpecs) returns (o: Outcome<Error>)
      modifies rest`log
      ensures rest.log == old(rest.log) + [DestroyConsistencyGroupCommand(s.volumeInfo.cgName)]
      ensures o == Verdict(rest.appliance, old(|rest.log|), DestroyConsistencyGroupCommand(s.volumeInfo.cgName))
    {
      var cgName := s.volumeInfo.cgName;
      o := rest.DestroyConsistencyGroup(cgName);
    }

    /** `check_and_create_storage_view`: per site, the view, its initiator port, and
        the port group and virtual volume it exports. */
    method CheckAndCreateStorageView(s: ExtraSpecs, virtualVolume: string) returns (o: Outcome<Error>)
      requires WellFormed(s)
      modifies rest`log
      ensures Ran(CreateViewPlan(s, virtualVolume), old(rest.log), rest.appliance, rest.log, o)
    {
      ghost var log0 := rest.log;
      ghost var plan := CreateViewPlan(s, virtualVolume);
      ViewPlanLength(s, virtualVolume);
      var clusters := s.arrayInfo.clusters;
      var svNames := s.volumeInfo.svName;
      var ports := s.arrayInfo.portGroup;
      var initiatorPorts := s.volumeInfo.initiatorPort;
      var port := s.volumeInfo.port;
      var size := s.volumeInfo.count;
      o := Pass;
      var index := 0;
      while index < size
        invariant 0 <= index <= size
        invariant Partial(plan, log0, rest.appliance, rest.log, 5 * index)
      {
        CreateViewPlanLeg(s, virtualVolume, index);
        o := CreateViewLegCalls(plan, log0, 5 * index, clusters[index], svNames[index], ports[index],
                                initiatorPorts[index], port[index], virtualVolume);
        if o.Fail? { return; }
        index := index + 1;
      }
      assert plan[..5 * index] == plan;
      o := Pass;
    }

    /** One site of `check_and_create_storage_view`. */
    method CreateViewLegCalls(ghost plan: seq<Command>, ghost log0: seq<Command>, ghost n: nat,
                              cluster: string, svName: string, portGroup: string, initiatorPort: string,
                              port: seq<string>, virtualVolume: string)
      returns (o: Outcome<Error>)
      requires Partial(plan, log0, rest.appliance, rest.log, n) && n + 5 <= |plan|
      requires plan[n] == CreateExportStorageViewCommand(cluster, svName, portGroup)
      requires plan[n + 1] == RegisterExportInitiatorPortCommand(cluster, initiatorPort, JoinPorts(port))
      requires plan[n + 2] == AddInitiatorPortToExportStorageViewCommand(svName, initiatorPort)
      requires plan[n + 3] == AddPortToExportStorageViewCommand(svName, portGroup)
      requires plan[n + 4] == AddVirtualVolumeToExportStorageViewCommand(svName, virtualVolume)
      modifies rest`log
      ensures if o.Pass? then Partial(plan, log0, rest.appliance, rest.log, n + 5)
              else Ran(plan, log0, rest.appliance, rest.log, o)
    {
      Accept(plan, log0, rest.appliance, rest.log, n);
      o := rest.CreateExportStorageView(cluster, svName, portGroup);
      if o.Fail? { return; }
      Accept(plan, log0, rest.appliance, rest.log, n + 1);
      o := rest.RegisterExportInitiatorPort(cluster, initiatorPort, port);
      if o.Fail? { return; }
      Accept(plan, log0, rest.appliance, rest.log, n + 2);
      o := rest.AddInitiatorPortToExportStorageView(svName, initiatorPort);
      if o.Fail? { return; }
      Accept(plan, log0, rest.appliance, rest.log, n + 3);
      o := rest.AddPortToExportStorageView(svName, portGroup);
      if o.Fail? { return; }
      Accept(plan, log0, rest.appliance, rest.log, n + 4);
      o := rest.AddVirtualVolumeToExportStorageView(svName, virtualVolume);
    }

    /** `check_and_delete_storage_view`: per site, the exports are removed, then the view
        and the initiator port. */
    method CheckAndDeleteStorageView(s: ExtraSpecs, virtualVolume: string) returns (o: Outcome<Error>)
      requires WellFormed(s)
      modifies rest`log
      ensures Ran(DeleteViewPlan(s, virtualVolume), old(rest.log), rest.appliance, rest.log, o)
    {
      ghost var log0 := rest.log;
      ghost var plan := DeleteViewPlan(s, virtualVolume);
      ViewPlanLength(s, virtualVolume);
      var svNames := s.volumeInfo.svName;
      var ports := s.arrayInfo.portGroup;
      var initiatorPorts := s.volumeInfo.initiatorPort;
      var size := s.volumeInfo.count;
      o := Pass;
      var index := 0;
      while index < size
        invariant 0 <= index <= size
        invariant Partial(plan, log0, rest.appliance, rest.log, 5 * index)
      {
        DeleteViewPlanLeg(s, virtualVolume, index);
        o := DeleteViewLegCalls(plan, log0, 5 * index, svNames[index], ports[index], initiatorPorts[index], virtualVolume);
        if o.Fail? { return; }
        index := index + 1;
      }
      assert plan[..5 * index] == plan;
      o := Pass;
    }

    /** One site of `check_and_delete_storage_view`. */
    method DeleteViewLegCalls(ghost plan: seq<Command>, ghost log0: seq<Command>, ghost n: nat,
                              svName: string, portGroup: string, initiatorPort: string, virtualVolume: string)
      returns (o: Outcome<Error>)
      requires Partial(plan, log0, rest.appliance, rest.log, n) && n + 5 <= |plan|
      requires plan[n] == RemoveInitiatorPortExportStorageViewCommand(svName, initiatorPort)
      requires plan[n + 1] == RemovePortExportStorageViewCommand(svName, portGroup)
      requires plan[n + 2] == RemoveVirtualVolumeExportStorageViewCommand(virtualVolume, svName)
      requires plan[n + 3] == DestroyExportStorageViewCommand(svName)
      requires plan[n + 4] == UnregisterExportInitiatorPortCommand(initiatorPort)
      modifies rest`log
      ensures if o.Pass? then Partial(plan, log0, rest.appliance, rest.log, n + 5)
              else Ran(plan, log0, rest.appliance, rest.log, o)
    {
      Accept(plan, log0, rest.appliance, rest.log, n);
      o := rest.RemoveInitiatorPortExportStorageView(svName, initiatorPort);
      if o.Fail? { return; }
      Accept(plan, log0, rest.appliance, rest.log, n + 1);
      o := rest.RemovePortExportStorageView(svName, portGroup);
      if o.Fail? { return; }
      Accept(plan, log0, rest.appliance, rest.log, n + 2);
      o := rest.RemoveVirtualVolumeExportStorageView(virtualVolume, svName);
      if o.Fail? { return; }
      Accept(plan, log0, rest.appliance, rest.log, n + 3);
      o := rest.DestroyExportStorageView(svName);
      if o.Fail? { return; }
      Accept(plan, log0, rest.appliance, rest.log, n + 4);
      o := rest.UnregisterExportInitiatorPort(initiatorPort);
    }

    /** One cluster of `get_details_from_storage`: its listing is fetched, checked and tallied. */
    method FetchCluster(clusters: seq<string>, ghost base: nat, index: nat) returns (t: Result<Capacity, Error>)
      requires index < |clusters| && |rest.log| == base + index
      modifies rest`log
      ensures rest.log == old(rest.log) + [GetDetailsFromStorageCommand(clusters[index])]
      ensures t == ClusterTally(clusters, base, rest.appliance, index)
    {
      var reply := rest.GetDetailsFromStorage(clusters[index]);
      if reply.Failure? {
        return Failure(reply.error);
      }
      var listing := Listing(reply.value);
      if listing.Failure? {
        return Failure(listing.error);
      }
      var c := TallyStorage(listing.value);
      t := Success(c);
    }

    /** `get_details_from_storage`: each cluster's listing is fetched and tallied in
        turn, the running minimum kept, and the figures of the cluster that set it reported. */
    method GetDetailsFromStorage(clusters: seq<string>) returns (r: Result<Option<Capacity>, Error>)
      modifies rest`log
      ensures r == SurveyOf(Tallies(clusters, old(|rest.log|), rest.appliance))
      ensures rest.log == old(rest.log) + Requests(clusters, RequestsOf(Tallies(clusters, old(|rest.log|), rest.appliance)))
    {
      ghost var base := |rest.log|;
      ghost var ts := Tallies(clusters, base, rest.appliance);
      forall k | 0 <= k < |clusters|
        ensures ts[k] == ClusterTally(clusters, base, rest.appliance, k)
      {
        TallyAt(clusters, base, rest.appliance, k);
      }
      r := ScanListings(clusters, base, ts);
    }

    /** The loop of `get_details_from_storage`, over what each cluster's listing request
        yields (ts), with a request issued per cluster until the survey stops. */
    method ScanListings(clusters: seq<string>, ghost base: nat, ghost ts: seq<Result<Capacity, Error>>)
      returns (r: Result<Option<Capacity>, Error>)
      requires |rest.log| == base && |ts| == |clusters|
      requires forall k {:trigger ClusterTally(clusters, base, rest.appliance, k)} ::
        0 <= k < |clusters| ==> ts[k] == ClusterTally(clusters, base, rest.appliance, k)
      modifies rest`log
      ensures r == SurveyOf(ts)
      ensures rest.log == old(rest.log) + Requests(clusters, RequestsOf(ts))
    {
      ghost var log0 := rest.log;
      var size := |clusters|;
      var minStorage := MaxSize;
      var detail: Option<Capacity> := None;
      ghost var caps: seq<Capacity> := [];
      var index := 0;
      while index < size
        invariant 0 <= index <= size && |rest.log| == base + index
        invariant ScanClusters(ts, index) == Scanned(caps)
        invariant minStorage == MinTotal(caps) && detail == Choice(caps)
        invariant Surveyed(clusters, log0, rest.log, index)
      {
        RequestsSnoc(clusters, log0, rest.log, index);
        ScanStep(ts, index, caps);
        var tally := FetchCluster(clusters, base, index);
        assert ts[index] == tally;
        if tally.Failure? {
          ScanStopsThere(ts, index);
          return Failure(tally.error);
        }
        var c := tally.value;
        var total := c.total;
        if minStorage > total {
          minStorage := total;
          if total == 0 {
            // The reserved percentage divides the free capacity by this total.
            ScanStopsThere(ts, index);
            return Failure(DivisionByZero);
          }
          detail := Some(c);
        }
        caps := caps + [c];
        index := index + 1;
      }
      if size == 0 {
        return Failure(Unbound("total_capacity_gb"));
      }
      r := Success(detail);
    }
  }
}
