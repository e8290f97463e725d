/** `VMAXCommon`'s descriptor building: the per-site topology lists, every backend
    resource name of a volume, and the setup step that combines them. */
module Common {
  import opened Basics
  import opened Text
  import opened Topology
  import opened Utils
  import opened Rest

  // ------------------------------------------------------------ descriptors

  /** The fields of the request objects the descriptor reads. */
  datatype Volume = Volume(id: string)
  datatype Group = Group(id: string)
  datatype Connector = Connector(host: string, wwpn: seq<string>)

  /** The arguments of `_initial_setup(volume, group=None, connector=None)`: any of them
      may be None, and every caller in `VMAXCommon` leaves at least one of them so. */
  datatype Request = Request(volume: Option<Volume>, group: Option<Group>, connector: Option<Connector>)

  /** All three request objects are present. */
  predicate Complete(req: Request) {
    req.volume.Some? && req.group.Some? && req.connector.Some?
  }

  /** The `array_info` part of the extra specs. `clusters` is the per-site cluster list
      the loop builds; `clusterName` is what the record stores under 'cluster_name':
      the last site's cluster only. */
  datatype ArraySpec = ArraySpec(
    hards: seq<string>,
    storageVolumes: seq<string>,
    clusters: seq<string>,
    clusterName: string,
    pool: seq<string>,
    slo: seq<string>,
    workload: seq<string>,
    portGroup: seq<string>)

  /** The `volume_info` part of the extra specs, with the number of legs it was built for. */
  datatype VolumeInfo = VolumeInfo(
    lun: seq<string>,
    device: seq<string>,
    extent: seq<string>,
    volumeName: string,
    geometry: string,
    cgName: string,
    delay: string,
    attributes: string,
    visibility: string,
    svName: seq<string>,
    initiatorPort: seq<string>,
    port: seq<seq<string>>,
    count: nat)

  datatype ExtraSpecs = ExtraSpecs(arrayInfo: ArraySpec, volumeInfo: VolumeInfo)

  // ------------------------------------------------------------ name templates

  const Geometry: string := "raid-0"
  const Delay: string := "5s"
  const Visibility: string := "cluster-1, cluster-2"

  /** The LUN of leg `index`, numbered in decimal. */
  function LunName(volumeId: string, index: nat): string {
    "OS-" + volumeId + "-" + "LUN" + "-" + NatToString(index)
  }

  function DeviceName(lun: string): string { "device_" + lun + "_1" }

  function ExtentName(lun: string): string { "extent_" + lun + "_1" }

  /** The virtual volume: one per volume, whatever the leg. */
  function VolumeName(volumeId: string): string { "OS-" + volumeId + "_" + "VOL" }

  /** The consistency group: the group id shortened to at most eight characters. */
  function CgName(groupId: string): string { TruncateString(groupId, 8) }

  function CgAttribute(cgName: string): string { cgName + "::visibilty" }

  function ViewStem(host: string, pool: string, slo: string, workload: string, protocol: string): string {
    "OS-" + host + "-" + pool + "-" + slo + "-" + workload + "-" + protocol
  }

  function StorageViewName(host: string, pool: string, slo: string, workload: string, protocol: string): string {
    ViewStem(host, pool, slo, workload, protocol) + "-SV"
  }

  function InitiatorPortName(host: string, pool: string, slo: string, workload: string, protocol: string): string {
    ViewStem(host, pool, slo, workload, protocol) + "-PG"
  }

  /** v is the volume descriptor of `_get_volume_extra_specs` for count legs: entry i of
      every list belongs to leg i, and the scalar names are fixed by the request. */
  ghost predicate Describes(v: VolumeInfo, req: Request, pool: seq<string>, slo: seq<string>,
                            workload: seq<string>, protocol: string, count: nat)
  {
    req.volume.Some? && req.group.Some? && (count > 0 ==> req.connector.Some?) &&
    count <= |pool| && count <= |slo| && count <= |workload| &&
    v.count == count &&
    |v.lun| == count && |v.device| == count && |v.extent| == count &&
    |v.svName| == count && |v.initiatorPort| == count && |v.port| == count &&
    (forall i :: 0 <= i < count ==>
      req.connector.Some? &&
      v.lun[i] == LunName(req.volume.value.id, i) &&
      v.device[i] == DeviceName(v.lun[i]) &&
      v.extent[i] == ExtentName(v.lun[i]) &&
      v.svName[i] == StorageViewName(req.connector.value.host, pool[i], slo[i], workload[i], protocol) &&
      v.initiatorPort[i] == InitiatorPortName(req.connector.value.host, pool[i], slo[i], workload[i], protocol) &&
      v.port[i] == req.connector.value.wwpn) &&
    v.volumeName == VolumeName(req.volume.value.id) &&
    v.geometry == Geometry &&
    v.cgName == CgName(req.group.value.id) &&
    v.delay == Delay &&
    v.attributes == CgAttribute(v.cgName) &&
    v.visibility == Visibility
  }

  /** a is the topology record `_set_vplex_extra_specs` gathers from the first count sites, in site order. */
  ghost predicate GathersSites(a: ArraySpec, sites: seq<Site>, count: nat)
  {
    0 < count <= |sites| &&
    |a.hards| == count && |a.storageVolumes| == count && |a.clusters| == count &&
    |a.pool| == count && |a.slo| == count && |a.workload| == count && |a.portGroup| == count &&
    (forall i :: 0 <= i < count ==>
      a.hards[i] == sites[i].emcSymmetrix &&
      a.storageVolumes[i] == sites[i].vpd83t3 &&
      a.clusters[i] == sites[i].cluster &&
      a.pool[i] == sites[i].pool &&
      a.slo[i] == sites[i].slo &&
      a.workload[i] == sites[i].workload &&
      a.portGroup[i] == sites[i].portGroup) &&
    a.clusterName == sites[count - 1].cluster
  }

  /** The whole descriptor built for a request over the first count sites. */
  ghost predicate SpecsDescribe(s: ExtraSpecs, sites: seq<Site>, req: Request, protocol: string, count: nat)
  {
    GathersSites(s.arrayInfo, sites, count) &&
    Describes(s.volumeInfo, req, s.arrayInfo.pool, s.arrayInfo.slo, s.arrayInfo.workload, protocol, count)
  }

  /** Every per-leg list holds an entry for each of the count legs the adapter walks. */
  predicate WellFormed(s: ExtraSpecs)
  {
    var n := s.volumeInfo.count;
    |s.volumeInfo.lun| == n && |s.volumeInfo.device| == n && |s.volumeInfo.extent| == n &&
    |s.volumeInfo.svName| == n && |s.volumeInfo.initiatorPort| == n && |s.volumeInfo.port| == n &&
    |s.arrayInfo.hards| == n && |s.arrayInfo.storageVolumes| == n && |s.arrayInfo.clusters| == n &&
    |s.arrayInfo.portGroup| == n
  }

  // ------------------------------------------------------------ naming lemmas

  lemma SameSuffix(a: string, x: string, y: string)
    requires a + x == a + y
    ensures x == y
  {
    assert x == (a + x)[|a|..];
    assert y == (a + y)[|a|..];
  }

  /** Distinct legs get distinct LUNs. */
  lemma LunNamesDistinct(volumeId: string, i: nat, j: nat)
    requires i != j
    ensures LunName(volumeId, i) != LunName(volumeId, j)
  {
    if LunName(volumeId, i) == LunName(volumeId, j) {
      SameSuffix("OS-" + volumeId + "-" + "LUN" + "-", NatToString(i), NatToString(j));
      NatToStringInjective(i, j);
    }
  }

  lemma SamePrefix(x: string, y: string, b: string)
    requires x + b == y + b
    ensures x == y
  {
    assert x == (x + b)[..|x|];
    assert y == (y + b)[..|y|];
  }

  /** The device and the extent names each determine the LUN they were drawn from. */
  lemma DeviceAndExtentNamesInjective(lun1: string, lun2: string)
    ensures DeviceName(lun1) == DeviceName(lun2) ==> lun1 == lun2
    ensures ExtentName(lun1) == ExtentName(lun2) ==> lun1 == lun2
  {
    if DeviceName(lun1) == DeviceName(lun2) {
      assert DeviceName(lun1) == "device_" + (lun1 + "_1") && DeviceName(lun2) == "device_" + (lun2 + "_1");
      SameSuffix("device_", lun1 + "_1", lun2 + "_1");
      SamePrefix(lun1, lun2, "_1");
    }
    if ExtentName(lun1) == ExtentName(lun2) {
      assert ExtentName(lun1) == "extent_" + (lun1 + "_1") && ExtentName(lun2) == "extent_" + (lun2 + "_1");
      SameSuffix("extent_", lun1 + "_1", lun2 + "_1");
      SamePrefix(lun1, lun2, "_1");
    }
  }

  /** No device name is an extent name. */
  lemma DeviceIsNotExtent(lun1: string, lun2: string)
    ensures DeviceName(lun1) != ExtentName(lun2)
  {
    assert DeviceName(lun1)[0] == 'd';
    assert ExtentName(lun2)[0] == 'e';
  }

  /** The storage view and its initiator port group never share a name. */
  lemma ViewIsNotPortGroup(host: string, pool: string, slo: string, workload: string, protocol: string)
    ensures StorageViewName(host, pool, slo, workload, protocol) != InitiatorPortName(host, pool, slo, workload, protocol)
  {
    var sv := StorageViewName(host, pool, slo, workload, protocol);
    var pg := InitiatorPortName(host, pool, slo, workload, protocol);
    assert sv[|sv| - 1] == 'V';
    assert pg[|pg| - 1] == 'G';
  }

  /** The consistency group name is at most eight characters and starts the group id. */
  lemma CgNameShape(groupId: string)
    ensures |CgName(groupId)| <= 8
    ensures |groupId| <= 8 ==> CgName(groupId) == groupId
    ensures |groupId| > 8 ==> CgName(groupId) == groupId[..4] + groupId[|groupId| - 4..]
  {
  }

  /** The fixed visibility value reaches the appliance split in two at its space. */
  lemma VisibilityWords(attributes: string)
    requires IsWord(attributes)
    ensures Words(SetConsistencyGroupVisibilityCommand(attributes, Visibility).args)
         == ["-a", attributes, "-v", "cluster-1,", "cluster-2", "-f"]
  {
    assert SetConsistencyGroupVisibilityCommand(attributes, Visibility).args
        == "-a" + " " + attributes + " " + "-v" + " " + "cluster-1," + " " + "cluster-2" + " " + "-f";
    Words6("-a", attributes, "-v", "cluster-1,", "cluster-2", "-f");
  }

  /** The descriptor is determined by its inputs: building it again for the same
      request (as delete does after create) yields the same names. */
  lemma DescribesUnique(v1: VolumeInfo, v2: VolumeInfo, req: Request, pool: seq<string>, slo: seq<string>,
                        workload: seq<string>, protocol: string, count: nat)
    requires Describes(v1, req, pool, slo, workload, protocol, count)
    requires Describes(v2, req, pool, slo, workload, protocol, count)
    ensures v1 == v2
  {
    assert v1.lun == v2.lun;
    assert v1.device == v2.device;
    assert v1.extent == v2.extent;
    assert v1.svName == v2.svName;
    assert v1.initiatorPort == v2.initiatorPort;
    assert v1.port == v2.port;
  }

  lemma GathersSitesUnique(a1: ArraySpec, a2: ArraySpec, sites: seq<Site>, count: nat)
    requires GathersSites(a1, sites, count) && GathersSites(a2, sites, count)
    ensures a1 == a2
  {
    assert a1.hards == a2.hards;
    assert a1.storageVolumes == a2.storageVolumes;
    assert a1.clusters == a2.clusters;
    assert a1.pool == a2.pool;
    assert a1.slo == a2.slo;
    assert a1.workload == a2.workload;
    assert a1.portGroup == a2.portGroup;
  }

  /** The whole descriptor is determined by the sites, the request and the protocol. */
  lemma SpecsDescribeUnique(s1: ExtraSpecs, s2: ExtraSpecs, sites: seq<Site>, req: Request, protocol: string, count: nat)
    requires SpecsDescribe(s1, sites, req, protocol, count) && SpecsDescribe(s2, sites, req, protocol, count)
    ensures s1 == s2
  {
    GathersSitesUnique(s1.arrayInfo, s2.arrayInfo, sites, count);
    DescribesUnique(s1.volumeInfo, s2.volumeInfo, req, s1.arrayInfo.pool, s1.arrayInfo.slo,
                    s1.arrayInfo.workload, protocol, count);
  }

  /** A built descriptor has an entry for every leg in every list the adapter reads,
      and its LUN, device and extent names are pairwise distinct across legs. */
  lemma SpecsDescribeWellFormed(s: ExtraSpecs, sites: seq<Site>, req: Request, protocol: string, count: nat)
    requires SpecsDescribe(s, sites, req, protocol, count)
    ensures WellFormed(s) && s.volumeInfo.count == count
    ensures forall i, j :: 0 <= i < j < count ==>
      s.volumeInfo.lun[i] != s.volumeInfo.lun[j] &&
      s.volumeInfo.device[i] != s.volumeInfo.device[j] &&
      s.volumeInfo.extent[i] != s.volumeInfo.extent[j]
  {
    forall i, j | 0 <= i < j < count
      ensures s.volumeInfo.lun[i] != s.volumeInfo.lun[j]
      ensures s.volumeInfo.device[i] != s.volumeInfo.device[j]
      ensures s.volumeInfo.extent[i] != s.volumeInfo.extent[j]
    {
      LunNamesDistinct(req.volume.value.id, i, j);
      DeviceAndExtentNamesInjective(s.volumeInfo.lun[i], s.volumeInfo.lun[j]);
    }
  }

  // ------------------------------------------------------------ the site loop

  /** The loop of `_set_vplex_extra_specs` over the first count site records, reading
      each site's workload under workloadKey: the key the source writes (`'WORKLOAD'`)
      or the key the record holds (`'Workload'`). A site list shorter than count raises
      an IndexError, a missing key a KeyError, and no iteration at all leaves
      `cluster_name` unbound. */
  method GatherSites(emc: seq<Site>, count: nat, workloadKey: string) returns (r: Result<ArraySpec, Error>)
    requires workloadKey == "WORKLOAD" || workloadKey == "Workload"
    ensures count == 0 ==> r == Failure(Unbound("cluster_name"))
    ensures count > 0 && |emc| == 0 ==> r == Failure(IndexOutOfRange)
    ensures count > 0 && |emc| > 0 && workloadKey !in RecordKeys ==> r == Failure(KeyMissing(workloadKey))
    ensures workloadKey in RecordKeys ==> (r.Success? <==> 0 < count <= |emc|)
    ensures workloadKey in RecordKeys && count > |emc| ==> r == Failure(IndexOutOfRange)
    ensures r.Success? ==> GathersSites(r.value, emc, count)
  {
    var hardList: seq<string> := [];
    var storageVolumes: seq<string> := [];
    var clusterList: seq<string> := [];
    var pool: seq<string> := [];
    var slo: seq<string> := [];
    var workload: seq<string> := [];
    var portGroup: seq<string> := [];
    var clusterName: Option<string> := None;
    var index := 0;
    while index < count
      invariant 0 <= index <= count && index <= |emc|
      invariant index > 0 ==> workloadKey in RecordKeys
      invariant |hardList| == index && |storageVolumes| == index && |clusterList| == index
      invariant |pool| == index && |slo| == index && |workload| == index && |portGroup| == index
      invariant forall i :: 0 <= i < index ==>
        hardList[i] == emc[i].emcSymmetrix &&
        storageVolumes[i] == emc[i].vpd83t3 &&
        clusterList[i] == emc[i].cluster &&
        pool[i] == emc[i].pool &&
        slo[i] == emc[i].slo &&
        workload[i] == emc[i].workload &&
        portGroup[i] == emc[i].portGroup
      invariant clusterName == if index == 0 then None else Some(emc[index - 1].cluster)
    {
      if index >= |emc| {
        return Failure(IndexOutOfRange);
      }
      var site := emc[index];
      clusterName := Some(site.cluster);
      // The other six keys are ones the record holds.
      var workloadName := Field(site, workloadKey);
      if workloadName.None? {
        return Failure(KeyMissing(workloadKey));
      }
      hardList := hardList + [site.emcSymmetrix];
      storageVolumes := storageVolumes + [site.vpd83t3];
      clusterList := clusterList + [site.cluster];
      pool := pool + [site.pool];
      slo := slo + [site.slo];
      workload := workload + [workloadName.value];
      portGroup := portGroup + [site.portGroup];
      index := index + 1;
    }
    if clusterName.None? {
      // The record names `cluster_name`, which no loop iteration bound.
      return Failure(Unbound("cluster_name"));
    }
    r := Success(ArraySpec(hardList, storageVolumes, clusterList, clusterName.value, pool, slo, workload, portGroup));
  }

  /** The site record holds the workload under `'Workload'`, not under `'WORKLOAD'`. */
  lemma WorkloadKeyMismatch(s: Site)
    ensures Field(s, "WORKLOAD").None? && Field(s, "Workload") == Some(s.workload)
  {
  }

  // ------------------------------------------------------------ the builder

  /** The descriptor-building part of `VMAXCommon`. */
  class VmaxCommon {
    const protocol: string
    /** The array map read when the driver was set up (`vplex_info['arrayinfo']`);
        only its count is used here. */
    const gathered: Option<ArrayMap>
    const rest: VplexRest

    constructor (protocol: string, gathered: Option<ArrayMap>, rest: VplexRest)
      ensures this.protocol == protocol && this.gathered == gathered && this.rest == rest
    {
      this.protocol := protocol;
      this.gathered := gathered;
      this.rest := rest;
    }

    /** `_get_volume_extra_specs`: one LUN, device, extent, storage view, initiator
        port group and port list per leg, in leg order. A None group or volume raises a
        TypeError before the loop, a None connector on the first leg, and a per-site
        list shorter than count ends the loop with an IndexError. */
    method GetVolumeExtraSpecs(req: Request, workload: seq<string>, slo: seq<string>, count: nat, pool: seq<string>)
      returns (r: Result<VolumeInfo, Error>)
      ensures req.group.None? ==> r == Failure(TypeMismatch("group"))
      ensures req.group.Some? && req.volume.None? ==> r == Failure(TypeMismatch("volume"))
      ensures req.group.Some? && req.volume.Some? && count > 0 && req.connector.None? ==>
        r == Failure(TypeMismatch("connector"))
      ensures r.Success? <==>
        req.group.Some? && req.volume.Some? && (count > 0 ==> req.connector.Some?) &&
        count <= |pool| && count <= |slo| && count <= |workload|
      ensures r.Success? ==> Describes(r.value, req, pool, slo, workload, protocol, count)
      ensures r.Failure? && req.group.Some? && req.volume.Some? && (count > 0 ==> req.connector.Some?) ==>
        r.error == IndexOutOfRange
    {
      if req.group.None? {
        return Failure(TypeMismatch("group"));
      }
      var cgName := CgName(req.group.value.id);
      if req.volume.None? {
        return Failure(TypeMismatch("volume"));
      }
      var volumeId := req.volume.value.id;
      var volumeName := VolumeName(volumeId);
      var cgAttribute := CgAttribute(cgName);
      var visibility := Visibility;
      var lunList: seq<string> := [];
      var deviceList: seq<string> := [];
      var extentList: seq<string> := [];
      var portList: seq<seq<string>> := [];
      var svList: seq<string> := [];
      var initiatorPorts: seq<string> := [];
      var index := 0;
      while index < count
        invariant 0 <= index <= count
        invariant index <= |pool| && index <= |slo| && index <= |workload|
        invariant index > 0 ==> req.connector.Some?
        invariant |lunList| == index && |deviceList| == index && |extentList| == index
        invariant |svList| == index && |initiatorPorts| == index && |portList| == index
        invariant forall i :: 0 <= i < index ==>
          req.connector.Some? &&
          lunList[i] == LunName(volumeId, i) &&
          deviceList[i] == DeviceName(lunList[i]) &&
          extentList[i] == ExtentName(lunList[i]) &&
          svList[i] == StorageViewName(req.connector.value.host, pool[i], slo[i], workload[i], protocol) &&
          initiatorPorts[i] == InitiatorPortName(req.connector.value.host, pool[i], slo[i], workload[i], protocol) &&
          portList[i] == req.connector.value.wwpn
      {
        var lunName := LunName(volumeId, index);
        var deviceName := DeviceName(lunName);
        var extentName := ExtentName(lunName);
        lunList := lunList + [lunName];
        deviceList := deviceList + [deviceName];
        extentList := extentList + [extentName];
        if req.connector.None? {
          return Failure(TypeMismatch("connector"));
        }
        var hostName := req.connector.value.host;
        var port := req.connector.value.wwpn;
        if index >= |pool| || index >= |slo| || index >= |workload| {
          return Failure(IndexOutOfRange);
        }
        var svName := StorageViewName(hostName, pool[index], slo[index], workload[index], protocol);
        var initiatorPort := InitiatorPortName(hostName, pool[index], slo[index], workload[index], protocol);
        svList := svList + [svName];
        initiatorPorts := initiatorPorts + [initiatorPort];
        portList := portList + [port];
        index := index + 1;
      }
      r := Success(VolumeInfo(lunList, deviceList, extentList, volumeName, Geometry, cgName, Delay,
                              cgAttribute, visibility, svList, initiatorPorts, portList, count));
    }

    /** `_set_vplex_extra_specs` as written: it reads each site's workload under the
        key `'WORKLOAD'`, which the site record does not hold, so the first site ends
        the call with a KeyError and the descriptor is never built. */
    method SetVplexExtraSpecs(arrayInfo: ArrayMap, req: Request) returns (r: Result<ExtraSpecs, Error>)
      ensures r.Failure?
      ensures gathered.None? ==> r == Failure(TypeMismatch("arrayinfo"))
      ensures gathered.Some? && gathered.value.count == 0 ==> r == Failure(Unbound("cluster_name"))
      ensures gathered.Some? && gathered.value.count > 0 && |arrayInfo.emc| == 0 ==> r == Failure(IndexOutOfRange)
      ensures gathered.Some? && gathered.value.count > 0 && |arrayInfo.emc| > 0 ==>
        r == Failure(KeyMissing("WORKLOAD"))
    {
      if gathered.None? {
        return Failure(TypeMismatch("arrayinfo"));
      }
      var sites := GatherSites(arrayInfo.emc, gathered.value.count, "WORKLOAD");
      assert sites.Failure?;
      r := Failure(sites.error);
    }

    /** `_set_vplex_extra_specs` with the workload read under `'Workload'`, the key the
        site record holds: the first count sites' topology, gathered in site order, then
        the volume descriptor. count comes from the array map read at set-up. */
    method SetVplexExtraSpecsCorrected(arrayInfo: ArrayMap, req: Request) returns (r: Result<ExtraSpecs, Error>)
      ensures gathered.None? ==> r == Failure(TypeMismatch("arrayinfo"))
      ensures gathered.Some? && gathered.value.count == 0 ==> r == Failure(Unbound("cluster_name"))
      ensures gathered.Some? && gathered.value.count > |arrayInfo.emc| ==> r == Failure(IndexOutOfRange)
      ensures gathered.Some? && 0 < gathered.value.count <= |arrayInfo.emc| && req.group.None? ==>
        r == Failure(TypeMismatch("group"))
      ensures gathered.Some? && 0 < gathered.value.count <= |arrayInfo.emc| && req.group.Some? && req.volume.None? ==>
        r == Failure(TypeMismatch("volume"))
      ensures gathered.Some? && 0 < gathered.value.count <= |arrayInfo.emc| && req.group.Some? &&
              req.volume.Some? && req.connector.None? ==>
        r == Failure(TypeMismatch("connector"))
      ensures r.Success? <==> gathered.Some? && 0 < gathered.value.count <= |arrayInfo.emc| && Complete(req)
      ensures r.Success? ==> SpecsDescribe(r.value, arrayInfo.emc, req, protocol, gathered.value.count)
    {
      if gathered.None? {
        return Failure(TypeMismatch("arrayinfo"));
      }
      var count := gathered.value.count;
      var sites := GatherSites(arrayInfo.emc, count, "Workload");
      if sites.Failure? {
        return Failure(sites.error);
      }
      var arraySpec := sites.value;
      var volumeSpecs := GetVolumeExtraSpecs(req, arraySpec.workload, arraySpec.slo, count, arraySpec.pool);
      if volumeSpecs.Failure? {
        // Every per-site list holds count entries, so only a missing request object fails here.
        return Failure(volumeSpecs.error);
      }
      r := Success(ExtraSpecs(arraySpec, volumeSpecs.value));
    }

    /** `_initial_setup`: a missing configuration record, a credential failure or a
        descriptor failure all surface as the one setup exception. The credentials are
        set before the descriptor is built, which uses the workload key the site record
        holds (`SetVplexExtraSpecsCorrected`). */
    method InitialSetup(arrayInfo: Option<ArrayMap>, req: Request) returns (r: Result<ExtraSpecs, Error>)
      modifies rest`user, rest`passwd, rest`baseUri
      ensures r.Failure? ==> r.error == SetupFailed
      ensures arrayInfo.None? || |arrayInfo.value.emc| == 0 ==>
        r.Failure? && rest.user == old(rest.user) && rest.passwd == old(rest.passwd) && rest.baseUri == old(rest.baseUri)
      ensures arrayInfo.Some? && |arrayInfo.value.emc| > 0 ==>
        var site := arrayInfo.value.emc[0];
        rest.user == Some(site.username) && rest.passwd == Some(site.password) &&
        rest.baseUri == Some(BaseUri(site.mgmtServerIp, site.mgmtServerPort))
      ensures r.Success? <==>
        arrayInfo.Some? && gathered.Some? && 0 < gathered.value.count <= |arrayInfo.value.emc| && Complete(req)
      ensures r.Success? ==> SpecsDescribe(r.value, arrayInfo.value.emc, req, protocol, gathered.value.count)
    {
      if arrayInfo.None? {
        return Failure(SetupFailed);
      }
      var credentials := rest.SetRestCredentials(arrayInfo.value);
      if credentials.Fail? {
        return Failure(SetupFailed);
      }
      var specs := SetVplexExtraSpecsCorrected(arrayInfo.value, req);
      if specs.Failure? {
        return Failure(SetupFailed);
      }
      r := specs;
    }
  }
}
