/** The appliance gateway `VPLEXRest`: acknowledgment checking, the argument
    strings of every appliance command, and the gateway object that issues them.

    The transport is abstract. The gateway keeps the list of requests it has
    issued, and an `appliance` function gives the reply to the k-th request. */
module Rest {
  import opened Basics
  import opened Text
  import opened Topology

  // ------------------------------------------------------------ replies

  const Status200: int := 200
  const Status201: int := 201
  const Status202: int := 202
  const Status204: int := 204

  /** The status codes the gateway treats as acknowledged. */
  predicate Accepted(status: int) {
    status == Status200 || status == Status201 || status == Status202 || status == Status204
  }

  /** What `message['response']['exception']` finds in a non-empty reply: no
      `'response'` key, a `'response'` without `'exception'`, None, or a text. */
  datatype ExceptionField = NoResponse | NoException | JsonNull | JsonText(text: string)

  /** The key a reply's exception lookup misses, for the two missing cases. */
  function MissingKey(e: ExceptionField): string {
    if e.NoResponse? then "response" else "exception"
  }

  /** One entry of a storage listing's `attributes`: its `Use` and its `Capacity`. */
  datatype StorageRecord = StorageRecord(use: string, capacity: int)

  /** The decoded body of a reply: no body at all, the empty object, or an object
      carrying the exception field and, for listings, the `attributes` records. */
  datatype Message =
    | NoBody
    | EmptyObject
    | Object(exception: ExceptionField, attributes: Option<seq<StorageRecord>>)

  /** Python truthiness of a decoded body: only a non-empty object is true. */
  predicate Truthy(m: Message) { m.Object? }

  datatype Response = Response(status: int, message: Message)

  /** `check_status_code_and_message_success`. A non-empty reply passes only when its
      exception field holds a real value: None or the text "null" raise (the test
      reads inverted, and is kept as written). */
  function CheckStatusCodeAndMessageSuccess(operation: string, status: int, message: Message): (o: Outcome<Error>)
    ensures o.Pass? <==>
      (Accepted(status) && (!Truthy(message) || (message.exception.JsonText? && message.exception.text != "null")))
    ensures !Accepted(status) ==> o == Fail(BadStatus(operation, status))
    ensures Accepted(status) && Truthy(message) && o.Fail? ==>
      o.error == (if message.exception.NoResponse? || message.exception.NoException?
                  then KeyMissing(MissingKey(message.exception)) else ExceptionReported(operation))
  {
    if !Accepted(status) then Fail(BadStatus(operation, status))
    else if message.Object? then
      match message.exception
      case NoResponse => Fail(KeyMissing("response"))
      case NoException => Fail(KeyMissing("exception"))
      case JsonNull => Fail(ExceptionReported(operation))
      case JsonText(t) => if t == "null" then Fail(ExceptionReported(operation)) else Pass
    else Pass
  }

  /** A plain success reply (status 200, exception null) is refused. */
  lemma NullExceptionRefused(operation: string, attributes: Option<seq<StorageRecord>>)
    ensures CheckStatusCodeAndMessageSuccess(operation, 200, Object(JsonNull, attributes))
         == Fail(ExceptionReported(operation))
  {
  }

  /** The operation text both `create_resource` and `get_resource` report. */
  function Operation(resourceType: string): string {
    "Create " + resourceType + " resource"
  }

  // ------------------------------------------------------------ commands

  datatype HttpMethod = Get | Post

  /** One request: its method, its resource path and its argument string. */
  datatype Command = Command(verb: HttpMethod, resourceType: string, args: string)

  // The argument strings below are the driver's, character for character; their
  // literal parts are written word by word, with the spaces as separate literals.

  /** The verdict on the k-th request: the appliance's reply to it, checked. */
  function Verdict(appliance: (nat, Command) -> Response, k: nat, c: Command): Outcome<Error> {
    var r := appliance(k, c);
    CheckStatusCodeAndMessageSuccess(Operation(c.resourceType), r.status, r.message)
  }

  function ReDiscoveryArraysCommand(cluster: string, hard: string): Command {
    Command(Post, "re-disvovery+arrays", "-a" + " " + hard + " " + "--cluster" + " " + cluster + " " + "--force")
  }

  function ClaimStorageVolumeCommand(name: string, storageVolumes: string): Command {
    Command(Post, "storage-volume+claim", "-n" + " " + name + " " + "-d" + " " + storageVolumes + "  " + "--thin-rebuild" + " " + "-f")
  }

  function CreateExtentCommand(storageVolumes: string): Command {
    Command(Post, "extent+create", "-d" + " " + storageVolumes)
  }

  /** The extent and the geometry flag are written without a space between them. */
  function CreateLocalDeviceCommand(name: string, extent: string, geometry: string): Command {
    Command(Post, "local-device+create", "-n" + " " + name + " " + "-e" + " " + extent + "-g" + geometry + " " + "-f")
  }

  function CreateVirtualVolumeCommand(device: string): Command {
    Command(Post, "virtual-volume+create", "--device" + " " + device)
  }

  function AttachMirrorDeviceCommand(device: string, mirrorDevice: string): Command {
    Command(Post, "device+attach-mirror", "-d" + " " + device + " " + "-m" + " " + mirrorDevice + " " + "-f")
  }

  function CreateConsistencyGroupCommand(name: string, cluster: string): Command {
    Command(Post, "consistency-group+create", "--name" + " " + name + " " + "--cluster" + " " + cluster + " " + "-f")
  }

  function SetConsistencyGroupVisibilityCommand(attributes: string, value: string): Command {
    Command(Post, "set", "-a" + " " + attributes + " " + "-v" + " " + value + " " + "-f")
  }

  /** The delay and the consistency-groups flag are written without a space between
      them, and so are the flag and the group. */
  function SetDetachRuleToConsistencyGroupCommand(cluster: string, delay: string, consistencyGroups: string): Command {
    Command(Post, "consistency-group+set-detach-rule+winner",
      "--cluster" + " " + cluster + " " + "--delay" + " " + delay + "--consistency-groups" + consistencyGroups + " " + "-f")
  }

  function AddVirtualVolumesToConsistencyGroupCommand(volumes: string, consistencyGroup: string): Command {
    Command(Post, "consistency-group+add-virtual-volumes",
      "--virtual-volumes" + " " + volumes + " " + "--consistency-group" + " " + consistencyGroup + " " + "-f")
  }

  function CreateExportStorageViewCommand(cluster: string, name: string, ports: string): Command {
    Command(Post, "export+storage-view+create", "--cluster" + " " + cluster + " " + "--name" + " " + name + " " + "--ports" + " " + ports + " " + "-f")
  }

  /** portList is the ", "-joined port list the method assembles. */
  function RegisterExportInitiatorPortCommand(cluster: string, initiatorPort: string, portList: string): Command {
    Command(Post, "export+initiator-port+register",
      "--cluster" + " " + cluster + " " + "--initiator-port" + " " + initiatorPort + " " + "--ports" + " " + portList + " " + "-f")
  }

  function AddInitiatorPortToExportStorageViewCommand(view: string, initiatorPort: string): Command {
    Command(Post, "export+storage-view+addinitiatorport", "--view" + " " + view + " " + "--initiator-ports" + " " + initiatorPort + " " + "-f")
  }

  function AddPortToExportStorageViewCommand(view: string, ports: string): Command {
    Command(Post, "export+storage-view+addport", "--view" + " " + view + " " + "--ports" + " " + ports)
  }

  function AddVirtualVolumeToExportStorageViewCommand(view: string, virtualVolumes: string): Command {
    Command(Post, "export+storage-view+addvirtualvolume", "--view" + " " + view + " " + "--virtual-volumes" + " " + virtualVolumes)
  }

  function RemoveInitiatorPortExportStorageViewCommand(view: string, initiatorPorts: string): Command {
    Command(Post, "export+storage-view+removeinitiatorport", "--view" + " " + view + " " + "--initiator-ports" + " " + initiatorPorts)
  }

  function RemovePortExportStorageViewCommand(view: string, ports: string): Command {
    Command(Post, "export+storage-view+removeport", "--view" + " " + view + " " + "--ports" + " " + ports)
  }

  function RemoveVirtualVolumeExportStorageViewCommand(virtualVolumes: string, view: string): Command {
    Command(Post, "export+storage-view+removevirtualvolume", "--virtual-volumes" + " " + virtualVolumes + " " + "--view" + " " + view)
  }

  function DestroyExportStorageViewCommand(view: string): Command {
    Command(Post, "export+storage-view+destroy", " " + "--view" + " " + view)
  }

  function UnregisterExportInitiatorPortCommand(initiatorPort: string): Command {
    Command(Post, "export+initiator-port+unregister", " " + "--initiator-port" + " " + initiatorPort)
  }

  function ConsistencyGroupRemoveVirtualVolumesCommand(consistencyGroup: string, virtualVolumes: string): Command {
    Command(Post, "consistency-group+remove-virtual-volumes",
      "--consistency-group" + " " + consistencyGroup + " " + "--virtual-volumes" + " " + virtualVolumes)
  }

  function DestroyVirtualVolumeCommand(virtualVolumes: string): Command {
    Command(Post, "virtual-volume+destroy", " " + "--virtual-volumes" + " " + virtualVolumes)
  }

  function DetachMirrorDeviceCommand(device: string, mirrorDevice: string): Command {
    Command(Post, "device+detach-mirror", "--device" + " " + device + " " + "-m" + " " + mirrorDevice)
  }

  function DestroyDistributedDevicesCommand(distributedDevices: string): Command {
    Command(Post, "ds+dd+destroy", " " + "--distributed-devices" + " " + distributedDevices + " " + "-f")
  }

  function DestroyLocalDeviceCommand(device: string): Command {
    Command(Post, "local-device+destroy", " " + "-d" + " " + device + " " + "-f")
  }

  /** The resource path carries a trailing space. */
  function DestroyExtentCommand(extent: string): Command {
    Command(Post, "extent+destroy ", " " + "-s" + " " + extent + " " + "-f")
  }

  function UnclaimStorageVolumeCommand(storageVolume: string): Command {
    Command(Post, "storage-volume+unclaim", " " + "-d" + " " + storageVolume)
  }

  function ForgetStorageVolumeCommand(hard: string): Command {
    Command(Post, "storage-volume+forget", " " + "-d" + " " + hard)
  }

  function DestroyConsistencyGroupCommand(consistencyGroups: string): Command {
    Command(Post, "consistency-group+destroy", " " + "--consistency-groups" + " " + consistencyGroups + " " + "--force")
  }

  /** The storage-volume listing of one cluster, read with GET. */
  function GetDetailsFromStorageCommand(cluster: string): Command {
    Command(Get, "ll", " " + "-C" + " " + "/cluster/" + cluster + "/storage-elements/storage-volumes")
  }

  // ------------------------------------- how the appliance reads the arguments

  lemma ReDiscoveryArraysWords(cluster: string, hard: string)
    requires IsWord(cluster) && IsWord(hard)
    ensures Words(ReDiscoveryArraysCommand(cluster, hard).args) == ["-a", hard, "--cluster", cluster, "--force"]
  {
    Words5("-a", hard, "--cluster", cluster, "--force");
  }

  /** The doubled space before the rebuild flag is harmless. */
  lemma ClaimStorageVolumeWords(name: string, storageVolumes: string)
    requires IsWord(name) && IsWord(storageVolumes)
    ensures Words(ClaimStorageVolumeCommand(name, storageVolumes).args)
         == ["-n", name, "-d", storageVolumes, "--thin-rebuild", "-f"]
  {
    Words4Gap2("-n", name, "-d", storageVolumes, "--thin-rebuild", "-f");
  }

  lemma CreateExtentWords(storageVolumes: string)
    requires IsWord(storageVolumes)
    ensures Words(CreateExtentCommand(storageVolumes).args) == ["-d", storageVolumes]
  {
    Words2("-d", storageVolumes);
  }

  /** The geometry never reaches the appliance as an option of its own: it is glued
      to the extent name as one word. */
  lemma CreateLocalDeviceWords(name: string, extent: string, geometry: string)
    requires IsWord(name) && IsWord(extent) && IsWord(geometry)
    ensures Words(CreateLocalDeviceCommand(name, extent, geometry).args)
         == ["-n", name, "-e", extent + "-g" + geometry, "-f"]
  {
    assert CreateLocalDeviceCommand(name, extent, geometry).args
        == "-n" + " " + name + " " + "-e" + " " + (extent + "-g" + geometry) + " " + "-f";
    Words5("-n", name, "-e", extent + "-g" + geometry, "-f");
  }

  lemma CreateVirtualVolumeWords(device: string)
    requires IsWord(device)
    ensures Words(CreateVirtualVolumeCommand(device).args) == ["--device", device]
  {
    Words2("--device", device);
  }

  lemma AttachMirrorDeviceWords(device: string, mirrorDevice: string)
    requires IsWord(device) && IsWord(mirrorDevice)
    ensures Words(AttachMirrorDeviceCommand(device, mirrorDevice).args) == ["-d", device, "-m", mirrorDevice, "-f"]
  {
    Words5("-d", device, "-m", mirrorDevice, "-f");
  }

  /** With no mirror the `-m` option is left without a value. */
  lemma AttachMirrorDeviceWordsWithoutMirror(device: string)
    requires IsWord(device)
    ensures Words(AttachMirrorDeviceCommand(device, "").args) == ["-d", device, "-m", "-f"]
  {
    assert AttachMirrorDeviceCommand(device, "").args == "-d" + " " + device + " " + "-m" + "  " + "-f";
    Words3Gap1("-d", device, "-m", "-f");
  }

  lemma CreateConsistencyGroupWords(name: string, cluster: string)
    requires IsWord(name) && IsWord(cluster)
    ensures Words(CreateConsistencyGroupCommand(name, cluster).args) == ["--name", name, "--cluster", cluster, "-f"]
  {
    Words5("--name", name, "--cluster", cluster, "-f");
  }

  lemma SetConsistencyGroupVisibilityWords(attributes: string, value: string)
    requires IsWord(attributes) && IsWord(value)
    ensures Words(SetConsistencyGroupVisibilityCommand(attributes, value).args) == ["-a", attributes, "-v", value, "-f"]
  {
    Words5("-a", attributes, "-v", value, "-f");
  }

  /** The consistency-groups option is swallowed into the delay's word. */
  lemma SetDetachRuleToConsistencyGroupWords(cluster: string, delay: string, consistencyGroups: string)
    requires IsWord(cluster) && IsWord(delay) && IsWord(consistencyGroups)
    ensures Words(SetDetachRuleToConsistencyGroupCommand(cluster, delay, consistencyGroups).args)
         == ["--cluster", cluster, "--delay", delay + "--consistency-groups" + consistencyGroups, "-f"]
  {
    var glued := delay + "--consistency-groups" + consistencyGroups;
    assert SetDetachRuleToConsistencyGroupCommand(cluster, delay, consistencyGroups).args
        == "--cluster" + " " + cluster + " " + "--delay" + " " + glued + " " + "-f";
    Words5("--cluster", cluster, "--delay", glued, "-f");
  }

  lemma AddVirtualVolumesToConsistencyGroupWords(volumes: string, consistencyGroup: string)
    requires IsWord(volumes) && IsWord(consistencyGroup)
    ensures Words(AddVirtualVolumesToConsistencyGroupCommand(volumes, consistencyGroup).args)
         == ["--virtual-volumes", volumes, "--consistency-group", consistencyGroup, "-f"]
  {
    Words5("--virtual-volumes", volumes, "--consistency-group", consistencyGroup, "-f");
  }

  lemma CreateExportStorageViewWords(cluster: string, name: string, ports: string)
    requires IsWord(cluster) && IsWord(name) && IsWord(ports)
    ensures Words(CreateExportStorageViewCommand(cluster, name, ports).args)
         == ["--cluster", cluster, "--name", name, "--ports", ports, "-f"]
  {
    Words7("--cluster", cluster, "--name", name, "--ports", ports, "-f");
  }

  /** With a single port the list is that port alone. */
  lemma RegisterExportInitiatorPortWords(cluster: string, initiatorPort: string, port: string)
    requires IsWord(cluster) && IsWord(initiatorPort) && IsWord(port)
    ensures Words(RegisterExportInitiatorPortCommand(cluster, initiatorPort, JoinPorts([port])).args)
         == ["--cluster", cluster, "--initiator-port", initiatorPort, "--ports", port, "-f"]
  {
    assert JoinPorts([port]) == port;
    Words7("--cluster", cluster, "--initiator-port", initiatorPort, "--ports", port, "-f");
  }

  lemma AddInitiatorPortToExportStorageViewWords(view: string, initiatorPort: string)
    requires IsWord(view) && IsWord(initiatorPort)
    ensures Words(AddInitiatorPortToExportStorageViewCommand(view, initiatorPort).args)
         == ["--view", view, "--initiator-ports", initiatorPort, "-f"]
  {
    Words5("--view", view, "--initiator-ports", initiatorPort, "-f");
  }

  lemma AddPortToExportStorageViewWords(view: string, ports: string)
    requires IsWord(view) && IsWord(ports)
    ensures Words(AddPortToExportStorageViewCommand(view, ports).args) == ["--view", view, "--ports", ports]
  {
    Words4("--view", view, "--ports", ports);
  }

  lemma AddVirtualVolumeToExportStorageViewWords(view: string, virtualVolumes: string)
    requires IsWord(view) && IsWord(virtualVolumes)
    ensures Words(AddVirtualVolumeToExportStorageViewCommand(view, virtualVolumes).args)
         == ["--view", view, "--virtual-volumes", virtualVolumes]
  {
    Words4("--view", view, "--virtual-volumes", virtualVolumes);
  }

  lemma RemoveInitiatorPortExportStorageViewWords(view: string, initiatorPorts: string)
    requires IsWord(view) && IsWord(initiatorPorts)
    ensures Words(RemoveInitiatorPortExportStorageViewCommand(view, initiatorPorts).args)
         == ["--view", view, "--initiator-ports", initiatorPorts]
  {
    Words4("--view", view, "--initiator-ports", initiatorPorts);
  }

  lemma RemovePortExportStorageViewWords(view: string, ports: string)
    requires IsWord(view) && IsWord(ports)
    ensures Words(RemovePortExportStorageViewCommand(view, ports).args) == ["--view", view, "--ports", ports]
  {
    Words4("--view", view, "--ports", ports);
  }

  lemma RemoveVirtualVolumeExportStorageViewWords(virtualVolumes: string, view: string)
    requires IsWord(virtualVolumes) && IsWord(view)
    ensures Words(RemoveVirtualVolumeExportStorageViewCommand(virtualVolumes, view).args)
         == ["--virtual-volumes", virtualVolumes, "--view", view]
  {
    Words4("--virtual-volumes", virtualVolumes, "--view", view);
  }

  lemma DestroyExportStorageViewWords(view: string)
    requires IsWord(view)
    ensures Words(DestroyExportStorageViewCommand(view).args) == ["--view", view]
  {
    WordsLead2("--view", view);
  }

  lemma UnregisterExportInitiatorPortWords(initiatorPort: string)
    requires IsWord(initiatorPort)
    ensures Words(UnregisterExportInitiatorPortCommand(initiatorPort).args) == ["--initiator-port", initiatorPort]
  {
    WordsLead2("--initiator-port", initiatorPort);
  }

  lemma ConsistencyGroupRemoveVirtualVolumesWords(consistencyGroup: string, virtualVolumes: string)
    requires IsWord(consistencyGroup) && IsWord(virtualVolumes)
    ensures Words(ConsistencyGroupRemoveVirtualVolumesCommand(consistencyGroup, virtualVolumes).args)
         == ["--consistency-group", consistencyGroup, "--virtual-volumes", virtualVolumes]
  {
    Words4("--consistency-group", consistencyGroup, "--virtual-volumes", virtualVolumes);
  }

  lemma DestroyVirtualVolumeWords(virtualVolumes: string)
    requires IsWord(virtualVolumes)
    ensures Words(DestroyVirtualVolumeCommand(virtualVolumes).args) == ["--virtual-volumes", virtualVolumes]
  {
    WordsLead2("--virtual-volumes", virtualVolumes);
  }

  lemma DetachMirrorDeviceWords(device: string, mirrorDevice: string)
    requires IsWord(device) && IsWord(mirrorDevice)
    ensures Words(DetachMirrorDeviceCommand(device, mirrorDevice).args) == ["--device", device, "-m", mirrorDevice]
  {
    Words4("--device", device, "-m", mirrorDevice);
  }

  lemma DestroyDistributedDevicesWords(distributedDevices: string)
    requires IsWord(distributedDevices)
    ensures Words(DestroyDistributedDevicesCommand(distributedDevices).args)
         == ["--distributed-devices", distributedDevices, "-f"]
  {
    WordsLead3("--distributed-devices", distributedDevices, "-f");
  }

  lemma DestroyLocalDeviceWords(device: string)
    requires IsWord(device)
    ensures Words(DestroyLocalDeviceCommand(device).args) == ["-d", device, "-f"]
  {
    WordsLead3("-d", device, "-f");
  }

  lemma DestroyExtentWords(extent: string)
    requires IsWord(extent)
    ensures Words(DestroyExtentCommand(extent).args) == ["-s", extent, "-f"]
  {
    WordsLead3("-s", extent, "-f");
  }

  lemma UnclaimStorageVolumeWords(storageVolume: string)
    requires IsWord(storageVolume)
    ensures Words(UnclaimStorageVolumeCommand(storageVolume).args) == ["-d", storageVolume]
  {
    WordsLead2("-d", storageVolume);
  }

  lemma ForgetStorageVolumeWords(hard: string)
    requires IsWord(hard)
    ensures Words(ForgetStorageVolumeCommand(hard).args) == ["-d", hard]
  {
    WordsLead2("-d", hard);
  }

  lemma DestroyConsistencyGroupWords(consistencyGroups: string)
    requires IsWord(consistencyGroups)
    ensures Words(DestroyConsistencyGroupCommand(consistencyGroups).args)
         == ["--consistency-groups", consistencyGroups, "--force"]
  {
    WordsLead3("--consistency-groups", consistencyGroups, "--force");
  }

  lemma GetDetailsFromStorageWords(cluster: string)
    requires IsWord(cluster)
    ensures Words(GetDetailsFromStorageCommand(cluster).args)
         == ["-C", "/cluster/" + cluster + "/storage-elements/storage-volumes"]
  {
    var path := "/cluster/" + cluster + "/storage-elements/storage-volumes";
    assert GetDetailsFromStorageCommand(cluster).args == " " + "-C" + " " + path;
    WordsLead2("-C", path);
  }

  // ---------------------------------------------------- running a plan

  /** The requests a run issued, and how the run ended. */
  datatype Trace = Trace(issued: seq<Command>, outcome: Outcome<Error>)

  /** The first n commands of plan, issued as requests base, base + 1, ..., are all acknowledged. */
  ghost predicate AllAccepted(plan: seq<Command>, base: nat, appliance: (nat, Command) -> Response, n: nat)
    requires n <= |plan|
  {
    forall k :: 0 <= k < n ==> Verdict(appliance, base + k, plan[k]).Pass?
  }

  /** Issuing plan in order from request number base: every command is sent until
      one is refused; the refused one is the last sent, and nothing is undone. */
  function Run(plan: seq<Command>, base: nat, appliance: (nat, Command) -> Response): Trace
    decreases |plan|
  {
    if plan == [] then Trace([], Pass)
    else
      var o := Verdict(appliance, base, plan[0]);
      if o.Fail? then Trace([plan[0]], o)
      else
        var t := Run(plan[1..], base + 1, appliance);
        Trace([plan[0]] + t.issued, t.outcome)
  }

  /** Acceptance of a plan's tail, shifted by one request, plus acceptance of its head. */
  lemma ShiftAccepted(plan: seq<Command>, base: nat, appliance: (nat, Command) -> Response, n: nat)
    requires 0 < |plan| && n < |plan|
    ensures AllAccepted(plan, base, appliance, n + 1) <==>
      Verdict(appliance, base, plan[0]).Pass? && AllAccepted(plan[1..], base + 1, appliance, n)
  {
    if Verdict(appliance, base, plan[0]).Pass? && AllAccepted(plan[1..], base + 1, appliance, n) {
      forall k | 0 <= k < n + 1
        ensures Verdict(appliance, base + k, plan[k]).Pass?
      {
        if k > 0 {
          assert plan[k] == plan[1..][k - 1];
        }
      }
    }
    if AllAccepted(plan, base, appliance, n + 1) {
      forall k | 0 <= k < n
        ensures Verdict(appliance, base + 1 + k, plan[1..][k]).Pass?
      {
        assert plan[1..][k] == plan[k + 1];
      }
    }
  }

  /** A run issues a prefix of the plan. */
  lemma {:induction false} RunIssuesPrefix(plan: seq<Command>, base: nat, appliance: (nat, Command) -> Response)
    ensures Run(plan, base, appliance).issued <= plan
    decreases |plan|
  {
    if plan != [] && Verdict(appliance, base, plan[0]).Pass? {
      RunIssuesPrefix(plan[1..], base + 1, appliance);
      assert [plan[0]] + plan[1..] == plan;
    }
  }

  /** A run passes only having issued the whole plan, every command acknowledged. */
  lemma {:induction false} RunPasses(plan: seq<Command>, base: nat, appliance: (nat, Command) -> Response)
    requires Run(plan, base, appliance).outcome.Pass?
    ensures Run(plan, base, appliance).issued == plan && AllAccepted(plan, base, appliance, |plan|)
    decreases |plan|
  {
    if plan != [] {
      RunPasses(plan[1..], base + 1, appliance);
      ShiftAccepted(plan, base, appliance, |plan| - 1);
      assert [plan[0]] + plan[1..] == plan;
    }
  }

  /** A run fails on the verdict on the last command it issued, every earlier one acknowledged. */
  lemma {:induction false} RunFails(plan: seq<Command>, base: nat, appliance: (nat, Command) -> Response)
    requires Run(plan, base, appliance).outcome.Fail?
    ensures var t := Run(plan, base, appliance);
      0 < |t.issued| <= |plan| && AllAccepted(plan, base, appliance, |t.issued| - 1) &&
      t.outcome == Verdict(appliance, base + |t.issued| - 1, plan[|t.issued| - 1])
    decreases |plan|
  {
    if Verdict(appliance, base, plan[0]).Pass? {
      var t := Run(plan[1..], base + 1, appliance);
      RunFails(plan[1..], base + 1, appliance);
      ShiftAccepted(plan, base, appliance, |t.issued| - 1);
      assert plan[1..][|t.issued| - 1] == plan[|t.issued|];
    }
  }

  /** A plan whose every command is acknowledged is issued whole and passes. */
  lemma {:induction false} RunCompletes(plan: seq<Command>, base: nat, appliance: (nat, Command) -> Response)
    requires AllAccepted(plan, base, appliance, |plan|)
    ensures Run(plan, base, appliance) == Trace(plan, Pass)
    decreases |plan|
  {
    if plan != [] {
      assert Verdict(appliance, base + 0, plan[0]).Pass?;
      ShiftAccepted(plan, base, appliance, |plan| - 1);
      RunCompletes(plan[1..], base + 1, appliance);
      assert [plan[0]] + plan[1..] == plan;
    }
  }

  /** When the commands before index n are acknowledged and the n-th is refused, the
      run issues exactly plan[..n + 1] and ends with that refusal. */
  lemma {:induction false} RunStopsAt(plan: seq<Command>, base: nat, appliance: (nat, Command) -> Response, n: nat)
    requires n < |plan| && AllAccepted(plan, base, appliance, n)
    requires Verdict(appliance, base + n, plan[n]).Fail?
    ensures Run(plan, base, appliance) == Trace(plan[..n + 1], Verdict(appliance, base + n, plan[n]))
    decreases n
  {
    if n > 0 {
      assert Verdict(appliance, base + 0, plan[0]).Pass?;
      ShiftAccepted(plan, base, appliance, n - 1);
      assert plan[1..][n - 1] == plan[n];
      RunStopsAt(plan[1..], base + 1, appliance, n - 1);
      assert [plan[0]] + plan[1..][..n] == plan[..n + 1];
    }
  }

  /** A run in progress: the first n commands of plan have been issued after log0,
      and every one of them was acknowledged. */
  ghost predicate Partial(plan: seq<Command>, log0: seq<Command>, appliance: (nat, Command) -> Response, log: seq<Command>, n: nat)
  {
    n <= |plan| && log == log0 + plan[..n] && AllAccepted(plan, |log0|, appliance, n)
  }

  /** A finished run, read off the log: what was issued after log0 is a prefix of the
      plan; a pass issued all of it, each acknowledged; a failure is the verdict on the
      last command issued, every earlier one acknowledged. */
  ghost predicate Ran(plan: seq<Command>, log0: seq<Command>, appliance: (nat, Command) -> Response, log: seq<Command>, o: Outcome<Error>)
  {
    |log0| <= |log| <= |log0| + |plan| &&
    var m := |log| - |log0|;
    log == log0 + plan[..m] &&
    if o.Pass? then m == |plan| && AllAccepted(plan, |log0|, appliance, m)
    else 0 < m && AllAccepted(plan, |log0|, appliance, m - 1) && o == Verdict(appliance, |log0| + m - 1, plan[m - 1])
  }

  /** Issuing the next command of a run in progress: it either ends the run, with that
      command's verdict, or the run goes on one command further. */
  lemma Accept(plan: seq<Command>, log0: seq<Command>, appliance: (nat, Command) -> Response, log: seq<Command>, n: nat)
    requires Partial(plan, log0, appliance, log, n) && n < |plan|
    ensures var o := Verdict(appliance, |log|, plan[n]);
      if o.Pass? then Partial(plan, log0, appliance, log + [plan[n]], n + 1)
      else Ran(plan, log0, appliance, log + [plan[n]], o)
  {
    assert plan[..n + 1] == plan[..n] + [plan[n]];
  }

  /** The log-level description of a finished run agrees with issuing the plan. */
  lemma RanIsRun(plan: seq<Command>, log0: seq<Command>, appliance: (nat, Command) -> Response, log: seq<Command>, o: Outcome<Error>)
    ensures Ran(plan, log0, appliance, log, o) <==>
      log == log0 + Run(plan, |log0|, appliance).issued && o == Run(plan, |log0|, appliance).outcome
  {
    var t := Run(plan, |log0|, appliance);
    if Ran(plan, log0, appliance, log, o) {
      var m := |log| - |log0|;
      if o.Pass? {
        RunCompletes(plan, |log0|, appliance);
        assert plan[..m] == plan;
      } else {
        RunStopsAt(plan, |log0|, appliance, m - 1);
      }
    }
    if log == log0 + t.issued && o == t.outcome {
      RunIssuesPrefix(plan, |log0|, appliance);
      if o.Pass? {
        RunPasses(plan, |log0|, appliance);
      } else {
        RunFails(plan, |log0|, appliance);
      }
      assert t.issued == plan[..|t.issued|];
    }
  }

  // ------------------------------------------------------------ the gateway

  /** `https://<ip>:<port>/vplex`. */
  function BaseUri(ip: string, port: string): string {
    "https://" + ip + ":" + port + "/vplex"
  }

  /** Recovers the address and the port from a base URI, cutting at the first ':' after the scheme. */
  function ParseBaseUri(uri: string): Option<(string, string)> {
    if |uri| >= 14 && uri[..8] == "https://" && uri[|uri| - 6..] == "/vplex" then
      var hostPort := uri[8..|uri| - 6];
      match FirstIndexOf(hostPort, ':')
      case None => None
      case Some(i) => Some((hostPort[..i], hostPort[i + 1..]))
    else None
  }

  function FirstIndexOf(s: string, c: char): (r: Option<nat>)
    ensures r.None? <==> c !in s
    ensures r.Some? ==> r.value < |s| && s[r.value] == c && c !in s[..r.value]
    decreases |s|
  {
    if s == [] then None
    else if s[0] == c then Some(0)
    else match FirstIndexOf(s[1..], c)
      case None => None
      case Some(i) => assert s[..i + 1] == [s[0]] + s[1..][..i]; Some(i + 1)
  }

  /** The base URI hands back the address and port it was built from, when the address has no ':'. */
  lemma ParseBaseUriRoundTrip(ip: string, port: string)
    requires ':' !in ip
    ensures ParseBaseUri(BaseUri(ip, port)) == Some((ip, port))
  {
    var uri := BaseUri(ip, port);
    assert uri[..8] == "https://";
    assert uri[|uri| - 6..] == "/vplex";
    var hostPort := uri[8..|uri| - 6];
    assert hostPort == ip + ":" + port;
    assert hostPort[|ip|] == ':';
    assert hostPort[..|ip|] == ip;
    FirstIndexOfNear(hostPort, ':', |ip|);
    assert hostPort[|ip| + 1..] == port;
  }

  lemma FirstIndexOfNear(s: string, c: char, i: nat)
    requires i < |s| && s[i] == c && c !in s[..i]
    ensures FirstIndexOf(s, c) == Some(i)
  {
  }

  /** `VPLEXRest`: the credentials, the base URI, and the requests issued so far. */
  class VplexRest {
    var user: Option<string>
    var passwd: Option<string>
    var baseUri: Option<string>
    /** Every request issued so far, in order. */
    var log: seq<Command>
    /** The appliance: its reply to the k-th request (counting from 0) when that request is c. */
    const appliance: (nat, Command) -> Response

    constructor (appliance: (nat, Command) -> Response)
      ensures this.appliance == appliance
      ensures user == None && passwd == None && baseUri == None && log == []
    {
      this.appliance := appliance;
      user, passwd, baseUri := None, None, None;
      log := [];
    }

    /** `set_rest_credentials`: only the first site's record is read. */
    method SetRestCredentials(arrayInfo: ArrayMap) returns (o: Outcome<Error>)
      modifies this`user, this`passwd, this`baseUri
      ensures |arrayInfo.emc| == 0 ==>
        o == Fail(IndexOutOfRange) && user == old(user) && passwd == old(passwd) && baseUri == old(baseUri)
      ensures |arrayInfo.emc| > 0 ==>
        var site := arrayInfo.emc[0];
        o == Pass && user == Some(site.username) && passwd == Some(site.password) &&
        baseUri == Some(BaseUri(site.mgmtServerIp, site.mgmtServerPort))
    {
      if |arrayInfo.emc| == 0 {
        return Fail(IndexOutOfRange);
      }
      var site := arrayInfo.emc[0];
      var ip := site.mgmtServerIp;
      var port := site.mgmtServerPort;
      user := Some(site.username);
      passwd := Some(site.password);
      var ipPort := ip + ":" + port;
      assert "https://" + ipPort + "/vplex" == BaseUri(ip, port);
      baseUri := Some("https://" + ipPort + "/vplex");
      o := Pass;
    }

    /** `create_resource`: one POST to the resource path, then the acknowledgment check. */
    method CreateResource(resourceType: string, args: string) returns (o: Outcome<Error>)
      modifies this`log
      ensures log == old(log) + [Command(Post, resourceType, args)]
      ensures o == Verdict(appliance, |old(log)|, Command(Post, resourceType, args))
    {
      var c := Command(Post, resourceType, args);
      var response := appliance(|log|, c);
      log := log + [c];
      o := CheckStatusCodeAndMessageSuccess(Operation(resourceType), response.status, response.message);
    }

    /** `get_resource`: one GET, then the same check; the decoded body is returned. */
    method GetResource(resourceType: string, args: string) returns (r: Result<Message, Error>)
      modifies this`log
      ensures log == old(log) + [Command(Get, resourceType, args)]
      ensures var c := Command(Get, resourceType, args);
        match Verdict(appliance, |old(log)|, c)
        case Pass => r == Success(appliance(|old(log)|, c).message)
        case Fail(e) => r == Failure(e)
    {
      var c := Command(Get, resourceType, args);
      var response := appliance(|log|, c);
      log := log + [c];
      var o := CheckStatusCodeAndMessageSuccess(Operation(resourceType), response.status, response.message);
      if o.Fail? {
        return Failure(o.error);
      }
      r := Success(response.message);
    }

    /** Issues one prepared POST command. */
    method Issue(c: Command) returns (o: Outcome<Error>)
      requires c.verb == Post
      modifies this`log
      ensures log == old(log) + [c]
      ensures o == Verdict(appliance, |old(log)|, c)
    {
      o := CreateResource(c.resourceType, c.args);
    }

    method ReDiscoveryArrays(cluster: string, hard: string) returns (o: Outcome<Error>)
      modifies this`log
      ensures log == old(log) + [ReDiscoveryArraysCommand(cluster, hard)]
      ensures o == Verdict(appliance, |old(log)|, ReDiscoveryArraysCommand(cluster, hard))
    {
      o := Issue(ReDiscoveryArraysCommand(cluster, hard));
    }

    method ClaimStorageVolume(name: string, storageVolumes: string) returns (o: Outcome<Error>)
      modifies this`log
      ensures log == old(log) + [ClaimStorageVolumeCommand(name, storageVolumes)]
      ensures o == Verdict(appliance, |old(log)|, ClaimStorageVolumeCommand(name, storageVolumes))
    {
      o := Issue(ClaimStorageVolumeCommand(name, storageVolumes));
    }

    method CreateExtent(storageVolumes: string) returns (o: Outcome<Error>)
      modifies this`log
      ensures log == old(log) + [CreateExtentCommand(storageVolumes)]
      ensures o == Verdict(appliance, |old(log)|, CreateExtentCommand(storageVolumes))
    {
      o := Issue(CreateExtentCommand(storageVolumes));
    }

    method CreateLocalDevice(name: string, extent: string, geometry: string) returns (o: Outcome<Error>)
      modifies this`log
      ensures log == old(log) + [CreateLocalDeviceCommand(name, extent, geometry)]
      ensures o == Verdict(appliance, |old(log)|, CreateLocalDeviceCommand(name, extent, geometry))
    {
      o := Issue(CreateLocalDeviceCommand(name, extent, geometry));
    }

    method CreateVirtualVolume(device: string) returns (o: Outcome<Error>)
      modifies this`log
      ensures log == old(log) + [CreateVirtualVolumeCommand(device)]
      ensures o == Verdict(appliance, |old(log)|, CreateVirtualVolumeCommand(device))
    {
      o := Issue(CreateVirtualVolumeCommand(device));
    }

    method AttachMirrorDevice(device: string, mirrorDevice: string) returns (o: Outcome<Error>)
      modifies this`log
      ensures log == old(log) + [AttachMirrorDeviceCommand(device, mirrorDevice)]
      ensures o == Verdict(appliance, |old(log)|, AttachMirrorDeviceCommand(device, mirrorDevice))
    {
      o := Issue(AttachMirrorDeviceCommand(device, mirrorDevice));
    }

    method CreateConsistencyGroup(name: string, cluster: string) returns (o: Outcome<Error>)
      modifies this`log
      ensures log == old(log) + [CreateConsistencyGroupCommand(name, cluster)]
      ensures o == Verdict(appliance, |old(log)|, CreateConsistencyGroupCommand(name, cluster))
    {
      o := Issue(CreateConsistencyGroupCommand(name, cluster));
    }

    method SetConsistencyGroupVisibility(attributes: string, value: string) returns (o: Outcome<Error>)
      modifies this`log
      ensures log == old(log) + [SetConsistencyGroupVisibilityCommand(attributes, value)]
      ensures o == Verdict(appliance, |old(log)|, SetConsistencyGroupVisibilityCommand(attributes, value))
    {
      o := Issue(SetConsistencyGroupVisibilityCommand(attributes, value));
    }

    method SetDetachRuleToConsistencyGroup(cluster: string, delay: string, consistencyGroups: string)
      returns (o: Outcome<Error>)
      modifies this`log
      ensures log == old(log) + [SetDetachRuleToConsistencyGroupCommand(cluster, delay, consistencyGroups)]
      ensures o == Verdict(appliance, |old(log)|, SetDetachRuleToConsistencyGroupCommand(cluster, delay, consistencyGroups))
    {
      o := Issue(SetDetachRuleToConsistencyGroupCommand(cluster, delay, consistencyGroups));
    }

    method AddVirtualVolumesToConsistencyGroup(volumes: string, consistencyGroup: string) returns (o: Outcome<Error>)
      modifies this`log
      ensures log == old(log) + [AddVirtualVolumesToConsistencyGroupCommand(volumes, consistencyGroup)]
      ensures o == Verdict(appliance, |old(log)|, AddVirtualVolumesToConsistencyGroupCommand(volumes, consistencyGroup))
    {
      o := Issue(AddVirtualVolumesToConsistencyGroupCommand(volumes, consistencyGroup));
    }

    method CreateExportStorageView(cluster: string, name: string, ports: string) returns (o: Outcome<Error>)
      modifies this`log
      ensures log == old(log) + [CreateExportStorageViewCommand(cluster, name, ports)]
      ensures o == Verdict(appliance, |old(log)|, CreateExportStorageViewCommand(cluster, name, ports))
    {
      o := Issue(CreateExportStorageViewCommand(cluster, name, ports));
    }

    /** `register_export_initiator_port`: the port list is assembled entry by entry,
        with ", " after every entry but the last. */
    method RegisterExportInitiatorPort(cluster: string, initiatorPort: string, ports: seq<string>)
      returns (o: Outcome<Error>)
      modifies this`log
      ensures log == old(log) + [RegisterExportInitiatorPortCommand(cluster, initiatorPort, JoinPorts(ports))]
      ensures o == Verdict(appliance, |old(log)|, RegisterExportInitiatorPortCommand(cluster, initiatorPort, JoinPorts(ports)))
    {
      var portStr := "";
      var index := 0;
      while index < |ports|
        invariant 0 <= index <= |ports| && (|ports| > 0 ==> index < |ports|)
        invariant portStr == if index == 0 then "" else JoinPorts(ports[..index]) + ", "
        invariant log == old(log)
      {
        JoinPortsPrefixStep(ports, index);
        portStr := portStr + ports[index];
        if index == |ports| - 1 {
          assert ports[..index + 1] == ports;
          break;
        }
        portStr := portStr + ", ";
        index := index + 1;
      }
      assert portStr == JoinPorts(ports);
      o := Issue(RegisterExportInitiatorPortCommand(cluster, initiatorPort, portStr));
    }

    method AddInitiatorPortToExportStorageView(view: string, initiatorPort: string) returns (o: Outcome<Error>)
      modifies this`log
      ensures log == old(log) + [AddInitiatorPortToExportStorageViewCommand(view, initiatorPort)]
      ensures o == Verdict(appliance, |old(log)|, AddInitiatorPortToExportStorageViewCommand(view, initiatorPort))
    {
      o := Issue(AddInitiatorPortToExportStorageViewCommand(view, initiatorPort));
    }

    method AddPortToExportStorageView(view: string, ports: string) returns (o: Outcome<Error>)
      modifies this`log
      ensures log == old(log) + [AddPortToExportStorageViewCommand(view, ports)]
      ensures o == Verdict(appliance, |old(log)|, AddPortToExportStorageViewCommand(view, ports))
    {
      o := Issue(AddPortToExportStorageViewCommand(view, ports));
    }

    method AddVirtualVolumeToExportStorageView(view: string, virtualVolumes: string) returns (o: Outcome<Error>)
      modifies this`log
      ensures log == old(log) + [AddVirtualVolumeToExportStorageViewCommand(view, virtualVolumes)]
      ensures o == Verdict(appliance, |old(log)|, AddVirtualVolumeToExportStorageViewCommand(view, virtualVolumes))
    {
      o := Issue(AddVirtualVolumeToExportStorageViewCommand(view, virtualVolumes));
    }

    method RemoveInitiatorPortExportStorageView(view: string, initiatorPorts: string) returns (o: Outcome<Error>)
      modifies this`log
      ensures log == old(log) + [RemoveInitiatorPortExportStorageViewCommand(view, initiatorPorts)]
      ensures o == Verdict(appliance, |old(log)|, RemoveInitiatorPortExportStorageViewCommand(view, initiatorPorts))
    {
      o := Issue(RemoveInitiatorPortExportStorageViewCommand(view, initiatorPorts));
    }

    method RemovePortExportStorageView(view: string, ports: string) returns (o: Outcome<Error>)
      modifies this`log
      ensures log == old(log) + [RemovePortExportStorageViewCommand(view, ports)]
      ensures o == Verdict(appliance, |old(log)|, RemovePortExportStorageViewCommand(view, ports))
    {
      o := Issue(RemovePortExportStorageViewCommand(view, ports));
    }

    method RemoveVirtualVolumeExportStorageView(virtualVolumes: string, view: string) returns (o: Outcome<Error>)
      modifies this`log
      ensures log == old(log) + [RemoveVirtualVolumeExportStorageViewCommand(virtualVolumes, view)]
      ensures o == Verdict(appliance, |old(log)|, RemoveVirtualVolumeExportStorageViewCommand(virtualVolumes, view))
    {
      o := Issue(RemoveVirtualVolumeExportStorageViewCommand(virtualVolumes, view));
    }

    method DestroyExportStorageView(view: string) returns (o: Outcome<Error>)
      modifies this`log
      ensures log == old(log) + [DestroyExportStorageViewCommand(view)]
      ensures o == Verdict(appliance, |old(log)|, DestroyExportStorageViewCommand(view))
    {
      o := Issue(DestroyExportStorageViewCommand(view));
    }

    method UnregisterExportInitiatorPort(initiatorPort: string) returns (o: Outcome<Error>)
      modifies this`log
      ensures log == old(log) + [UnregisterExportInitiatorPortCommand(initiatorPort)]
      ensures o == Verdict(appliance, |old(log)|, UnregisterExportInitiatorPortCommand(initiatorPort))
    {
      o := Issue(UnregisterExportInitiatorPortCommand(initiatorPort));
    }

    method ConsistencyGroupRemoveVirtualVolumes(consistencyGroup: string, virtualVolumes: string)
      returns (o: Outcome<Error>)
      modifies this`log
      ensures log == old(log) + [ConsistencyGroupRemoveVirtualVolumesCommand(consistencyGroup, virtualVolumes)]
      ensures o == Verdict(appliance, |old(log)|, ConsistencyGroupRemoveVirtualVolumesCommand(consistencyGroup, virtualVolumes))
    {
      o := Issue(ConsistencyGroupRemoveVirtualVolumesCommand(consistencyGroup, virtualVolumes));
    }

    method DestroyVirtualVolume(virtualVolumes: string) returns (o: Outcome<Error>)
      modifies this`log
      ensures log == old(log) + [DestroyVirtualVolumeCommand(virtualVolumes)]
      ensures o == Verdict(appliance, |old(log)|, DestroyVirtualVolumeCommand(virtualVolumes))
    {
      o := Issue(DestroyVirtualVolumeCommand(virtualVolumes));
    }

    method DetachMirrorDevice(device: string, mirrorDevice: string) returns (o: Outcome<Error>)
      modifies this`log
      ensures log == old(log) + [DetachMirrorDeviceCommand(device, mirrorDevice)]
      ensures o == Verdict(appliance, |old(log)|, DetachMirrorDeviceCommand(device, mirrorDevice))
    {
      o := Issue(DetachMirrorDeviceCommand(device, mirrorDevice));
    }

    method DestroyDistributedDevices(distributedDevices: string) returns (o: Outcome<Error>)
      modifies this`log
      ensures log == old(log) + [DestroyDistributedDevicesCommand(distributedDevices)]
      ensures o == Verdict(appliance, |old(log)|, DestroyDistributedDevicesCommand(distributedDevices))
    {
      o := Issue(DestroyDistributedDevicesCommand(distributedDevices));
    }

    method DestroyLocalDevice(device: string) returns (o: Outcome<Error>)
      modifies this`log
      ensures log == old(log) + [DestroyLocalDeviceCommand(device)]
      ensures o == Verdict(appliance, |old(log)|, DestroyLocalDeviceCommand(device))
    {
      o := Issue(DestroyLocalDeviceCommand(device));
    }

    method DestroyExtent(extent: string) returns (o: Outcome<Error>)
      modifies this`log
      ensures log == old(log) + [DestroyExtentCommand(extent)]
      ensures o == Verdict(appliance, |old(log)|, DestroyExtentCommand(extent))
    {
      o := Issue(DestroyExtentCommand(extent));
    }

    method UnclaimStorageVolume(storageVolume: string) returns (o: Outcome<Error>)
      modifies this`log
      ensures log == old(log) + [UnclaimStorageVolumeCommand(storageVolume)]
      ensures o == Verdict(appliance, |old(log)|, UnclaimStorageVolumeCommand(storageVolume))
    {
      o := Issue(UnclaimStorageVolumeCommand(storageVolume));
    }

    method ForgetStorageVolume(hard: string) returns (o: Outcome<Error>)
      modifies this`log
      ensures log == old(log) + [ForgetStorageVolumeCommand(hard)]
      ensures o == Verdict(appliance, |old(log)|, ForgetStorageVolumeCommand(hard))
    {
      o := Issue(ForgetStorageVolumeCommand(hard));
    }

    method DestroyConsistencyGroup(consistencyGroups: string) returns (o: Outcome<Error>)
      modifies this`log
      ensures log == old(log) + [DestroyConsistencyGroupCommand(consistencyGroups)]
      ensures o == Verdict(appliance, |old(log)|, DestroyConsistencyGroupCommand(consistencyGroups))
    {
      o := Issue(DestroyConsistencyGroupCommand(consistencyGroups));
    }

    /** `get_details_from_storage`: the storage-volume listing of one cluster. */
    method GetDetailsFromStorage(cluster: string) returns (r: Result<Message, Error>)
      modifies this`log
      ensures log == old(log) + [GetDetailsFromStorageCommand(cluster)]
      ensures var c := GetDetailsFromStorageCommand(cluster);
        match Verdict(appliance, |old(log)|, c)
        case Pass => r == Success(appliance(|old(log)|, c).message)
        case Fail(e) => r == Failure(e)
    {
      var c := GetDetailsFromStorageCommand(cluster);
      r := GetResource(c.resourceType, c.args);
    }
  }
}
