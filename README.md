# VPLEX volume driver core, modelled in Dafny

This project models the core of the EMC VPLEX block-storage driver (`vplex_v8.1`).
The core has four stages:

- The descriptor builder (`VMAXCommon`) turns a volume request and the configured
  sites into the "extra specs". These are every backend resource name of the volume
  (LUN, device, extent, virtual volume, storage view, initiator port group and
  consistency group) and the per-site topology lists.
- The provisioning engine (`VPLEXAdapter`) turns the extra specs into ordered
  sequences of gateway calls. It creates and deletes volumes, consistency groups and
  storage views, and it surveys the capacity of the clusters.
- The gateway (`VPLEXRest`) turns each call into one request with a fixed resource
  path and argument string. It checks every reply with
  `check_status_code_and_message_success`.
- The utilities (`VPLEXUtils`) cover reading tags, choosing a port group, collecting
  WWPNs, truncating group ids and rendering elapsed time.

The gateway is a class `Rest.VplexRest`:

- Its `log` field records every request issued, in order.
- Its `appliance` function gives the reply to the k-th request.
- A request is acknowledged when its reply passes the status-and-exception check.
  Otherwise the call raises.

Each adapter operation is specified by a plan, which is the list of commands the
source issues when nothing fails. `Rest.Run` describes issuing a plan: commands go out
in order until one is refused, the refused one is the last sent, and nothing is
undone. Each adapter method ensures `Ran(plan, old(log), appliance, log, outcome)`.
`Rest.RanIsRun` proves this equal to
`log == old(log) + Run(plan).issued && outcome == Run(plan).outcome`. The plan lemmas
then state which command sits at each position of the plan.

Several behaviours of the code are modelled exactly as written:

- The test `index == index` in `delete_volume` always holds, so the detached device
  is the last listed device.
- The reply check refuses an exception field that is None or `"null"`, and passes any
  other exception value.
- The `elif` for records in use in the capacity survey can never be reached, so
  provisioned capacity is always 0.
- The connection-info validation loop has no effect.
- Some argument strings have no space between words, for example `extent + "-g" +
  geometry` and `delay + "--consistency-groups" + group`.
- The resource path `"extent+destroy "` ends with a space.
- The survey starts its minimum at `sys.maxsize` (9223372036854775807) and lowers it
  only on a strictly smaller total. A cluster whose total lowers it to zero raises
  division by zero. An empty cluster list ends in an unbound local.

Where the code cannot run as written, the model does one of three things:

- It follows the code to the exception it raises. Examples are the None defaults of `_initial_setup`, a child node with no value, and the `'WORKLOAD'` key.
- It models the evidently intended code, for the workload key. "## Findings" gives both versions.
- It takes the missing value as an input. "## Left out" lists each such case.
- It replaces the HTTP transport, which as written cannot send a request, with an abstract appliance standing for the intended transport. "## Left out" names the three faults.

Files:

- `basics.dfy`: the Option, Result and Outcome types, and the exceptions the code raises.
- `text.dfy`: decimal rendering, `strip`, the shell's word splitting, and the ", " port list.
- `topology.dfy`: the site records of the array map and the keys a record holds.
- `utils.dfy`: `utils_v4.0.py`.
- `rest.dfy`: `rest_v3.0.py`, plus the `Run` semantics of issuing a plan.
- `common.dfy`: `common_v5.0.py`.
- `adapter.dfy`: `adapter_v3.0.py`.

## Model

| member | source | states |
|---|---|---|
| Utils.ElementsByTagName | vplex_v8.1/utils_v4.0.py:37 | The result holds only descendants with the tag and every one of them. It has one entry per tagged position, so duplicates are kept, and its first entry is the first tagged descendant in document order. |
| Utils.ProcessTag | vplex_v8.1/utils_v4.0.py:63-78 | Stated against the element's descendants: the value is present exactly when some descendant has the tag and the first such descendant has a text child. The value is then that text, stripped. A missing element, a missing child and a child whose value is None all give None, and no tagged descendant means None. |
| Utils.StrippedNames | vplex_v8.1/utils_v4.0.py:39-42 | The set never holds the empty name. It holds every non-blank stripped text of the found elements' children, and every member is the stripped text of some found element's child. |
| Utils.SetToList | vplex_v8.1/utils_v4.0.py:42 | The list holds exactly the set's members, each once. |
| Utils.GetRandomPortgroup | vplex_v8.1/utils_v4.0.py:31-46 | The method raises an AttributeError exactly when some port-group element's first child has a None value. Otherwise the result is None exactly when no non-blank port-group name is declared, and else one of the de-duplicated declared names, never empty. |
| Utils.GetVplexWwpns | vplex_v8.1/utils_v4.0.py:48-61 | The method raises an AttributeError exactly when some WWPN element's first child has a None value. The result is None exactly when no WWPN element exists. Otherwise it lists exactly the distinct non-blank values, with no duplicates and no empty entry. |
| Utils.ConnectionKeysCount | vplex_v8.1/utils_v4.0.py:87-110 | The connection record has eleven distinct keys. |
| Utils.GetVplexConnectionInfo | vplex_v8.1/utils_v4.0.py:80-121 | The keys are exactly the eleven listed names. Each value is that tag's processed value, so a missing (None) value is passed on and never rejected. |
| Utils.TruncateString | vplex_v8.1/utils_v4.0.py:289-302 | A string of length at most maxNum is unchanged. A longer one becomes its first and last maxNum div 2 characters, so its length is 2·(maxNum div 2), at most maxNum. |
| Utils.TruncateStringBounded | vplex_v8.1/utils_v4.0.py:296-302 | The result is never longer than the input, and it is at most maxNum long unless it is the input itself. |
| Utils.TruncateStringIdempotent | vplex_v8.1/utils_v4.0.py:296-302 | Truncating a second time changes nothing. |
| Utils.TruncateToInt | vplex_v8.1/utils_v4.0.py:313 | Python's `int` on a float truncates toward zero: the result is the float's floor for non-negative values and its ceiling for negative ones. |
| Utils.TimeDeltaUnderADay | vplex_v8.1/utils_v4.0.py:305-313 | Below one day the text is H:MM:SS with two-digit minutes and seconds and no day part. Reading it back gives the number of seconds. |
| Utils.GetTimeDeltaUnderADay | vplex_v8.1/utils_v4.0.py:305-313 | For a non-negative delta under one day, the text is the H:MM:SS of the truncated seconds and reads back as those seconds. |
| Utils.ParseClockFields | vplex_v8.1/utils_v4.0.py:313 | Hours, two-digit minutes and two-digit seconds joined by colons read back as 3600·h + 60·m + s. |
| Text.NatToString | vplex_v8.1/common_v5.0.py:157 | The decimal rendering of the leg index is a non-empty string of digits, one digit exactly when the index is below ten. |
| Text.ParseNatToString | vplex_v8.1/common_v5.0.py:157 | Parsing the decimal rendering of an index gives the index back. |
| Text.NatToStringInjective | vplex_v8.1/common_v5.0.py:157 | Different indices render differently. |
| Text.Pad2 | vplex_v8.1/utils_v4.0.py:313 | A number below 100 renders as exactly two digits that parse back to it. |
| Text.Strip | vplex_v8.1/utils_v4.0.py:39 | The result is the infix left after removing a run of whitespace at the front and at the back, and it has no whitespace at either end. It is empty exactly when the input is all whitespace. Whitespace is the set Python 2's `unicode.strip()` removes, including the Unicode spaces and separators. |
| Text.StripLeft | vplex_v8.1/utils_v4.0.py:75 | The result is a suffix of the input that starts with no whitespace. Everything removed is whitespace. |
| Text.StripRight | vplex_v8.1/utils_v4.0.py:75 | The result is a prefix of the input that ends with no whitespace. Everything removed is whitespace. |
| Text.JoinPortsSnoc | vplex_v8.1/rest_v3.0.py:303-308 | Appending a port adds it after one ", " separator. The first port gets no separator. |
| Text.SplitJoinPorts | vplex_v8.1/rest_v3.0.py:303-312 | Splitting the joined list at ", " gives every port back, in order, when no port name holds a comma. |
| Rest.CheckStatusCodeAndMessageSuccess | vplex_v8.1/rest_v3.0.py:121-150 | The check passes exactly when the status is 200, 201, 202 or 204 and either the reply is empty or its exception field holds a value other than None or "null". A bad status fails naming the operation and the status. A reply without `'response'` fails with a key error on `'response'`, and one whose response lacks `'exception'` fails with a key error on `'exception'`. |
| Rest.NullExceptionRefused | vplex_v8.1/rest_v3.0.py:140-150 | A status-200 reply whose exception field is null is refused. |
| Rest.RunIssuesPrefix | vplex_v8.1/adapter_v3.0.py:60-87 | A run only ever issues a prefix of its plan. |
| Rest.RunPasses | vplex_v8.1/adapter_v3.0.py:60-87 | A run passes only after issuing the whole plan with every command acknowledged. |
| Rest.RunFails | vplex_v8.1/adapter_v3.0.py:60-87 | A failed run failed on the last command it issued, every earlier command was acknowledged, and nothing after it was sent. |
| Rest.RunCompletes | vplex_v8.1/adapter_v3.0.py:60-87 | When every command is acknowledged, the whole plan is issued and the run passes. |
| Rest.RunStopsAt | vplex_v8.1/adapter_v3.0.py:60-87 | When the first refused command is the n-th, the run issues exactly the first n + 1 commands and ends with that refusal. |
| Rest.ShiftAccepted | vplex_v8.1/adapter_v3.0.py:60-87 | A plan's first n + 1 commands are acknowledged exactly when its head is acknowledged and the first n commands of its tail are acknowledged one request later. |
| Rest.Accept | vplex_v8.1/adapter_v3.0.py:60-87 | Issuing the next command of a run in progress either ends the run with that command's verdict or moves it one command further. |
| Rest.RanIsRun | vplex_v8.1/adapter_v3.0.py:60-87 | The log-level description of a finished run (a prefix of the plan was issued, a pass issued everything, a failure is the verdict on the last command issued) is equivalent to what issuing the plan produces. |
| Rest.FirstIndexOf | vplex_v8.1/rest_v3.0.py:53 | The first position of the character, or None exactly when the character is absent. |
| Rest.ParseBaseUriRoundTrip | vplex_v8.1/rest_v3.0.py:53-54 | `https://ip:port/vplex` gives back the address and the port it was built from, when the address holds no ':'. |
| Rest.VplexRest.constructor | vplex_v8.1/rest_v3.0.py:39-42 | User, password and base URI start unset, and no request has been issued. |
| Rest.VplexRest.SetRestCredentials | vplex_v8.1/rest_v3.0.py:44-54 | Only the first site's record is read: the user, the password and `https://ip:port/vplex` are set from it. With no site the method fails with an index error and changes nothing. |
| Rest.VplexRest.CreateResource | vplex_v8.1/rest_v3.0.py:152-163 | One POST to the resource path is appended to the log, and its outcome is the reply check on the appliance's answer. |
| Rest.VplexRest.GetResource | vplex_v8.1/rest_v3.0.py:165-177 | One GET is appended to the log. The decoded reply is returned when the check passes, and the check's error is returned otherwise. |
| Rest.VplexRest.ReDiscoveryArrays | vplex_v8.1/rest_v3.0.py:179-187 | Exactly one re-discovery request is appended, and the outcome is its verdict. |
| Rest.VplexRest.ClaimStorageVolume | vplex_v8.1/rest_v3.0.py:189-197 | Exactly one claim request is appended, and the outcome is its verdict. |
| Rest.VplexRest.CreateExtent | vplex_v8.1/rest_v3.0.py:199-206 | Exactly one extent-create request is appended, and the outcome is its verdict. |
| Rest.VplexRest.CreateLocalDevice | vplex_v8.1/rest_v3.0.py:208-217 | Exactly one local-device-create request is appended, and the outcome is its verdict. |
| Rest.VplexRest.CreateVirtualVolume | vplex_v8.1/rest_v3.0.py:219-226 | Exactly one virtual-volume-create request is appended, and the outcome is its verdict. |
| Rest.VplexRest.AttachMirrorDevice | vplex_v8.1/rest_v3.0.py:228-236 | Exactly one attach-mirror request is appended, and the outcome is its verdict. |
| Rest.VplexRest.CreateConsistencyGroup | vplex_v8.1/rest_v3.0.py:238-246 | Exactly one consistency-group-create request is appended, and the outcome is its verdict. |
| Rest.VplexRest.SetConsistencyGroupVisibility | vplex_v8.1/rest_v3.0.py:248-256 | Exactly one `set` request is appended, and the outcome is its verdict. |
| Rest.VplexRest.SetDetachRuleToConsistencyGroup | vplex_v8.1/rest_v3.0.py:258-270 | Exactly one detach-rule request is appended, and the outcome is its verdict. |
| Rest.VplexRest.AddVirtualVolumesToConsistencyGroup | vplex_v8.1/rest_v3.0.py:272-282 | Exactly one add-virtual-volumes request is appended, and the outcome is its verdict. |
| Rest.VplexRest.CreateExportStorageView | vplex_v8.1/rest_v3.0.py:284-294 | Exactly one storage-view-create request is appended, and the outcome is its verdict. |
| Rest.VplexRest.RegisterExportInitiatorPort | vplex_v8.1/rest_v3.0.py:296-313 | The loop builds the ", "-joined port list, with no separator at either end and "" for no ports. Exactly one register request carrying that list is appended, and the outcome is its verdict. |
| Rest.VplexRest.AddInitiatorPortToExportStorageView | vplex_v8.1/rest_v3.0.py:315-324 | Exactly one add-initiator-port request is appended, and the outcome is its verdict. |
| Rest.VplexRest.AddPortToExportStorageView | vplex_v8.1/rest_v3.0.py:326-334 | Exactly one add-port request is appended, and the outcome is its verdict. |
| Rest.VplexRest.AddVirtualVolumeToExportStorageView | vplex_v8.1/rest_v3.0.py:336-344 | Exactly one add-virtual-volume request is appended, and the outcome is its verdict. |
| Rest.VplexRest.RemoveInitiatorPortExportStorageView | vplex_v8.1/rest_v3.0.py:346-354 | Exactly one remove-initiator-port request is appended, and the outcome is its verdict. |
| Rest.VplexRest.RemovePortExportStorageView | vplex_v8.1/rest_v3.0.py:356-364 | Exactly one remove-port request is appended, and the outcome is its verdict. |
| Rest.VplexRest.RemoveVirtualVolumeExportStorageView | vplex_v8.1/rest_v3.0.py:366-374 | Exactly one remove-virtual-volume request is appended, and the outcome is its verdict. |
| Rest.VplexRest.DestroyExportStorageView | vplex_v8.1/rest_v3.0.py:376-382 | Exactly one storage-view-destroy request is appended, and the outcome is its verdict. |
| Rest.VplexRest.UnregisterExportInitiatorPort | vplex_v8.1/rest_v3.0.py:384-390 | Exactly one unregister request is appended, and the outcome is its verdict. |
| Rest.VplexRest.ConsistencyGroupRemoveVirtualVolumes | vplex_v8.1/rest_v3.0.py:392-401 | Exactly one remove-virtual-volumes request is appended, and the outcome is its verdict. |
| Rest.VplexRest.DestroyVirtualVolume | vplex_v8.1/rest_v3.0.py:403-409 | Exactly one virtual-volume-destroy request is appended, and the outcome is its verdict. |
| Rest.VplexRest.DetachMirrorDevice | vplex_v8.1/rest_v3.0.py:411-419 | Exactly one detach-mirror request is appended, and the outcome is its verdict. |
| Rest.VplexRest.DestroyDistributedDevices | vplex_v8.1/rest_v3.0.py:421-428 | Exactly one `ds+dd+destroy` request is appended, and the outcome is its verdict. |
| Rest.VplexRest.DestroyLocalDevice | vplex_v8.1/rest_v3.0.py:430-436 | Exactly one local-device-destroy request is appended, and the outcome is its verdict. |
| Rest.VplexRest.DestroyExtent | vplex_v8.1/rest_v3.0.py:438-444 | Exactly one request to `"extent+destroy "` (with the trailing space) is appended, and the outcome is its verdict. |
| Rest.VplexRest.UnclaimStorageVolume | vplex_v8.1/rest_v3.0.py:446-452 | Exactly one unclaim request is appended, and the outcome is its verdict. |
| Rest.VplexRest.ForgetStorageVolume | vplex_v8.1/rest_v3.0.py:454-460 | Exactly one forget request is appended, and the outcome is its verdict. |
| Rest.VplexRest.DestroyConsistencyGroup | vplex_v8.1/rest_v3.0.py:462-469 | Exactly one consistency-group-destroy request is appended, and the outcome is its verdict. |
| Rest.VplexRest.GetDetailsFromStorage | vplex_v8.1/rest_v3.0.py:471-479 | Exactly one GET of `ll` for the cluster's storage-volume path is appended. The reply is returned when it is acknowledged, and the check's error otherwise. |
| Rest.ReDiscoveryArraysWords | vplex_v8.1/rest_v3.0.py:185-186 | The appliance reads the arguments as `-a hard --cluster cluster --force`. |
| Rest.ClaimStorageVolumeWords | vplex_v8.1/rest_v3.0.py:195-196 | The arguments read as `-n name -d volume --thin-rebuild -f`. The doubled space drops out. |
| Rest.CreateExtentWords | vplex_v8.1/rest_v3.0.py:205 | The arguments read as `-d volume`. |
| Rest.CreateLocalDeviceWords | vplex_v8.1/rest_v3.0.py:215-216 | The extent, `-g` and the geometry reach the appliance glued into one word. |
| Rest.CreateVirtualVolumeWords | vplex_v8.1/rest_v3.0.py:225 | The arguments read as `--device device`. |
| Rest.AttachMirrorDeviceWords | vplex_v8.1/rest_v3.0.py:234-235 | The arguments read as `-d device -m mirror -f`. |
| Rest.AttachMirrorDeviceWordsWithoutMirror | vplex_v8.1/rest_v3.0.py:234-235 | With the empty mirror of a single leg, `-m` is left without a value. |
| Rest.CreateConsistencyGroupWords | vplex_v8.1/rest_v3.0.py:244-245 | The arguments read as `--name name --cluster cluster -f`. |
| Rest.SetConsistencyGroupVisibilityWords | vplex_v8.1/rest_v3.0.py:254-255 | The arguments read as `-a attributes -v value -f`. |
| Rest.SetDetachRuleToConsistencyGroupWords | vplex_v8.1/rest_v3.0.py:266-268 | The delay, the `--consistency-groups` flag and the group reach the appliance glued into one word. |
| Rest.AddVirtualVolumesToConsistencyGroupWords | vplex_v8.1/rest_v3.0.py:278-280 | The arguments read as `--virtual-volumes volumes --consistency-group group -f`. |
| Rest.CreateExportStorageViewWords | vplex_v8.1/rest_v3.0.py:291-293 | The arguments read as `--cluster cluster --name name --ports ports -f`. |
| Rest.RegisterExportInitiatorPortWords | vplex_v8.1/rest_v3.0.py:310-312 | For a single port, the arguments read as `--cluster cluster --initiator-port port-group --ports port -f`. |
| Rest.AddInitiatorPortToExportStorageViewWords | vplex_v8.1/rest_v3.0.py:321-323 | The arguments read as `--view view --initiator-ports port -f`. |
| Rest.AddPortToExportStorageViewWords | vplex_v8.1/rest_v3.0.py:332-333 | The arguments read as `--view view --ports ports`. |
| Rest.AddVirtualVolumeToExportStorageViewWords | vplex_v8.1/rest_v3.0.py:342-343 | The arguments read as `--view view --virtual-volumes volumes`. |
| Rest.RemoveInitiatorPortExportStorageViewWords | vplex_v8.1/rest_v3.0.py:352-353 | The arguments read as `--view view --initiator-ports ports`. |
| Rest.RemovePortExportStorageViewWords | vplex_v8.1/rest_v3.0.py:362-363 | The arguments read as `--view view --ports ports`. |
| Rest.RemoveVirtualVolumeExportStorageViewWords | vplex_v8.1/rest_v3.0.py:372-373 | The arguments read as `--virtual-volumes volumes --view view`. |
| Rest.DestroyExportStorageViewWords | vplex_v8.1/rest_v3.0.py:381 | The leading space drops out, and the arguments read as `--view view`. |
| Rest.UnregisterExportInitiatorPortWords | vplex_v8.1/rest_v3.0.py:389 | The arguments read as `--initiator-port port`. |
| Rest.ConsistencyGroupRemoveVirtualVolumesWords | vplex_v8.1/rest_v3.0.py:399-400 | The arguments read as `--consistency-group group --virtual-volumes volumes`. |
| Rest.DestroyVirtualVolumeWords | vplex_v8.1/rest_v3.0.py:408 | The arguments read as `--virtual-volumes volumes`. |
| Rest.DetachMirrorDeviceWords | vplex_v8.1/rest_v3.0.py:417-418 | The arguments read as `--device device -m mirror`. |
| Rest.DestroyDistributedDevicesWords | vplex_v8.1/rest_v3.0.py:426-427 | The arguments read as `--distributed-devices devices -f`. |
| Rest.DestroyLocalDeviceWords | vplex_v8.1/rest_v3.0.py:435 | The arguments read as `-d device -f`. |
| Rest.DestroyExtentWords | vplex_v8.1/rest_v3.0.py:443 | The arguments read as `-s extent -f`. |
| Rest.UnclaimStorageVolumeWords | vplex_v8.1/rest_v3.0.py:451 | The arguments read as `-d volume`. |
| Rest.ForgetStorageVolumeWords | vplex_v8.1/rest_v3.0.py:459 | The arguments read as `-d hard`. |
| Rest.DestroyConsistencyGroupWords | vplex_v8.1/rest_v3.0.py:467-468 | The arguments read as `--consistency-groups groups --force`. |
| Rest.GetDetailsFromStorageWords | vplex_v8.1/rest_v3.0.py:477-478 | The arguments read as `-C /cluster/<cluster>/storage-elements/storage-volumes`. |
| Common.LunNamesDistinct | vplex_v8.1/common_v5.0.py:157 | Different legs of a volume get different LUN names. |
| Common.DeviceAndExtentNamesInjective | vplex_v8.1/common_v5.0.py:158-159 | The device name and the extent name each determine the LUN they were built from. |
| Common.DeviceIsNotExtent | vplex_v8.1/common_v5.0.py:158-159 | No device name is an extent name. |
| Common.ViewIsNotPortGroup | vplex_v8.1/common_v5.0.py:166-179 | A storage-view name (`-SV`) never equals the initiator port group name (`-PG`) built from the same fields. |
| Common.CgNameShape | vplex_v8.1/common_v5.0.py:144 | The group name has at most eight characters. A short id is kept, and a longer one becomes its first four and last four characters. |
| Common.VisibilityWords | vplex_v8.1/common_v5.0.py:147 | The visibility `cluster-1, cluster-2` reaches the appliance as two words, `cluster-1,` and `cluster-2`. |
| Common.DescribesUnique | vplex_v8.1/common_v5.0.py:135-199 | The volume descriptor is determined by the request, the per-site lists, the protocol and the count. |
| Common.GathersSitesUnique | vplex_v8.1/common_v5.0.py:210-243 | The topology record is determined by the sites and the count. |
| Common.SpecsDescribeUnique | vplex_v8.1/common_v5.0.py:201-254 | The extra specs are determined by the sites, the request, the protocol and the count. Deleting therefore rebuilds the same names that creating built. |
| Common.SpecsDescribeWellFormed | vplex_v8.1/common_v5.0.py:156-183 | Every per-leg list of the extra specs has count entries. The LUN, device and extent names of different legs differ. |
| Common.VmaxCommon.constructor | vplex_v8.1/common_v5.0.py:53-63 | The protocol, the gathered configuration and the gateway are stored as given. |
| Common.VmaxCommon.GetVolumeExtraSpecs | vplex_v8.1/common_v5.0.py:135-199 | A None group raises a type error, then a None volume, then a None connector once there is a leg. The method succeeds exactly when those are present (the connector only when count > 0) and the pool, SLO and workload lists each hold count entries; otherwise it fails with an index error. On success, entry i of every list is leg i's name (LUN `OS-<id>-LUN-<i>`, device, extent, `-SV` view, `-PG` port group, the connector's WWPNs). The scalar names are the virtual volume `OS-<id>_VOL`, the truncated group, `::visibilty`, `raid-0`, `5s` and `cluster-1, cluster-2`. |
| Common.GatherSites | vplex_v8.1/common_v5.0.py:219-243 | A zero count leaves `cluster_name` unbound. With no site, the first read fails with an index error. Under the `'WORKLOAD'` key the first site fails with a key error. Under `'Workload'` the loop succeeds exactly when count is between 1 and the number of sites, and otherwise fails with an index error. On success the lists come from sites 0..count-1 in order and `cluster_name` is the last site's cluster. |
| Common.WorkloadKeyMismatch | vplex_v8.1/utils_v4.0.py:264-277 | The site record holds the workload under `'Workload'` and has no `'WORKLOAD'` entry. |
| Common.VmaxCommon.SetVplexExtraSpecs | vplex_v8.1/common_v5.0.py:201-254 | As written, the method never succeeds. With no gathered configuration it fails with a type error, and a zero count ends with `cluster_name` unbound. With no site it fails with an index error, and otherwise with the key error on `'WORKLOAD'` at the first site. |
| Common.VmaxCommon.SetVplexExtraSpecsCorrected | vplex_v8.1/common_v5.0.py:201-254 | With the workload read under `'Workload'`: the errors come in the source's order (type error without configuration, unbound `cluster_name` for a zero count, index error for too few sites, then the type errors of a None group, volume or connector). The method succeeds exactly when the configuration is present, the count is between 1 and the number of sites, and all three request objects are present. On success the topology lists come from sites 0..count-1 and the volume descriptor is as above. |
| Common.VmaxCommon.InitialSetup | vplex_v8.1/common_v5.0.py:256-286 | Every failure, including an absent record, surfaces as the one setup exception. With no record or a record without sites, the credentials are untouched and the call fails. Otherwise they come from the first site. The method succeeds exactly when the record and the gathered configuration are present, the count is between 1 and the number of sites, and the volume, group and connector are all present. Every caller in `VMAXCommon` passes None for one of them, so in the code as it stands setup always fails. |
| Adapter.ConcatAt | vplex_v8.1/adapter_v3.0.py:65-77 | When every leg has w calls, call j of leg i sits at position w·i + j of the concatenated legs. |
| Adapter.CreateVolumePlanLength | vplex_v8.1/adapter_v3.0.py:65-80 | Creating a volume issues 4·count + 2 calls. |
| Adapter.CreateVolumePlanLeg | vplex_v8.1/adapter_v3.0.py:65-77 | Calls 4i to 4i + 3 are leg i's re-discovery, claim, extent create and local-device create, with leg i's names. |
| Adapter.CreateVolumePlanTail | vplex_v8.1/adapter_v3.0.py:63-80 | The last two calls, issued after every leg, are the virtual-volume create on the first device and the mirror attachment of the second device to it. With a single leg the mirror is "". |
| Adapter.CreateVolumePlanNames | vplex_v8.1/adapter_v3.0.py:65-77 | For extra specs built from the sites and the request, leg i re-discovers site i's array for site i's cluster and claims `OS-<id>-LUN-<i>` over site i's VPD83T3 volume. It then builds `device_<lun>_1` on `extent_<lun>_1` with `raid-0`. |
| Adapter.DeleteVolumePlanLength | vplex_v8.1/adapter_v3.0.py:114-136 | Deleting issues 3 + 5·count calls. The first three are the group removal, the virtual-volume destroy and the detach of the last device from the mirror. |
| Adapter.DeleteVolumePlanLeg | vplex_v8.1/adapter_v3.0.py:125-136 | Calls 3 + 5i to 3 + 5i + 4 destroy leg i's distributed device, its dated local device and its extent, then unclaim its LUN and forget its array. |
| Adapter.DeleteVolumePlanWithoutDate | vplex_v8.1/adapter_v3.0.py:119-128 | Without a mirror date only the three leading calls can be issued. |
| Adapter.DeleteVolumeUndoesCreate | vplex_v8.1/adapter_v3.0.py:65-136 | The device, extent, LUN and array that creating builds for leg i are the ones deleting tears down for leg i. |
| Adapter.ConsistencyGroupPlanShape | vplex_v8.1/adapter_v3.0.py:147-177 | Creating the group issues four calls using the first site's cluster. They create the truncated group, set `<group>::visibilty` to both clusters, set the 5s detach rule and add `OS-<id>_VOL`. |
| Adapter.ViewPlanLength | vplex_v8.1/adapter_v3.0.py:219-264 | Creating and deleting storage views each issue five calls per leg. |
| Adapter.CreateViewPlanLeg | vplex_v8.1/adapter_v3.0.py:219-232 | Calls 5i to 5i + 4 create leg i's view, register its initiator with the joined WWPNs, add the initiator, add the port group and add the virtual volume. |
| Adapter.DeleteViewPlanLeg | vplex_v8.1/adapter_v3.0.py:255-264 | Calls 5i to 5i + 4 remove leg i's initiator, port group and virtual volume, destroy the view and unregister the initiator. |
| Adapter.DeleteViewUndoesCreate | vplex_v8.1/adapter_v3.0.py:219-264 | The view, the port group and the initiator that creating sets up for leg i are the ones deleting removes for leg i. |
| Adapter.TallyPartitions | vplex_v8.1/adapter_v3.0.py:287-293 | Total and free together hold all the listing's capacity, each record counted once. Provisioned is always 0. |
| Adapter.TallyClassifies | vplex_v8.1/adapter_v3.0.py:288-293 | A listing of only in-use or claimed records has no free capacity. A listing with none of them has no total. |
| Adapter.TallyStorage | vplex_v8.1/adapter_v3.0.py:283-293 | The loop's figures are the listing's tally. |
| Adapter.Listing | vplex_v8.1/adapter_v3.0.py:282 | A reply yields a listing exactly when it is an object carrying `attributes`. |
| Adapter.Requests | vplex_v8.1/adapter_v3.0.py:279-281 | The n-th listing request is the GET for the n-th cluster. |
| Adapter.ScanStep | vplex_v8.1/adapter_v3.0.py:279-304 | One more cluster either stops the survey with its error, stops it with a division by zero (when its total lowers the minimum to 0), or extends it. When it extends, the minimum and the choice move to that cluster exactly when its total is strictly smaller. |
| Adapter.ScanStaysStopped | vplex_v8.1/adapter_v3.0.py:278-316 | Once stopped, the survey stays stopped where it stopped. |
| Adapter.ScanStopsAtFirstFailure | vplex_v8.1/adapter_v3.0.py:278-316 | A stopped survey stopped at the first cluster that failed, after every earlier cluster was tallied. |
| Adapter.ScanTallies | vplex_v8.1/adapter_v3.0.py:279-293 | A survey still running after n clusters holds each one's tally, in order. |
| Adapter.MinTotalChosen | vplex_v8.1/adapter_v3.0.py:276-295 | The minimum never exceeds `sys.maxsize` or any cluster's total. It is `sys.maxsize` when no cluster was chosen, and otherwise it is the chosen cluster's total, below that of every earlier cluster. |
| Adapter.ChoiceIsFirstMinimum | vplex_v8.1/adapter_v3.0.py:294-304 | No cluster is chosen exactly when every total is at least `sys.maxsize`. Otherwise the chosen cluster is exactly the first with the smallest total. |
| Adapter.ScannedMinimumNonZero | vplex_v8.1/adapter_v3.0.py:294-297 | A survey that has not stopped never has a minimum of 0. |
| Adapter.SurveyReportsFirstMinimum | vplex_v8.1/adapter_v3.0.py:268-318 | A successful survey had at least one cluster and listed every cluster. Its report is empty exactly when every total is at least `sys.maxsize`, and otherwise it is the figures of the first cluster with the smallest total, which is non-zero. |
| Adapter.SurveyProvisionsNothing | vplex_v8.1/adapter_v3.0.py:290-301 | A reported survey always reports zero provisioned capacity. |
| Adapter.SurveyOfNoClusters | vplex_v8.1/adapter_v3.0.py:305-313 | With no clusters, nothing is requested and the closing log line fails on an unbound `total_capacity_gb`. |
| Adapter.SurveyZeroFirstTotal | vplex_v8.1/adapter_v3.0.py:294-297 | A first cluster with total 0 stops the survey with a division by zero after one request. |
| Adapter.SurveyFailsAtFailedCluster | vplex_v8.1/adapter_v3.0.py:278-316 | The first cluster whose request or listing fails ends the survey with that error, and no later cluster is requested. |
| Adapter.VplexAdapter.constructor | vplex_v8.1/adapter_v3.0.py:28-31 | The adapter holds the gateway, and no mirror date is set. |
| Adapter.VplexAdapter.CreateVolume | vplex_v8.1/adapter_v3.0.py:33-87 | The gateway log grows by exactly the run of the create plan: legs in order, then the virtual volume and the mirror, stopping at the first refusal with nothing undone. The mirror date changes, to `now`, only when every call passed. |
| Adapter.VplexAdapter.DeleteVolume | vplex_v8.1/adapter_v3.0.py:89-139 | The gateway log grows by exactly the run of the delete plan for the stored mirror date. The result passes only when that run passed and a date was available for every leg. Every other ending is the one backend exception. |
| Adapter.VplexAdapter.DestroyLegs | vplex_v8.1/adapter_v3.0.py:125-139 | After the leading calls, the per-leg destroys run in order. Without a date, the first leg fails with the backend exception before any destroy is issued. |
| Adapter.VplexAdapter.CreateConsistencyGroup | vplex_v8.1/adapter_v3.0.py:141-179 | The gateway log grows by exactly the run of the four group calls, stopping at the first refusal. |
| Adapter.VplexAdapter.DeleteConsistencyGroup | vplex_v8.1/adapter_v3.0.py:181-191 | Exactly one destroy of the group is issued, and the outcome is its verdict. |
| Adapter.VplexAdapter.CheckAndCreateStorageView | vplex_v8.1/adapter_v3.0.py:193-234 | The gateway log grows by exactly the run of the five-calls-per-leg create plan, stopping at the first refusal. |
| Adapter.VplexAdapter.CheckAndDeleteStorageView | vplex_v8.1/adapter_v3.0.py:236-266 | The gateway log grows by exactly the run of the five-calls-per-leg delete plan, stopping at the first refusal. |
| Adapter.VplexAdapter.FetchCluster | vplex_v8.1/adapter_v3.0.py:280-293 | One listing request for the cluster is issued, and the result is that cluster's tally or its error. |
| Adapter.VplexAdapter.GetDetailsFromStorage | vplex_v8.1/adapter_v3.0.py:268-318 | The result is the survey of what each cluster's listing yields. The requests issued are the listings of the clusters up to and including the one that stopped it. |
| Adapter.VplexAdapter.ScanListings | vplex_v8.1/adapter_v3.0.py:274-318 | The loop over the clusters computes the survey and issues exactly the listing requests that the survey needs. |

## Left out

- HTTP transport is not modelled: `request`, `_build_uri`, `requests`, basic authentication and JSON decoding. The appliance is a function from the request number and the command to a decoded reply. As written, the transport can never send a request: `create_resource` and `get_resource` call `self._build_uri(...)` (rest_v3.0.py:158, :171) on a `_build_uri` declared without `self` (:56), which raises a TypeError; they pass `request_object=args` (:160, :173), a keyword `request` does not accept (:66); and the POST branch tests `message == 'POST'` instead of `method` (:84), so a POST leaves `response` unbound and ends in VolumeBackendAPIException (:95, :111-117). The model's appliance, `Rest.VplexRest`'s log, and every command and adapter contract built on them describe the intended transport, not the one written.
- The XML configuration file and `parse_file_to_get_array_map` are not modelled. Sites enter as `Topology.Site` records. `_process_tag` and the tag lookups work on an abstract element holding its descendants.
- `random.randint` is not modelled. `Utils.GetRandomPortgroup` may return any declared name.
- Floats and clocks are not modelled. `time.time()` is not read; the mirror date is the text `now` given to `Adapter.VplexAdapter.CreateVolume`. The create-time log line, `reserved_percentage`'s division and rounding, and all logging are also left out.
- Adapter.VplexAdapter.DeleteVolume: the source concatenates a device name with the float mirror date (adapter_v3.0.py:127-128), which cannot succeed. The model stores the date as text so the delete plan can be stated.
- Adapter.VplexAdapter.CreateVolume: the log line at adapter_v3.0.py:83-85 calls the nonexistent `self.utils` after the date is set, so the source raises even when every call passed. The model ends that case with a pass.
- Common.VmaxCommon.GetVolumeExtraSpecs: the source adds an int to a string for the LUN name (common_v5.0.py:157). The model renders the index in decimal.
- Common.VmaxCommon.GetVolumeExtraSpecs: the source indexes an empty local `pool` list (common_v5.0.py:151,169). The model takes the per-site pool list as an input.
- Common.VmaxCommon.GetVolumeExtraSpecs: the model also stores the leg count in the descriptor, because the adapter reads `'count'` (adapter_v3.0.py:62) which the source never produces.
- Common.GatherSites: the record the source stores under `'cluster_name'` is only the last site's cluster, and the adapter indexes it per leg (adapter_v3.0.py:70,157,220). The model also keeps the per-site cluster list the loop builds (common_v5.0.py:230), which the adapter's legs use.
- The extra specs are one record, so the `'array-info'`/`'array_info'` key mismatch (adapter_v3.0.py:40, common_v5.0.py:252) is not modelled.
- Adapter.VplexAdapter.CheckAndCreateStorageView: the virtual volume name is a parameter, because `'virtual_volume'` (adapter_v3.0.py:204,244) is never produced. Adapter.VplexAdapter.CheckAndDeleteStorageView takes it the same way.
- Common.VmaxCommon.InitialSetup: `get_attributes_from_vplex_config` and `_gather_info` are not modelled. The record and the gathered configuration are inputs.
- Common.VmaxCommon.InitialSetup: builds the descriptor with `SetVplexExtraSpecsCorrected`, which reads the workload under `'Workload'`. The source reads `'WORKLOAD'` and always fails there (see "## Findings").
- utils_v4.0.py:238 and :241 are indented with tabs (16 and 24 columns, after lines at 8 and 12), so under Python 2 the module as written raises an IndentationError on import. utils_v4.0.py:282 also names the undefined `emc_cout`. The model reads the functions of `VPLEXUtils` as if the file were consistently indented. It leaves out `parse_file_to_get_array_map`, where those lines are.
- The rest of `VMAXCommon` is framework glue and is not modelled: configuration registration, `update_volume_stats`, and the `create_volume`/`delete_volume`/group/attach/connection delegations.
- `_get_vmax_connection_info` is not modelled.
- Topology.Site: every field is assumed present and textual, and `wwpns` a list. The record built at utils_v4.0.py:264-277 can hold None: `_process_tag` returns None for an absent, empty or non-text tag, `_get_random_portgroup` for no usable name, and `_get_vplex_wwpns` for no WWPN element. The model leaves out what such a record does downstream. A command whose argument string concatenates a None (for example `"-a " + hard` at rest_v3.0.py:185, or `" --ports " + ports` at :293) raises a TypeError before any request is sent. `set_rest_credentials` renders a None address or port as the text `None` in the base URI (rest_v3.0.py:53-54). So the `Ran` contracts of the adapter methods and the Pass of `Rest.VplexRest.SetRestCredentials` hold only for records whose fields are all present.
- fc_v2.0.py is not part of this model: it only delegates to `VMAXCommon`. The asyncio demo under test/ is not part of it either.
- Each command's argument string is written with its literal words and spaces as separate pieces. The string is character for character the one the source builds.
- Rest.RegisterExportInitiatorPortWords: states the words for a single port only. The lemma Text.SplitJoinPorts states how a longer port list is read back.
- Utils.TimeDeltaUnderADay: the text of deltas of a day or more ("D day[s], H:MM:SS") and of negative deltas is modelled by `Utils.TimeDeltaString`, but no lemma states its parts.

## Findings

| source | as written | input that shows it | evidently intended | confidence | as-written member | corrected member |
|---|---|---|---|---|---|---|
| vplex_v8.1/common_v5.0.py:225 | reads each site's workload as `array_info['emc'][index]['vplex']['WORKLOAD']`, but the record built at utils_v4.0.py:270 stores it under `'Workload'` | any array map with a site and a count of at least 1: the first site raises a KeyError, so the descriptor is never built and setup always fails | read `['Workload']`, the key the record holds | not executed | Common.VmaxCommon.SetVplexExtraSpecs | Common.VmaxCommon.SetVplexExtraSpecsCorrected |
