/** The array map the configuration document resolves to: one record per
    configured site, holding the fields of its virtualization ("vplex") block. */
module Topology {
  import opened Basics

  /** One site's `array_info['emc'][i]['vplex']` record. */
  datatype Site = Site(
    mgmtServerIp: string,
    mgmtServerPort: string,
    username: string,
    password: string,
    slo: string,
    workload: string,
    arrayName: string,
    pool: string,
    vpd83t3: string,       // the storage volume to claim
    emcSymmetrix: string,  // the back-end array ("hard") to re-discover and forget
    portGroup: string,
    wwpns: seq<string>,
    cluster: string)

  /** The text-valued keys of the record `parse_file_to_get_array_map` builds for a
      site (its `'wwpns'` entry holds a list and is left out). */
  const RecordKeys: set<string> := {
    "MgmtServerIp", "MgmtServerPort", "Username", "Password", "SLO", "Workload",
    "Array", "Pool", "VPD83T3", "EMC-SYMMETRIX", "PortGroup", "Cluster" }

  /** `record[key]` on a site's record: the field stored under the key, or None for a
      key the record does not hold (a KeyError). */
  function Field(s: Site, key: string): (r: Option<string>)
    ensures r.Some? <==> key in RecordKeys
  {
    if key == "MgmtServerIp" then Some(s.mgmtServerIp)
    else if key == "MgmtServerPort" then Some(s.mgmtServerPort)
    else if key == "Username" then Some(s.username)
    else if key == "Password" then Some(s.password)
    else if key == "SLO" then Some(s.slo)
    else if key == "Workload" then Some(s.workload)
    else if key == "Array" then Some(s.arrayName)
    else if key == "Pool" then Some(s.pool)
    else if key == "VPD83T3" then Some(s.vpd83t3)
    else if key == "EMC-SYMMETRIX" then Some(s.emcSymmetrix)
    else if key == "PortGroup" then Some(s.portGroup)
    else if key == "Cluster" then Some(s.cluster)
    else None
  }

  /** The array map: the site records in document order, and the number of site
      elements the document declared (the map's `count` entry). */
  datatype ArrayMap = ArrayMap(emc: seq<Site>, count: nat)
}
