/** The values passed between the components: workload resources and scan information. */
module Contracts {
  import opened GoErrors

  /** A Go slice: nil and empty are different values, and JSON keeps them apart. */
  datatype Slice<+T> = NilSlice | Slice(elems: seq<T>)

  function Elems<T>(s: Slice<T>): seq<T> {
    if s.NilSlice? then [] else s.elems
  }

  const UNSCANNED := "unscanned"
  const UNHEALTHY := "unhealthyScan"
  const HEALTHY := "healthyScan"

  const UNSCANNED_REASON_KEY := "UnscannedReason"
  const TIMEOUT_REASON := "GetContainersVulnerabilityScanInfoGotTimeout"
  const NOT_IN_ACR_REASON := "ImageIsNotInACR"
  const UNAUTHORIZED_REASON := "RegistryUnauthorized"
  const NO_IMAGE_REASON := "ImageDoesNotExist"
  const NO_REGISTRY_REASON := "RegistryDoesNotExist"

  const SCAN_INFO_ANNOTATION := "azuredefender.io/containers.vulnerability.scan.info"

  datatype ScanFinding = ScanFinding(patchable: bool, id: string, severity: string)

  datatype Image = Image(name: string, digest: string)

  datatype ScanInfo = ScanInfo(
    name: string,
    image: Image,
    scanStatus: string,
    scanFindings: Slice<ScanFinding>,
    additionalData: Option<map<string, string>>)

  datatype Container = Container(name: string, image: string)

  datatype PodSpec = PodSpec(
    containers: seq<Container>,
    initContainers: seq<Container>,
    imagePullSecrets: seq<string>,
    serviceAccountName: string)

  function AllContainers(pod: PodSpec): seq<Container> {
    pod.initContainers + pod.containers
  }

  function UnscannedInfo(container: Container, reason: string): ScanInfo {
    ScanInfo(container.name, Image(container.image, ""), UNSCANNED, NilSlice,
             Some(map[UNSCANNED_REASON_KEY := reason]))
  }

  /** The timeout placeholder list: every container of the pod, in order, as unscanned. */
  function TimeoutList(pod: PodSpec): (list: seq<ScanInfo>)
    ensures |list| == |AllContainers(pod)|
  {
    var all := AllContainers(pod);
    seq(|all|, i requires 0 <= i < |all| => UnscannedInfo(all[i], TIMEOUT_REASON))
  }

  predicate IsTimeoutPlaceholder(info: ScanInfo) {
    && info.additionalData.Some?
    && UNSCANNED_REASON_KEY in info.additionalData.value
    && info.additionalData.value[UNSCANNED_REASON_KEY] == TIMEOUT_REASON
  }
}
