/** The parts of Kubernetes objects the provisioner reads and writes. */
module Kubernetes {
  import opened Wrappers

  datatype AccessMode = ReadWriteOnce | ReadOnlyMany | ReadWriteMany

  /** Quantities are exact; `storage` is the claim's storage request, if it makes one. */
  datatype PersistentVolumeClaim = PersistentVolumeClaim(
    uid: string,
    name: string,
    annotations: map<string, string>,
    accessModes: seq<AccessMode>,
    storage: Option<real>,
    selector: Option<map<string, string>>)

  datatype VolumeOptions = VolumeOptions(
    pvc: Option<PersistentVolumeClaim>,
    parameters: map<string, string>,
    reclaimPolicy: string,
    mountOptions: seq<string>)

  datatype VolumeSource =
    | Nfs(server: string, path: string, readOnly: bool)
    | Flex(driver: string, fsType: string)

  datatype PersistentVolume = PersistentVolume(
    name: string,
    annotations: map<string, string>,
    labels: map<string, string>,
    reclaimPolicy: string,
    accessModes: seq<AccessMode>,
    capacity: real,
    source: VolumeSource,
    mountOptions: seq<string>)

  const LABEL_ZONE_FAILURE_DOMAIN := "failure-domain.beta.kubernetes.io/zone"
  const LABEL_ZONE_REGION := "failure-domain.beta.kubernetes.io/region"
  const OCI_PROVISIONER_NAME := "oracle/oci"

  /** Reading a missing key of a Go map of strings gives "". */
  function Lookup(m: map<string, string>, key: string): string {
    if key in m then m[key] else ""
  }
}
