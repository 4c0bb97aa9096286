/** The `vmdk` helper embedded in the container store: mounting a datastore disk and
    deciding whether a VM holds a disk locked. The vSphere disk manager is a record of
    oracles, so every operation is a pure function of what the backend answers. */
module Vmdk {
  import opened Wrappers

  /** The only URL scheme the vmdk helper accepts. */
  const DatastoreScheme: string := "ds"

  /** The error both `Mount` and `Owners` return for a URL of another backend. */
  const SchemeError: Error := Error("vmdk path must be a datastore url with \"ds\" scheme")

  /** A `net/url` URL, reduced to the two fields this code reads and writes. */
  datatype Url = Url(scheme: string, path: string)

  /** The power states vSphere reports in `Runtime.PowerState`. */
  datatype PowerState = PoweredOff | PoweredOn | Suspended

  /** A snapshot of a virtual machine: its managed-object reference and power state. */
  datatype VirtualMachine = VirtualMachine(reference: string, powerState: PowerState)

  /** The answers of the vSphere disk manager. Each call receives the datastore path
      taken from the URL; parsing it with `datastore.PathFromString` belongs to the
      backend, and the code discards that parse error anyway.
      - `diskFinder(accept)`: the datastore path of a disk whose file name `accept` approves;
      - `attachAndMount(path)`: the local mount point of the attached disk;
      - `inUse(path, filter)`: the VMs referencing the disk that `filter` keeps. */
  datatype DiskManager = DiskManager(
    diskFinder: (string -> bool) -> Result<string>,
    attachAndMount: string -> Result<string>,
    inUse: (string, VirtualMachine -> bool) -> Result<seq<VirtualMachine>>)

  /** `vmdk.Mount`: a URL of another scheme is refused before the backend is asked;
      a datastore URL is attached and mounted, and the backend's answer is the answer. */
  function Mount(dm: DiskManager, uri: Url): (r: Result<string>)
    ensures uri.scheme != DatastoreScheme ==> r == Err(SchemeError)
    ensures uri.scheme == DatastoreScheme ==> r == dm.attachAndMount(uri.path)
  {
    if uri.scheme != DatastoreScheme then Err(SchemeError)
    else dm.attachAndMount(uri.path)
  }

  /** A foreign scheme never reaches the backend: whatever `AttachAndMount` would do,
      `Mount` answers the same scheme error. */
  lemma MountRejectsForeignScheme(dm: DiskManager, uri: Url, attach: string -> Result<string>)
    requires uri.scheme != DatastoreScheme
    ensures Mount(dm.(attachAndMount := attach), uri) == Mount(dm, uri) == Err(SchemeError)
  {
  }

  /** `vmdk.LockedVMDKFilter`: a VM holds its disks locked exactly while it is powered on. */
  function LockedVMDKFilter(vm: VirtualMachine): (locked: bool)
    ensures locked <==> vm.powerState == PoweredOn
    ensures vm.powerState in {PoweredOff, Suspended} ==> !locked
  {
    vm.powerState == PoweredOn
  }
}
