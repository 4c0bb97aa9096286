/** `ContainerStore`: resolving a container id to a data source over its disk.
    The store holds only the disk manager; the filesystem is passed to the call that
    opens the mount point. */
module Storage {
  import opened Wrappers
  import opened Vmdk
  import opened DataSources

  /** The file extension of a container's disk. */
  const DiskExtension: string := ".vmdk"

  /** The error `NewDataSource` ends in whenever the disk cannot be mounted. */
  const Unavailable: Error := Error("Unavailable")

  /** `ContainerStore`, with its embedded `vmdk` reduced to the disk manager. */
  datatype ContainerStore = ContainerStore(dm: DiskManager)

  /** The outcome of `NewDataSource`: a Go return, or the nil-pointer panic raised when
      the id did not resolve and the nil URL reaches `Mount`. */
  datatype Resolution = Returned(result: Result<MountDataSource>) | NilUrlPanic

  // ---------------------------------------------------------------------------
  // Locating the disk

  /** `strings.HasSuffix`, comparing characters where Go compares bytes. */
  predicate HasSuffix(s: string, suffix: string)
  {
    |suffix| <= |s| && s[|s| - |suffix|..] == suffix
  }

  /** `s` is some stem followed by `suffix`. */
  ghost predicate EndsWith(s: string, suffix: string)
  {
    exists stem: string :: stem + suffix == s
  }

  /** The suffix test agrees with its declarative reading, in both directions. */
  lemma HasSuffixIsEndsWith(s: string, suffix: string)
    ensures HasSuffix(s, suffix) <==> EndsWith(s, suffix)
  {
    if HasSuffix(s, suffix) {
      var stem := s[..|s| - |suffix|];
      assert stem + suffix == s;
    }
    if EndsWith(s, suffix) {
      var stem: string :| stem + suffix == s;
      assert s[|s| - |suffix|..] == suffix by {
        assert |stem| == |s| - |suffix|;
      }
    }
  }

  /** The predicate `URL` hands to the disk finder for `id`. */
  function DiskMatcher(id: string): string -> bool
  {
    (filename: string) => HasSuffix(filename, id + DiskExtension)
  }

  /** The finder's predicate accepts a file name exactly when it is the disk of `id`:
      some stem followed by the id and the `.vmdk` extension. */
  lemma DiskMatcherAcceptsDiskOfId(id: string, filename: string)
    ensures DiskMatcher(id)(filename) <==> EndsWith(filename, id + DiskExtension)
  {
    HasSuffixIsEndsWith(filename, id + DiskExtension);
  }

  /** `ContainerStore.URL`: a finder error is passed on unchanged; a found disk becomes a
      datastore URL whose path is the found datastore path. */
  function URL(c: ContainerStore, id: string): (r: Result<Url>)
    ensures c.dm.diskFinder(DiskMatcher(id)).Err? ==> r == Err(c.dm.diskFinder(DiskMatcher(id)).error)
    ensures c.dm.diskFinder(DiskMatcher(id)).Ok? ==>
              r.Ok? && r.value.scheme == DatastoreScheme && r.value.path == c.dm.diskFinder(DiskMatcher(id)).value
  {
    match c.dm.diskFinder(DiskMatcher(id))
    case Err(e) => Err(e)
    case Ok(dsPath) => Ok(Url(DatastoreScheme, dsPath))
  }

  /** A disk finder that only ever returns a name its predicate accepts. */
  ghost predicate FinderHonoursPredicate(dm: DiskManager)
  {
    forall accept: string -> bool :: dm.diskFinder(accept).Ok? ==> accept(dm.diskFinder(accept).value)
  }

  /** With a finder that honours its predicate, a resolved URL names the disk of `id`. */
  lemma ResolvedUrlNamesDiskOfId(c: ContainerStore, id: string)
    requires FinderHonoursPredicate(c.dm)
    requires URL(c, id).Ok?
    ensures EndsWith(URL(c, id).value.path, id + DiskExtension)
  {
    DiskMatcherAcceptsDiskOfId(id, URL(c, id).value.path);
  }

  /** What `URL` produces always passes the scheme checks of `Mount` and `Owners`:
      both hand the found path to the backend oracles, which absorb its parsing by
      `datastore.PathFromString` (and, for `Owners`, `disk.NewPersistentDisk`). */
  lemma ResolvedUrlReachesBackend(c: ContainerStore, id: string, filter: VirtualMachine -> bool)
    requires URL(c, id).Ok?
    ensures Mount(c.dm, URL(c, id).value) == c.dm.attachAndMount(c.dm.diskFinder(DiskMatcher(id)).value)
    ensures Owners(c, URL(c, id).value, filter) ==
              c.dm.inUse(c.dm.diskFinder(DiskMatcher(id)).value, LockedVMDKFilter)
  {
  }

  // ---------------------------------------------------------------------------
  // Owners of a disk

  /** `ContainerStore.Owners`: a foreign scheme is refused with no VM list; otherwise the
      backend is asked for the VMs using the disk, always filtered by
      `LockedVMDKFilter` — the caller's `filter` is ignored. */
  function Owners(c: ContainerStore, uri: Url, filter: VirtualMachine -> bool): (r: Result<seq<VirtualMachine>>)
    ensures uri.scheme != DatastoreScheme ==> r == Err(SchemeError)
    ensures uri.scheme == DatastoreScheme ==> r == c.dm.inUse(uri.path, LockedVMDKFilter)
  {
    if uri.scheme != DatastoreScheme then Err(SchemeError)
    else c.dm.inUse(uri.path, LockedVMDKFilter)
  }

  /** The caller's filter has no effect on the answer. */
  lemma OwnersIgnoresFilter(c: ContainerStore, uri: Url, filter: VirtualMachine -> bool, other: VirtualMachine -> bool)
    ensures Owners(c, uri, filter) == Owners(c, uri, other)
  {
  }

  /** A foreign scheme never reaches `InUse`. */
  lemma OwnersRejectsForeignScheme(c: ContainerStore, uri: Url, filter: VirtualMachine -> bool,
                                   inUse: (string, VirtualMachine -> bool) -> Result<seq<VirtualMachine>>)
    requires uri.scheme != DatastoreScheme
    ensures Owners(ContainerStore(c.dm.(inUse := inUse)), uri, filter) == Owners(c, uri, filter) == Err(SchemeError)
  {
  }

  /** `Owners` as its signature promises: the backend's answer filtered by the caller's
      `filter`. */
  function OwnersFiltered(c: ContainerStore, uri: Url, filter: VirtualMachine -> bool): (r: Result<seq<VirtualMachine>>)
    ensures uri.scheme != DatastoreScheme ==> r == Err(SchemeError)
    ensures uri.scheme == DatastoreScheme ==> r == c.dm.inUse(uri.path, filter)
  {
    if uri.scheme != DatastoreScheme then Err(SchemeError)
    else c.dm.inUse(uri.path, filter)
  }

  /** The two agree on the one filter the store itself passes, so `NewDataSource`, which
      calls `Owners` as written, would behave the same with the corrected variant. */
  lemma OwnersAgreeOnLockedFilter(c: ContainerStore, uri: Url, filter: VirtualMachine -> bool)
    ensures OwnersFiltered(c, uri, LockedVMDKFilter) == Owners(c, uri, filter)
  {
  }

  /** A caller asking for every VM on a disk gets only the powered-on ones: with a
      backend that honours its filter and one powered-off VM on the disk, `Owners`
      answers no VM where the caller's filter keeps it. */
  lemma OwnersDropsCallerFilter()
    ensures var c := ContainerStore(DiskManager(NoDisk, NoMount, OnePoweredOffUser));
            var uri := Url(DatastoreScheme, "[datastore1] c1/c1.vmdk");
            var everyVm := (vm: VirtualMachine) => true;
            Owners(c, uri, everyVm) == Ok([]) && OwnersFiltered(c, uri, everyVm) == Ok([PoweredOffVm])
  {
  }

  // The backend of the counterexample above: no disk is found, nothing mounts, and one
  // powered-off VM uses every disk.
  const PoweredOffVm := VirtualMachine("vm-1", PoweredOff)

  function NoDisk(accept: string -> bool): Result<string> { Err(Error("not found")) }

  function NoMount(path: string): Result<string> { Err(Error("locked")) }

  function OnePoweredOffUser(path: string, filter: VirtualMachine -> bool): Result<seq<VirtualMachine>>
  {
    Ok(if filter(PoweredOffVm) then [PoweredOffVm] else [])
  }

  // ---------------------------------------------------------------------------
  // Creating a data source

  /** `ContainerStore.newDataSource`: the mount point is opened; an open error is passed
      on, and otherwise the data source wraps the file opened at the mount point. */
  function NewMountDataSource(fs: FileSystem, mountPath: string): (r: Result<MountDataSource>)
    ensures fs.open(mountPath).Fail? ==> r == Err(fs.open(mountPath).error)
    ensures fs.open(mountPath).Pass? ==> r.Ok? && Source(r.value).name == mountPath
  {
    match fs.open(mountPath)
    case Fail(e) => Err(e)
    case Pass => Ok(MountDataSource(File(mountPath)))
  }

  /** `ContainerStore.newOnlineDataSource`: a stub that yields neither a data source nor
      an error for any VM. */
  function NewOnlineDataSource(vm: VirtualMachine): (r: Result<Option<DataSource>>)
    ensures r == Ok(None)
  {
    Ok(None)
  }

  /** `ContainerStore.NewDataSource`. The id is resolved with its error discarded; a
      mounted disk is opened as a data source; a disk that does not mount sends the store
      looking for powered-on owners, and every way on from there ends in "Unavailable". */
  function NewDataSource(c: ContainerStore, fs: FileSystem, id: string): (r: Resolution)
    ensures r == NilUrlPanic <==> URL(c, id).Err?
    ensures URL(c, id).Ok? && Mount(c.dm, URL(c, id).value).Ok? ==>
              r == Returned(NewMountDataSource(fs, Mount(c.dm, URL(c, id).value).value))
    ensures URL(c, id).Ok? && Mount(c.dm, URL(c, id).value).Err? ==> r == Returned(Err(Unavailable))
  {
    match URL(c, id)
    case Err(_) => NilUrlPanic
    case Ok(uri) =>
      match Mount(c.dm, uri)
      case Ok(mountPath) => Returned(NewMountDataSource(fs, mountPath))
      case Err(_) =>
        // the error from Owners is ignored; an Err stands for the Go pair's error with
        // its list taken as empty, which both branches below answer alike
        var owners := Owners(c, uri, LockedVMDKFilter).GetOr([]);
        if |owners| == 0 then Returned(Err(Unavailable))
        else
          // each owner is offered to NewOnlineDataSource, whose answer is discarded
          Returned(Err(Unavailable))
  }

  /** A disk that does not mount gives "Unavailable" whatever the owner lookup answers:
      an empty list, a non-empty list or an error. */
  lemma MountFailureIsUnavailable(c: ContainerStore, fs: FileSystem, id: string,
                                  inUse: (string, VirtualMachine -> bool) -> Result<seq<VirtualMachine>>)
    requires URL(c, id).Ok? && Mount(c.dm, URL(c, id).value).Err?
    ensures NewDataSource(ContainerStore(c.dm.(inUse := inUse)), fs, id) == Returned(Err(Unavailable))
  {
  }

  /** Once the disk mounts, the owner lookup plays no part in the answer. */
  lemma MountedDiskIgnoresOwners(c: ContainerStore, fs: FileSystem, id: string,
                                 inUse: (string, VirtualMachine -> bool) -> Result<seq<VirtualMachine>>)
    requires URL(c, id).Ok? && Mount(c.dm, URL(c, id).value).Ok?
    ensures NewDataSource(ContainerStore(c.dm.(inUse := inUse)), fs, id) == NewDataSource(c, fs, id)
  {
  }

  /** Every data source `NewDataSource` returns exposes the file opened at the disk's
      mount point, and every error it returns is "Unavailable" or the error of opening
      that mount point. */
  lemma NewDataSourceOutcomes(c: ContainerStore, fs: FileSystem, id: string)
    requires NewDataSource(c, fs, id).Returned?
    ensures URL(c, id).Ok?
    ensures NewDataSource(c, fs, id).result.Ok? ==>
              var name := Source(NewDataSource(c, fs, id).result.value).name;
              Mount(c.dm, URL(c, id).value) == Ok(name) && fs.open(name) == Pass
    ensures NewDataSource(c, fs, id).result.Err? ==>
              var e := NewDataSource(c, fs, id).result.error;
              e == Unavailable ||
              (Mount(c.dm, URL(c, id).value).Ok? && fs.open(Mount(c.dm, URL(c, id).value).value) == Fail(e))
  {
  }
}
