# vic port layer: container-store resolution and random host placement

This is a Dafny model of two small pieces of decision logic from vic, the vSphere
Integrated Containers engine.

- **The container store** (`lib/portlayer/storage/container.go`). It resolves a
  container id to its datastore disk (`URL`), mounts the disk (`Mount`), and looks up
  which VMs hold the disk (`Owners`, `LockedVMDKFilter`). From these it builds a data
  source over the mounted directory (`NewDataSource`, `newDataSource`,
  `newOnlineDataSource`). The mounted-directory data source exports a tar archive of the
  directory (`Export`) and refuses imports (`Import`).
- **The random host placement policy** (`pkg/vsphere/compute/placement/random.go`).
  `CheckHost` never keeps the current host. `RecommendHost` shuffles the candidate hosts
  with a forward Fisher–Yates loop. When the caller passes nil, the candidates are first
  fetched from the session's cluster.

Every call into vSphere, the filesystem, the archive writer or the random source is an
input. Each one is a function-valued field or parameter (an "oracle"):

| collaborator | in the model |
|---|---|
| disk manager `DiskFinder`, `AttachAndMount`, `InUse` | fields of `Vmdk.DiskManager` |
| `os.Open`, `File.Stat` | `DataSources.FileSystem.open`, `.stat` |
| `archive.Diff` | the `diff` parameter of `DataSources.Export` |
| `GetCluster`, `Hosts` | the `cluster` and `clusterHosts` parameters of `Placement.RecommendHost` |
| `rand.Intn(i + 1)` on iteration `i` | `draw(i)`, with `draw(i) <= i` for every `i` |

Each operation is therefore a pure function of what its collaborators answer. "The
backend is never asked" becomes a lemma: the answer stays the same when that oracle is
replaced by any other.

Modules:

- `Wrappers`: Go's `(T, error)` pairs, lone `error` returns and nil pointers.
- `Vmdk`: the embedded `vmdk` helper.
- `DataSources`: `MountDataSource` and the `DataSource` interface.
- `Storage`: `ContainerStore`.
- `Placement`: `RandomHostPolicy`.

**The nil URL.** `NewDataSource` discards the error from `URL` (container.go:133).
`URL` returns a nil URL with that error, and `Mount` reads `uri.Scheme` from it
(container.go:42). So an id with no disk makes the Go code panic on a nil pointer rather
than return an error. The model shows this as the `NilUrlPanic` outcome of
`Storage.NewDataSource`, and the contract states it happens exactly when `URL` fails. It
does not invent the NotFound error the code never produces.

**Where the design intent and the code differ, the model follows the code:**

- `Owners` ignores the caller's filter (see Findings).
- A mount failure always ends in "Unavailable", even when powered-on owners are found.
  The per-owner loop discards whatever `newOnlineDataSource` answers.
- No unmount/detach release action exists anywhere in this code (see Left out).
- `NewDataSource` ignores the error from `Owners` but still reads the list returned with
  it. Either way the answer is "Unavailable" (`Storage.MountFailureIsUnavailable`), so
  the owner lookup cannot change the result.

## Model

| member | source | states |
|---|---|---|
| Vmdk.Mount | lib/portlayer/storage/container.go:41-48 | A URL whose scheme is not "ds" gets the fixed scheme error. A "ds" URL gets exactly what AttachAndMount answers for its path. |
| Vmdk.MountRejectsForeignScheme | lib/portlayer/storage/container.go:41-44 | For a non-"ds" URL, Mount's answer does not depend on the AttachAndMount backend at all, so the backend is never consulted. |
| Vmdk.LockedVMDKFilter | lib/portlayer/storage/container.go:50-52 | A VM counts as holding the disk locked exactly when it is powered on. Powered-off and suspended VMs never do. |
| DataSources.Import | lib/portlayer/storage/container.go:64-67 | Every import fails with "Not implemented", whatever the filter spec and stream. |
| DataSources.Export | lib/portlayer/storage/container.go:69-80 | A Stat error is returned unchanged. A non-directory gets "Path must be a directory". A directory gets exactly archive.Diff's answer for the file's name, with an empty ancestor and the caller's spec and flag. |
| DataSources.ExportReachesArchiveOnlyForDirectories | lib/portlayer/storage/container.go:70-80 | Export's answer depends on the archive writer only when Stat says the file is a directory. Every successful export is such an archive.Diff answer. |
| Storage.HasSuffixIsEndsWith | lib/portlayer/storage/container.go:107 | The suffix test holds exactly when the name is some stem followed by the suffix, in both directions. |
| Storage.DiskMatcherAcceptsDiskOfId | lib/portlayer/storage/container.go:106-108 | The predicate URL hands to the disk finder accepts a file name exactly when it ends with the id followed by ".vmdk". |
| Storage.URL | lib/portlayer/storage/container.go:104-117 | A finder error comes back unchanged, with no URL. A found disk gives a URL with scheme "ds" whose path is the found datastore path. |
| Storage.ResolvedUrlNamesDiskOfId | lib/portlayer/storage/container.go:105-117 | If the finder only returns names its predicate accepts, every resolved URL's path ends with the id followed by ".vmdk". |
| Storage.ResolvedUrlReachesBackend | lib/portlayer/storage/container.go:105-129 | A URL produced by URL always passes the scheme checks of Mount and Owners. Both hand the found path to the backend oracles, which absorb its parsing. |
| Storage.Owners | lib/portlayer/storage/container.go:119-129 | A non-"ds" URL gets the scheme error and no VM list. A "ds" URL gets InUse's answer for its path, filtered by LockedVMDKFilter. |
| Storage.OwnersIgnoresFilter | lib/portlayer/storage/container.go:120-128 | Owners gives the same answer whatever filter the caller passes. |
| Storage.OwnersRejectsForeignScheme | lib/portlayer/storage/container.go:120-123 | For a non-"ds" URL, Owners' answer does not depend on the InUse backend, so InUse is never consulted. |
| Storage.OwnersDropsCallerFilter | lib/portlayer/storage/container.go:120-128 | Counterexample: one powered-off VM uses the disk and the caller's filter keeps every VM. Owners answers no VM, but the filter-honouring variant answers that VM. |
| Storage.OwnersFiltered | lib/portlayer/storage/container.go:119-129 | The corrected Owners: non-"ds" URLs are refused as before, and a "ds" URL gets InUse's answer under the caller's own filter. |
| Storage.OwnersAgreeOnLockedFilter | lib/portlayer/storage/container.go:144 | With LockedVMDKFilter, the only filter NewDataSource passes, the corrected Owners and the as-written Owners give the same answer. |
| Storage.NewMountDataSource | lib/portlayer/storage/container.go:161-170 | An os.Open error is returned with no data source. Otherwise the data source's Source is the file opened at the mount path. |
| Storage.NewOnlineDataSource | lib/portlayer/storage/container.go:172-174 | For every VM, the stub yields neither a data source nor an error. |
| Storage.NewDataSource | lib/portlayer/storage/container.go:131-159 | The call panics on the nil URL exactly when the id does not resolve. Once the disk mounts, the answer is newDataSource on the mount path. If the mount fails, the answer is the error "Unavailable". |
| Storage.MountFailureIsUnavailable | lib/portlayer/storage/container.go:139-158 | When the mount fails, the answer is "Unavailable" for every InUse backend: no owners, some owners, or an owner-lookup error. |
| Storage.MountedDiskIgnoresOwners | lib/portlayer/storage/container.go:133-137 | When the disk mounts, the answer does not depend on the InUse backend, so the owner lookup is never consulted. |
| Storage.NewDataSourceOutcomes | lib/portlayer/storage/container.go:131-170 | Every data source returned exposes a file named by the disk's mount point, which opened successfully. Every error returned is "Unavailable" or the error of opening that mount point. |
| Placement.CheckHost | pkg/vsphere/compute/placement/random.go:34-37 | The random policy never keeps the current host. |
| Placement.Candidates | pkg/vsphere/compute/placement/random.go:40-53 | A non-nil list is used as given. For nil, a GetCluster error is returned, and otherwise the cluster's Hosts answer (list or error) is used. |
| Placement.ShufflePrefixLeavesSuffix | pkg/vsphere/compute/placement/random.go:55-59 | The loop's first k iterations leave every index from k on untouched. |
| Placement.ShuffleCopy | pkg/vsphere/compute/placement/random.go:55-59 | The in-place loop touches only in-bounds indices. It swaps index i with draw(i) for i ascending, and ends with the reference shuffle of its input. |
| Placement.ShufflePrefixPermutes | pkg/vsphere/compute/placement/random.go:55-59 | For any draws with draw(i) <= i, every prefix of the shuffle, and the full shuffle, holds the same hosts with the same multiplicities as its input. |
| Placement.SelfDrawsKeepOrder | pkg/vsphere/compute/placement/random.go:55-61 | When every draw picks its own index, the shuffle returns the list unchanged. |
| Placement.EveryOrderReachable | pkg/vsphere/compute/placement/random.go:55-59 | Every ordering of the hosts is produced by some valid draw sequence. |
| Placement.RecommendHost | pkg/vsphere/compute/placement/random.go:39-62 | A lookup error for a nil list is returned with no hosts. Otherwise the answer is the in-place loop's result: the reference shuffle of the candidates and a permutation of them. A non-nil list never errors and keeps its length, so an empty list gives an empty answer. |

## Left out

- `NewContainerStore` and `storage.go`'s `Init`/`create` are left out. They are remote
  I/O: disk manager creation, extraconfig decoding and container-view creation. The
  `sync.Once` guard is a concurrency primitive.
- `storage.go`'s `Resolver`, `Store` and `DataSource` interfaces have no behaviour.
  `DataSource` appears only as the one-variant `DataSources.DataSource`. The `mo` versus
  `vm` VirtualMachine types in `Owners`' signatures are treated as one type.
- `MountDataSource.Source` (container.go:59-62) is a bare accessor with no contract of its
  own. What it exposes is stated by `Storage.NewMountDataSource` and
  `Storage.NewDataSourceOutcomes`.
- `datastore.PathFromString`, and in `Owners` the `disk.NewPersistentDisk` wrapper around
  its result, are folded into the disk-manager oracles: they receive the URL's path. The
  code discards the parse error, so no branch depends on it.
- Releasing a mount (unmount and detach) has no counterpart in this code. `Mount` returns
  only a path, and `MountDataSource` holds only the open file. So no release-on-every-path
  guarantee is stated.
- Go pairs that carry both a value and an error are modelled as a single `Result`, so a
  value returned together with an error is not represented. The code does read values
  whose errors it ignores: the parsed datastore path (container.go:46, 125), the URL
  (container.go:133, see the nil URL above) and the owner list (container.go:144). For
  the owner list, an `Err` is read as an empty list. That cannot change
  `NewDataSource`'s answer: with an empty or a non-empty list it is "Unavailable"
  (`Storage.MountFailureIsUnavailable`).
- Storage.HasSuffix: Go's `strings.HasSuffix` compares bytes, while the model compares
  sequences of Unicode characters. File names that are not valid UTF-8 cannot be
  represented.
- `trace.Operation`, contexts and cancellation are left out. They only reach the
  collaborators.
- The archive stream format and `FilterSpec` are opaque type parameters. Export's
  idempotence on an unchanged directory is left to the archive writer.
- `rand.Intn` is replaced by the draw sequence. The statistical uniformity of the
  ordering is not stated. `Placement.EveryOrderReachable` proves every ordering is
  reachable, but not that each is equally likely.
- Placement.RecommendHost: Go shuffles the caller's slice in place, so the caller's
  backing array is permuted too. The model copies the list into a fresh array, shuffles
  that, and returns the result. The aliasing is not modelled.
- A nil list returned by the cluster's `Hosts` and an empty one are the same in the
  model. Both give an empty answer.

## Findings

| source | as written | input that shows it | evidently intended | confidence | as-written member | corrected member |
|---|---|---|---|---|---|---|
| lib/portlayer/storage/container.go:120-128 | `Owners` takes a `filter` but passes `c.LockedVMDKFilter` to `InUse`, so the caller's filter is ignored | a "ds" URL whose disk is used by one powered-off VM, with a filter that keeps every VM: the answer is no VM | the answer is filtered by the caller's `filter`, as the Resolver interface's signature suggests | medium; not executed | Storage.OwnersDropsCallerFilter | Storage.OwnersFiltered |

`Storage.NewDataSource` calls `Storage.Owners` as written, with `LockedVMDKFilter`.
`Storage.OwnersAgreeOnLockedFilter` proves that the corrected `Storage.OwnersFiltered`
gives the same answer for that filter, so the correction does not change the store's
behaviour.
