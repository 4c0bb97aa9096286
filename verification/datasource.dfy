/** The `DataSource` contract and its mounted-directory variant `MountDataSource`.
    The filesystem (`os.Open`, `File.Stat`) and the archive writer (`archive.Diff`)
    are oracles; the archive's filter spec and byte stream stay opaque type parameters. */
module DataSources {
  import opened Wrappers

  const NotImplemented: Error := Error("Not implemented")
  const NotDirectory: Error := Error("Path must be a directory")

  /** What `File.Stat` reports that the code reads. */
  datatype FileInfo = FileInfo(isDir: bool)

  /** An open `*os.File`, identified by the name it was opened with, which is what
      `File.Name` reports. */
  datatype File = File(name: string)

  /** The filesystem calls the code makes: whether `os.Open(name)` succeeds, and what
      `Stat` on the file of that name answers. */
  datatype FileSystem = FileSystem(open: string -> Outcome, stat: string -> Result<FileInfo>)

  /** `MountDataSource`: a data source over a locally mounted directory. */
  datatype MountDataSource = MountDataSource(path: File)

  /** The `DataSource` interface; the mounted directory is its only implementation. */
  datatype DataSource = Mounted(source: MountDataSource)

  /** `MountDataSource.Source`: the open file behind the data source. */
  function Source(m: MountDataSource): File
  {
    m.path
  }

  /** `MountDataSource.Import`: writing into a mounted container is not supported, so
      every call fails, whatever the filter spec and the incoming stream. */
  function Import<Spec, Stream>(m: MountDataSource, spec: Spec, data: Stream): (r: Outcome)
    ensures r == Fail(NotImplemented)
  {
    Fail(NotImplemented)
  }

  /** `MountDataSource.Export`: a stat failure is passed on, a non-directory is refused,
      and a directory is handed to `archive.Diff` with no ancestor, together with the
      caller's spec and content flag. */
  function Export<Spec, Stream>(m: MountDataSource, fs: FileSystem, spec: Spec, data: bool,
                                diff: (string, string, Spec, bool) -> Result<Stream>): (r: Result<Stream>)
    ensures fs.stat(m.path.name).Err? ==> r == Err(fs.stat(m.path.name).error)
    ensures fs.stat(m.path.name).Ok? && !fs.stat(m.path.name).value.isDir ==> r == Err(NotDirectory)
    ensures fs.stat(m.path.name).Ok? && fs.stat(m.path.name).value.isDir ==> r == diff(m.path.name, "", spec, data)
  {
    match fs.stat(m.path.name)
    case Err(e) => Err(e)
    case Ok(info) =>
      if !info.isDir then Err(NotDirectory)
      else diff(m.path.name, "", spec, data)
  }

  /** The archive writer is only ever asked about a directory: whenever `Export` answers
      something other than its own two errors, the file is a directory and the answer is
      `archive.Diff`'s; and a failed stat never reaches the archive writer. */
  lemma ExportReachesArchiveOnlyForDirectories<Spec, Stream>(
    m: MountDataSource, fs: FileSystem, spec: Spec, data: bool,
    diff: (string, string, Spec, bool) -> Result<Stream>,
    other: (string, string, Spec, bool) -> Result<Stream>)
    ensures Export(m, fs, spec, data, diff) != Export(m, fs, spec, data, other) ==>
              fs.stat(m.path.name) == Ok(FileInfo(true))
    ensures Export(m, fs, spec, data, diff).Ok? ==>
              fs.stat(m.path.name) == Ok(FileInfo(true)) &&
              Export(m, fs, spec, data, diff) == diff(m.path.name, "", spec, data)
  {
  }
}
