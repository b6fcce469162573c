/** The virtual filesystem contract. A filesystem is a set of asynchronous
    operations whose results settle to a success or a failure; an opened
    file or directory is an entry. The conveniences (read a whole file,
    write a whole file, test existence, open a directory, stat a path) are
    fixed compositions of the primitive operations. */
module Vfs {
  import opened Common

  /** Why an operation failed. */
  datatype Error =
    | ChainStart                      // the bare rejection a fallback chain starts from
    | MustOverride(operation: string) // a primitive this backend does not implement
    | BackendFailure(code: int)       // any failure a concrete backend reports

  /** The settled value of an asynchronous operation. */
  datatype Result<+T> = Ok(value: T) | Fail(error: Error)

  /** `promise.then(f)`: `f` runs only on a success; a failure passes
      through unchanged. */
  function Then<T, U>(r: Result<T>, f: T -> Result<U>): Result<U>
  {
    match r
    case Ok(v) => f(v)
    case Fail(e) => Fail(e)
  }

  /** `FileOpenFlags` bit values. */
  type FileOpenFlags = bv32
  const Read: FileOpenFlags := 0x0001
  const Write: FileOpenFlags := 0x0002
  const ReadWrite: FileOpenFlags := Read | Write
  const NoBlock: FileOpenFlags := 0x0004
  const InternalDirOpen: FileOpenFlags := 0x0008
  const Append: FileOpenFlags := 0x0100
  const Create: FileOpenFlags := 0x0200
  const Truncate: FileOpenFlags := 0x0400
  const Excl: FileOpenFlags := 0x0800
  const Unknown1: FileOpenFlags := 0x4000
  const NoWait: FileOpenFlags := 0x8000
  const Unknown2: FileOpenFlags := 0xf0000
  const Unknown3: FileOpenFlags := 0x2000000

  /** Flags of the whole-file write: create, truncate, write. */
  const WriteAllFlags: FileOpenFlags := Create | Truncate | Write

  type FileMode = int
  /** Mode of every open the conveniences issue: octal 0777. */
  const DefaultMode: FileMode := 0x1FF

  type Bytes = seq<bv8>

  /** A timestamp, opaque to this layer. */
  datatype Date = Date(millis: int)

  /** An immutable stat snapshot. */
  datatype VfsStat = VfsStat(
    name: Option<string>,
    size: int,
    isDirectory: bool,
    timeCreation: Date,
    timeLastAccess: Date,
    timeLastModification: Date,
    dependentData0: Option<int>,
    dependentData1: Option<int>)

  /** A seekable byte stream with its own name, size and date; its chunked
      read is an external collaborator. */
  datatype AsyncStream = AsyncStream(
    name: string,
    size: int,
    date: Date,
    readChunk: (int, int) -> Result<Bytes>)

  /** The primitive operations of an entry from some concrete backend; one
      the backend does not override answers MustOverride. */
  datatype EntryOps = EntryOps(
    stat: Result<VfsStat>,
    readChunk: (int, int) -> Result<Bytes>,
    writeChunk: (int, Bytes) -> Result<int>,
    enumerate: Result<seq<VfsStat>>)

  /** The primitives of the base `VfsEntry` class itself: none is
      implemented. */
  function UnimplementedEntryOps(): EntryOps
  {
    EntryOps(Fail(MustOverride("stat")),
             (offset, length) => Fail(MustOverride("readChunkAsync")),
             (offset, data) => Fail(MustOverride("writeChunkAsync")),
             Fail(MustOverride("enumerateAsync")))
  }

  /** An opened file or directory: either a `VfsEntryStream` over a byte
      stream, or an entry of another backend given by its primitives. */
  datatype VfsEntry =
    | StreamEntry(stream: AsyncStream)
    | BackendEntry(ops: EntryOps)
  {
    /** `stat()`. A stream entry describes its stream as a plain file, named
        and sized like the stream, with the stream's date as all three
        timestamps; a backend entry answers with its own snapshot. */
    function Stat(): (r: Result<VfsStat>)
      ensures StreamEntry? ==>
                && r.Ok? && !r.value.isDirectory
                && r.value.name == Some(stream.name) && r.value.size == stream.size
                && r.value.timeCreation == stream.date && r.value.timeLastAccess == stream.date
                && r.value.timeLastModification == stream.date
                && r.value.dependentData0.None? && r.value.dependentData1.None?
      ensures BackendEntry? ==> r == ops.stat
    {
      match this
      case StreamEntry(s) =>
        Ok(VfsStat(Some(s.name), s.size, false, s.date, s.date, s.date, None, None))
      case BackendEntry(ops) => ops.stat
    }

    /** `size`: the size field of the snapshot. A stream entry overrides the
        getter with its stream's size, which agrees with its snapshot. */
    function Size(): (r: Result<int>)
      ensures Stat().Ok? ==> r == Ok(Stat().value.size)
      ensures Stat().Fail? ==> r == Fail(Stat().error)
    {
      match this
      case StreamEntry(s) => Ok(s.size)
      case BackendEntry(_) => Then(Stat(), (st: VfsStat) => Ok(st.size))
    }

    /** `isDirectory`: the directory flag of the snapshot. */
    function IsDirectory(): (r: Result<bool>)
      ensures Stat().Ok? ==> r == Ok(Stat().value.isDirectory)
      ensures Stat().Fail? ==> r == Fail(Stat().error)
    {
      Then(Stat(), (st: VfsStat) => Ok(st.isDirectory))
    }

    function ReadChunk(offset: int, length: int): Result<Bytes>
    {
      match this
      case StreamEntry(s) => s.readChunk(offset, length)
      case BackendEntry(ops) => ops.readChunk(offset, length)
    }

    /** A stream entry does not override the chunked write. */
    function WriteChunk(offset: int, data: Bytes): Result<int>
    {
      match this
      case StreamEntry(_) => Fail(MustOverride("writeChunkAsync"))
      case BackendEntry(ops) => ops.writeChunk(offset, data)
    }

    /** A stream entry does not override directory listing. */
    function Enumerate(): Result<seq<VfsStat>>
    {
      match this
      case StreamEntry(_) => Fail(MustOverride("enumerateAsync"))
      case BackendEntry(ops) => ops.enumerate
    }

    /** `readAllAsync`: one chunked read of the whole declared size, from
        offset 0. */
    function ReadAll(): (r: Result<Bytes>)
      ensures Size().Ok? ==> r == ReadChunk(0, Size().value)
      ensures Size().Fail? ==> r == Fail(Size().error)
    {
      Then(Size(), (n: int) => ReadChunk(0, n))
    }

    /** `writeAllAsync`: one chunked write of all of `data`, at offset 0; a
        stream entry cannot be written. */
    function WriteAll(data: Bytes): (r: Result<int>)
      ensures StreamEntry? ==> r == Fail(MustOverride("writeChunkAsync"))
      ensures BackendEntry? ==> r == ops.writeChunk(0, data)
    {
      WriteChunk(0, data)
    }
  }

  /** A filesystem: the five operations each `Vfs` offers. */
  datatype Vfs = Vfs(
    devctl: (int, Stream, Stream) -> Result<int>,
    open: (string, FileOpenFlags, FileMode) -> Result<VfsEntry>,
    delete: string -> Result<()>,
    openDirectory: string -> Result<VfsEntry>,
    getStat: string -> Result<VfsStat>)
  {
    /** `readAllAsync`: open for reading only, with mode 0777, then read the
        whole entry; a failed open is reported as it is. */
    function ReadAll(path: string): (r: Result<Bytes>)
      ensures open(path, Read, DefaultMode).Fail? ==> r == Fail(open(path, Read, DefaultMode).error)
      ensures open(path, Read, DefaultMode).Ok? ==> r == open(path, Read, DefaultMode).value.ReadAll()
    {
      Then(open(path, Read, DefaultMode), (e: VfsEntry) => e.ReadAll())
    }

    /** `writeAllAsync`: open to create, truncate and write, with mode 0777,
        then write all of `data` from offset 0; a failed open is reported as
        it is. */
    function WriteAll(path: string, data: Bytes): (r: Result<int>)
      ensures open(path, WriteAllFlags, DefaultMode).Fail? ==>
                r == Fail(open(path, WriteAllFlags, DefaultMode).error)
      ensures open(path, WriteAllFlags, DefaultMode).Ok? ==>
                r == open(path, WriteAllFlags, DefaultMode).value.WriteChunk(0, data)
    {
      Then(open(path, WriteAllFlags, DefaultMode), (e: VfsEntry) => e.WriteAll(data))
    }

    /** `existsAsync`: never fails; true exactly when stat succeeds. */
    function Exists(path: string): (r: Result<bool>)
      ensures r.Ok?
      ensures r.value <==> getStat(path).Ok?
    {
      match getStat(path)
      case Ok(_) => Ok(true)
      case Fail(_) => Ok(false)
    }
  }

  /** A backend that implements the three primitives and inherits the
      base `openDirectoryAsync` (open for reading) and `getStatAsync` (open
      for reading, then stat the entry). */
  function Backend(
    devctl: (int, Stream, Stream) -> Result<int>,
    open: (string, FileOpenFlags, FileMode) -> Result<VfsEntry>,
    delete: string -> Result<()>): Vfs
  {
    Vfs(devctl, open, delete,
        path => open(path, Read, DefaultMode),
        path => Then(open(path, Read, DefaultMode), (e: VfsEntry) => e.Stat()))
  }

  /** The base `Vfs` class itself: no primitive is implemented. Its
      `deleteAsync` reports the open operation as the missing one. */
  function UnimplementedVfs(): Vfs
  {
    Backend((command, input, output) => Fail(MustOverride("devctlAsync")),
            (path, flags, mode) => Fail(MustOverride("openAsync")),
            path => Fail(MustOverride("openAsync")))
  }

  /** The flag values the conveniences use. */
  lemma FlagValues()
    ensures ReadWrite == 0x0003 && ReadWrite == Read | Write
    ensures WriteAllFlags == 0x0602
    ensures WriteAllFlags & Read == 0
    ensures DefaultMode == 7 * 64 + 7 * 8 + 7
  {
  }

  /** The inherited directory open and stat of a backend both open the path
      for reading only, with mode 0777; stat then snapshots the entry. */
  lemma InheritedOperationsOpenForReading(
    devctl: (int, Stream, Stream) -> Result<int>,
    open: (string, FileOpenFlags, FileMode) -> Result<VfsEntry>,
    delete: string -> Result<()>,
    path: string)
    ensures Backend(devctl, open, delete).openDirectory(path) == open(path, Read, DefaultMode)
    ensures open(path, Read, DefaultMode).Fail? ==>
              Backend(devctl, open, delete).getStat(path) == Fail(open(path, Read, DefaultMode).error)
    ensures open(path, Read, DefaultMode).Ok? ==>
              Backend(devctl, open, delete).getStat(path) == open(path, Read, DefaultMode).value.Stat()
  {
  }

  /** A stream entry's size getter, directory flag and whole read agree
      with its snapshot: the whole stream is read from 0. */
  lemma StreamEntrySnapshot(s: AsyncStream)
    ensures StreamEntry(s).Size() == Ok(StreamEntry(s).Stat().value.size) == Ok(s.size)
    ensures StreamEntry(s).IsDirectory() == Ok(false)
    ensures StreamEntry(s).ReadAll() == s.readChunk(0, s.size)
  {
  }

  /** Every operation of the base entry fails, naming what is missing. */
  lemma UnimplementedEntryFails(offset: int, length: int, data: Bytes)
    ensures var e := BackendEntry(UnimplementedEntryOps());
            && e.Stat() == Fail(MustOverride("stat"))
            && e.Size() == Fail(MustOverride("stat"))
            && e.IsDirectory() == Fail(MustOverride("stat"))
            && e.ReadChunk(offset, length) == Fail(MustOverride("readChunkAsync"))
            && e.WriteChunk(offset, data) == Fail(MustOverride("writeChunkAsync"))
            && e.Enumerate() == Fail(MustOverride("enumerateAsync"))
            && e.ReadAll() == Fail(MustOverride("stat"))
            && e.WriteAll(data) == Fail(MustOverride("writeChunkAsync"))
  {
  }

  /** Every operation of the base filesystem fails, naming the missing
      primitive; delete names the open operation, as the source does. */
  lemma UnimplementedVfsFails(path: string, command: int, input: Stream, output: Stream,
                              flags: FileOpenFlags, mode: FileMode, data: Bytes)
    ensures var v := UnimplementedVfs();
            && v.devctl(command, input, output) == Fail(MustOverride("devctlAsync"))
            && v.open(path, flags, mode) == Fail(MustOverride("openAsync"))
            && v.delete(path) == Fail(MustOverride("openAsync"))
            && v.openDirectory(path) == Fail(MustOverride("openAsync"))
            && v.getStat(path) == Fail(MustOverride("openAsync"))
            && v.ReadAll(path) == Fail(MustOverride("openAsync"))
            && v.WriteAll(path, data) == Fail(MustOverride("openAsync"))
  {
    InheritedOperationsOpenForReading(UnimplementedVfs().devctl, UnimplementedVfs().open,
                                      UnimplementedVfs().delete, path);
  }
}
