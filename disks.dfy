/** The part of FileManager and Data that FilesOrganizer relies on, over an
    abstract disk: a set of directories and a map from file path to bytes.
    Every call that can throw takes a `fault` flag standing for the I/O errors
    the platform may raise (permissions, a full disk, ...); the structural
    failures (a missing parent, a regular file in the way) are modelled. */
module Disks {
  import opened Paths

  newtype Byte = b: int | 0 <= b < 256
  type Bytes = seq<Byte>

  datatype IoError = DirectoryCreationFailed | WriteFailed | ReadFailed | RemoveFailed

  /** Swift's Result: a value or the error that was thrown. */
  datatype Result<T> = Success(value: T) | Failure(error: IoError)

  datatype Disk = Disk(dirs: set<Path>, files: map<Path, Bytes>)

  /** A disk as a filesystem keeps it: every directory above a directory
      exists, every file sits in a directory, and no path is both a
      directory and a file. The root [] is not recorded as a directory, so
      the model holds no file directly under the root; every path the
      organizer uses lies at least two components deep. */
  ghost predicate WellFormed(d: Disk) {
    && [] !in d.dirs
    && (forall p, q :: p in d.dirs && q in Ancestors(p) ==> q in d.dirs)
    && (forall p :: p in d.files ==> p != [] && Parent(p) in d.dirs && p !in d.dirs)
  }

  /** FileManager.fileExists(atPath:): a directory or a regular file. */
  predicate FileExists(d: Disk, p: Path): (b: bool)
    ensures b <==> p in d.dirs || p in d.files
  {
    p in d.dirs || p in d.files
  }

  /** `p` and every directory above it (the root excluded). */
  function Ancestors(p: Path): (r: set<Path>)
    ensures forall q :: q in r <==> q != [] && IsPrefix(q, p)
  {
    var r := set k | 1 <= k <= |p| :: p[..k];
    assert forall q :: q != [] && IsPrefix(q, p) ==> q == p[..|q|];
    r
  }

  /** FileManager.createDirectory(at:withIntermediateDirectories: true):
      creates `p` and every missing directory above it; fails when one of
      them is a regular file, or on a fault. */
  function CreateDirectory(d: Disk, p: Path, fault: bool): (r: Result<Disk>)
    ensures r.Success? ==> r.value.files == d.files && r.value.dirs == d.dirs + Ancestors(p)
    ensures r.Failure? ==> r.error == DirectoryCreationFailed
    ensures !fault && (forall q :: q in Ancestors(p) ==> q !in d.files) ==> r.Success?
  {
    if fault || exists q :: q in Ancestors(p) && q in d.files then Failure(DirectoryCreationFailed)
    else Success(d.(dirs := d.dirs + Ancestors(p)))
  }

  /** Data.write(to:): replaces the whole content of `url`; fails when the
      parent directory is missing, when `url` is a directory, or on a fault. */
  function WriteData(d: Disk, url: Path, data: Bytes, fault: bool): (r: Result<Disk>)
    ensures r.Success? <==> !fault && url != [] && Parent(url) in d.dirs && url !in d.dirs
    ensures r.Success? ==> r.value.dirs == d.dirs && r.value.files == d.files[url := data]
    ensures r.Failure? ==> r.error == WriteFailed
  {
    if fault || url == [] || Parent(url) !in d.dirs || url in d.dirs then Failure(WriteFailed)
    else Success(d.(files := d.files[url := data]))
  }

  /** Data(contentsOf:): the whole content of the regular file `url`. It
      never reports an absent file as empty data. */
  function ReadData(d: Disk, url: Path, fault: bool): (r: Result<Bytes>)
    ensures r.Success? <==> !fault && url in d.files
    ensures r.Success? ==> r.value == d.files[url]
    ensures r.Failure? ==> r.error == ReadFailed
  {
    if fault || url !in d.files then Failure(ReadFailed) else Success(d.files[url])
  }

  /** The disk without `p` and everything under it. */
  function Prune(d: Disk, p: Path): (r: Disk)
    ensures forall q :: q in r.dirs <==> q in d.dirs && !IsPrefix(p, q)
    ensures forall q :: q in r.files <==> q in d.files && !IsPrefix(p, q)
    ensures forall q :: q in r.files ==> r.files[q] == d.files[q]
  {
    Disk(set q | q in d.dirs && !IsPrefix(p, q),
         map q | q in d.files && !IsPrefix(p, q) :: d.files[q])
  }

  /** FileManager.removeItem(atPath:): deletes `p` and everything under it;
      fails when nothing is at `p`, or on a fault. */
  function RemoveItem(d: Disk, p: Path, fault: bool): (r: Result<Disk>)
    ensures r.Success? <==> !fault && FileExists(d, p)
    ensures r.Success? ==> r.value == Prune(d, p)
    ensures r.Failure? ==> r.error == RemoveFailed
  {
    if fault || !FileExists(d, p) then Failure(RemoveFailed) else Success(Prune(d, p))
  }

  /** Creating directories keeps the disk well formed. */
  lemma CreateDirectoryKeepsWellFormed(d: Disk, p: Path, fault: bool)
    requires WellFormed(d)
    requires CreateDirectory(d, p, fault).Success?
    ensures WellFormed(CreateDirectory(d, p, fault).value)
  {
  }

  /** Writing a file keeps the disk well formed. */
  lemma WriteDataKeepsWellFormed(d: Disk, url: Path, data: Bytes, fault: bool)
    requires WellFormed(d)
    requires WriteData(d, url, data, fault).Success?
    ensures WellFormed(WriteData(d, url, data, fault).value)
  {
  }

  /** Removing a subtree keeps the disk well formed: what survives keeps the
      directories above it, since whatever lies below a removed path was
      removed too. */
  lemma PruneKeepsWellFormed(d: Disk, p: Path)
    requires WellFormed(d)
    ensures WellFormed(Prune(d, p))
  {
  }

  /** In a well-formed disk, something at or under `folder` means something
      is at `folder` itself. */
  lemma {:induction false} OccupiedFolderExists(d: Disk, folder: Path, q: Path)
    requires WellFormed(d) && folder != [] && IsPrefix(folder, q) && FileExists(d, q)
    ensures FileExists(d, folder)
  {
    if q in d.dirs {
      assert folder in Ancestors(q);
    } else if folder != q {
      assert q[..|q|] == q;
      assert Parent(q)[..|folder|] == q[..|folder|];
      assert folder in Ancestors(Parent(q));
    }
  }
}
