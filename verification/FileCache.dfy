/**
 One file cache as an object, its calls running one at a time: the fast path answers exactly
 as reading the file under the lock would.
 */
module FileCacheObject {
  import opened Common
  import opened FileCacheProtocol

  datatype FileCacheError = LockFailed | OpenFailed | RenameFailed | FileMissing | DecodeFailed | WriteFailed

  /** The file and the temporary file. `versions` keeps the bytes each modification time ever stood for. */
  class FileSystem {
    var file: Option<Stored>
    var temp: Option<Bytes>
    ghost var versions: map<Time, Bytes>

    ghost predicate Valid()
      reads this
    {
      file.Some? ==> file.value.mtime in versions && versions[file.value.mtime] == file.value.bytes
    }

    constructor (file: Option<Stored>)
      ensures Valid() && this.file == file && temp == None
    {
      this.file, temp := file, None;
      versions := if file.Some? then map[file.value.mtime := file.value.bytes] else map[];
    }
  }

  /** Reading the file while nobody else can change it. */
  function PlainRead<C>(codec: Codec<C>, file: Option<Stored>): Result<C, FileCacheError> {
    if file.None? then Failure(FileMissing)
    else match codec.decode(file.value.bytes)
      case Some(content) => Success(content)
      case None => Failure(DecodeFailed)
  }

  class FileCache<C> {
    const codec: Codec<C>
    const fs: FileSystem
    var cachedContent: Option<C>
    var contentModified: Option<Time>

    ghost predicate Valid()
      reads this, fs
    {
      && fs.Valid()
      && (cachedContent.Some? && contentModified.Some? ==>
            && contentModified.value in fs.versions
            && codec.decode(fs.versions[contentModified.value]) == Some(cachedContent.value))
    }

    /** The instance knows the file as it is now. */
    predicate Remembers()
      reads this, fs
    {
      cachedContent.Some? && contentModified.Some? && contentModified == Mtime(fs.file)
    }

    constructor (codec: Codec<C>, fs: FileSystem)
      requires fs.Valid()
      ensures Valid() && this.codec == codec && this.fs == fs && cachedContent == None && contentModified == None
    {
      this.codec, this.fs := codec, fs;
      cachedContent, contentModified := None, None;
    }

    /** `statOk` and `lockFailure` are what the system calls report. */
    method Read(statOk: bool, lockFailure: Option<FileCacheError>) returns (r: Result<C, FileCacheError>)
      requires Valid()
      modifies this
      ensures Valid()
      ensures lockFailure.None? ==> r == PlainRead(codec, fs.file)
      ensures r.Success? ==> r == PlainRead(codec, fs.file)
      ensures r.Failure? && lockFailure.Some? ==> r.error == lockFailure.value
      ensures lockFailure.Some? && statOk && old(Remembers()) ==> r.Success?
      ensures lockFailure.Some? && !(statOk && old(Remembers())) ==> r.Failure?
      ensures r.Success? && statOk ==> Remembers()
      ensures r.Failure? ==> cachedContent == old(cachedContent) && contentModified == old(contentModified)
      ensures r.Success? ==> cachedContent == Some(r.value)
    {
      var currentModificationTime := if statOk then Mtime(fs.file) else None;
      if cachedContent.Some? && contentModified.Some? && contentModified == currentModificationTime {
        return Success(cachedContent.value);
      }
      if lockFailure.Some? {
        return Failure(lockFailure.value);
      }
      if fs.file.None? {
        return Failure(FileMissing);
      }
      var content := codec.decode(fs.file.value.bytes);
      if content.None? {
        return Failure(DecodeFailed);
      }
      cachedContent := content;
      contentModified := if statOk then Mtime(fs.file) else None;
      return Success(content.value);
    }

    /** `stamp` is the modification time the temporary file ends up with. */
    method Write(content: C, stamp: Time, statOk: bool, lockFailure: Option<FileCacheError>,
                 part: Option<Bytes>, renameOk: bool)
      returns (r: Result<(), FileCacheError>)
      requires Valid() && codec.decode(codec.encode(content)) == Some(content)
      requires stamp !in fs.versions
      modifies this, fs
      ensures Valid()
      ensures r.Success? <==> lockFailure.None? && part.None? && renameOk
      ensures r.Success? ==> fs.file == Some(Stored(codec.encode(content), stamp))
      ensures r.Success? ==> PlainRead(codec, fs.file) == Success(content)
      ensures r.Success? ==> cachedContent == Some(content) && (Remembers() <==> statOk) && fs.temp == None
      ensures r.Failure? ==> fs.file == old(fs.file)
      ensures r.Failure? ==> cachedContent == old(cachedContent) && contentModified == old(contentModified)
      ensures r.Failure? && lockFailure.None? ==> fs.temp == part
      ensures old(fs.versions).Keys <= fs.versions.Keys
      ensures forall m :: m in old(fs.versions) ==> fs.versions[m] == old(fs.versions)[m]
    {
      if lockFailure.Some? {
        return Failure(lockFailure.value);
      }
      if part.Some? {
        fs.temp := part;
        return Failure(WriteFailed);
      }
      fs.temp := Some(codec.encode(content));
      if !renameOk {
        fs.temp := None;
        return Failure(RenameFailed);
      }
      fs.file := Some(Stored(fs.temp.value, stamp));
      fs.versions := fs.versions[stamp := fs.temp.value];
      fs.temp := None;
      cachedContent := Some(content);
      contentModified := if statOk then Mtime(fs.file) else None;
      return Success(());
    }

    method Clear(lockFailure: Option<FileCacheError>) returns (r: Result<(), FileCacheError>)
      requires Valid()
      modifies this, fs`file
      ensures Valid()
      ensures r.Success? <==> lockFailure.None? && old(fs.file).Some?
      ensures r.Success? ==> fs.file == None && cachedContent == None && contentModified == None
      ensures r.Success? ==> PlainRead(codec, fs.file) == Failure(FileMissing)
      ensures r.Failure? ==> fs.file == old(fs.file)
      ensures r.Failure? ==> cachedContent == old(cachedContent) && contentModified == old(contentModified)
    {
      if lockFailure.Some? {
        return Failure(lockFailure.value);
      }
      if fs.file.None? {
        return Failure(FileMissing);
      }
      fs.file := None;
      cachedContent, contentModified := None, None;
      return Success(());
    }
  }

  /** Two caches over one file: what one writes the other reads, through its stale cache. */
  method WriteThenReadElsewhere<C>(a: FileCache<C>, b: FileCache<C>, content: C, stamp: Time, statOk: bool)
    returns (r: Result<C, FileCacheError>)
    requires a != b && a.fs == b.fs && a.codec == b.codec && a.Valid() && b.Valid()
    requires a.codec.decode(a.codec.encode(content)) == Some(content) && stamp !in a.fs.versions
    modifies a, b, a.fs
    ensures r == Success(content)
  {
    var w := a.Write(content, stamp, statOk, None, None, true);
    r := b.Read(statOk, None);
  }
}
