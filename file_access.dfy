/**
  The whole-file readers of src/engine_lib.h that fill a caller's buffer or a
  piece of a bump allocator. The file system is a map from path to contents;
  a path that is absent is a file that `fopen` cannot open.
*/
module FileAccess {
  import opened Machine
  import opened BumpAllocation

  type Path = string
  type FileSystem = map<Path, seq<Byte>>

  /** `get_file_size` (lines 144-160): 0 when the open fails, the length otherwise. */
  function FileSize(fs: FileSystem, path: Path): nat {
    if path in fs then |fs[path]| else 0
  }

  /**
    The buffer form of `read_file` (lines 162-184), reading into `buffer`
    starting at offset `at` (the C pointer `buffer + at`). Returns that
    offset and the file size, or None and 0 when the open fails. The caller
    must provide room for the contents and a terminating NUL, and the size
    must fit the `int` out-parameter plus one.
  */
  method ReadFile(fs: FileSystem, path: Path, buffer: array<Byte>, at: nat)
    returns (result: Option<nat>, fileSize: Int32)
    requires path in fs ==> at + |fs[path]| + 1 <= buffer.Length
    requires path in fs ==> |fs[path]| < INT_MAX
    modifies buffer
    ensures path !in fs ==> result == None && fileSize == 0 && buffer[..] == old(buffer[..])
    ensures path in fs ==>
      && result == Some(at)
      && fileSize == |fs[path]|
      && buffer[at..at + fileSize] == fs[path]
      && buffer[at + fileSize] == 0
      && buffer[..at] == old(buffer[..at])
      && buffer[at + fileSize + 1..] == old(buffer[at + fileSize + 1..])
  {
    fileSize := 0;
    if path !in fs {
      result := None;
      return;
    }
    var contents := fs[path];
    fileSize := |contents|;
    // Zero the fileSize + 1 bytes, the string's terminator included.
    forall i | at <= i < at + fileSize + 1 {
      buffer[i] := 0;
    }
    // Copy the file's contents in front of the terminator.
    forall i | at <= i < at + fileSize {
      buffer[i] := contents[i - at];
    }
    assert buffer[at..at + fileSize] == contents;
    result := Some(at);
  }

  /**
    The allocator form of `read_file` (lines 186-196). An empty or missing
    file allocates nothing, returns None and leaves the caller's size
    `sizeBefore` as it was. Otherwise `FileSize + 1` bytes are taken from
    the allocator and the file is read into them; when the allocator is
    full nothing is written (see README) and the size is the file's length,
    which the buffer form stores before it reaches the NULL buffer.
  */
  method ReadFileArena(fs: FileSystem, path: Path, ba: BumpAllocator, sizeBefore: Int32)
    returns (result: Option<nat>, fileSize: Int32)
    requires ba.Valid()
    requires path in fs ==> |fs[path]| < INT_MAX
    modifies ba`used, ba`Grants, ba.memory
    ensures ba.Valid() && ba.memory == old(ba.memory) && ba.capacity == old(ba.capacity)
    ensures FileSize(fs, path) == 0 ==>
      && result == None && fileSize == sizeBefore
      && ba.used == old(ba.used) && ba.Grants == old(ba.Grants)
      && (ba.memory != null ==> ba.memory[..] == old(ba.memory[..]))
    ensures FileSize(fs, path) != 0 && old(ba.used) + Align8(FileSize(fs, path) + 1) > ba.capacity ==>
      && result == None && fileSize == FileSize(fs, path)
      && ba.used == old(ba.used) && ba.Grants == old(ba.Grants)
      && (ba.memory != null ==> ba.memory[..] == old(ba.memory[..]))
    ensures FileSize(fs, path) != 0 && old(ba.used) + Align8(FileSize(fs, path) + 1) <= ba.capacity ==>
      var at, n := old(ba.used), FileSize(fs, path);
      && result == Some(at) && fileSize == n
      && ba.used == at + Align8(n + 1) && ba.Grants == old(ba.Grants) + [Align8(n + 1)]
      && ba.memory != null
      && ba.memory[at..at + n] == fs[path] && ba.memory[at + n] == 0
      && ba.memory[..at] == old(ba.memory[..at])
      && ba.memory[at + n + 1..] == old(ba.memory[at + n + 1..])
  {
    result, fileSize := None, sizeBefore;
    var n := FileSize(fs, path);
    if n != 0 {
      var buffer := ba.Alloc(n + 1);
      if buffer.Some? {
        result, fileSize := ReadFile(fs, path, ba.memory, buffer.value);
      } else {
        fileSize := n;
      }
    }
  }

  /** What the allocator form of `copy_file` does before its buffer form takes over. */
  datatype CopyStart =
    | NotCopied            // the file is empty or missing: returns false, allocates nothing
    | Delegated(at: nat)   // the buffer form is called on the piece at offset `at`
    | AllocatorFull        // the allocator refused the buffer

  /**
    The allocation decision of the allocator form of `copy_file`
    (lines 231-240): nothing is allocated for an empty or missing file,
    otherwise a piece of `FileSize + 1` bytes is requested. The size must
    leave room for that `long` addition.
  */
  method CopyFileArena(fs: FileSystem, path: Path, ba: BumpAllocator) returns (start: CopyStart)
    requires ba.Valid()
    requires path in fs ==> |fs[path]| < LONG_MAX
    modifies ba`used, ba`Grants
    ensures ba.Valid() && ba.capacity == old(ba.capacity)
    ensures FileSize(fs, path) == 0 ==>
      start == NotCopied && ba.used == old(ba.used) && ba.Grants == old(ba.Grants)
    ensures FileSize(fs, path) != 0 && old(ba.used) + Align8(FileSize(fs, path) + 1) > ba.capacity ==>
      start == AllocatorFull && ba.used == old(ba.used) && ba.Grants == old(ba.Grants)
    ensures FileSize(fs, path) != 0 && old(ba.used) + Align8(FileSize(fs, path) + 1) <= ba.capacity ==>
      && start == Delegated(old(ba.used))
      && ba.used == old(ba.used) + Align8(FileSize(fs, path) + 1)
      && ba.Grants == old(ba.Grants) + [Align8(FileSize(fs, path) + 1)]
  {
    var n := FileSize(fs, path);
    if n == 0 {
      return NotCopied;
    }
    var buffer := ba.Alloc(n + 1);
    start := if buffer.Some? then Delegated(buffer.value) else AllocatorFull;
  }

  /** Reading the 5-byte file "hello" into a 6-byte buffer gives "hello\0" and size 5. */
  method ReadHello() returns (bytes: seq<Byte>, fileSize: Int32)
    ensures bytes == [0x68, 0x65, 0x6C, 0x6C, 0x6F, 0] && fileSize == 5
  {
    var hello: seq<Byte> := [0x68, 0x65, 0x6C, 0x6C, 0x6F];
    var fs: FileSystem := map["hello.txt" := hello];
    var buffer := new Byte[6](_ => 0xFF);
    var result;
    result, fileSize := ReadFile(fs, "hello.txt", buffer, 0);
    assert buffer[..] == buffer[0..5] + [buffer[5]];
    bytes := buffer[..];
  }

  /**
    An empty file and a missing file give the same answer from the
    allocator form: None, the caller's size untouched, nothing allocated.
  */
  method EmptyAndMissingLookAlike(sizeBefore: Int32)
    returns (empty: Option<nat>, emptySize: Int32, missing: Option<nat>, missingSize: Int32, used: SizeT)
    ensures empty == missing == None && emptySize == missingSize == sizeBefore && used == 0
  {
    var fs: FileSystem := map["empty.txt" := []];
    var ba := new BumpAllocator.Make(64, Some(seq(64, _ => 0)));
    empty, emptySize := ReadFileArena(fs, "empty.txt", ba, sizeBefore);
    missing, missingSize := ReadFileArena(fs, "missing.txt", ba, sizeBefore);
    used := ba.used;
  }

  /**
    A 100-byte file does not fit in a 64-byte allocator: the read is refused
    and the allocator is left as it was; a 20-byte file then takes 24 bytes.
  */
  method ReadTooLargeThenSmall() returns (large: Option<nat>, small: Option<nat>, smallSize: Int32, used: SizeT)
    ensures large == None && small == Some(0) && smallSize == 20 && used == 24
  {
    var fs: FileSystem := map["large.bin" := seq(100, _ => 1), "small.bin" := seq(20, _ => 2)];
    var ba := new BumpAllocator.Make(64, Some(seq(64, _ => 0)));
    var largeSize;
    large, largeSize := ReadFileArena(fs, "large.bin", ba, 0);
    small, smallSize := ReadFileArena(fs, "small.bin", ba, 0);
    used := ba.used;
  }
}
