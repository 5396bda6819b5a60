# Bump allocator and whole-file readers of `engine_lib.h`

This project models, in Dafny, the memory/IO core of `src/engine_lib.h`:

- the linear ("bump") allocator `BumpAllocator`, created by
  `make_bump_allocator` and drawn from by `bumb_alloc`, which rounds each
  request up to a multiple of 8 with `(size + 7) & ~7` and hands out the
  range at offset `used`, or refuses with a NULL pointer when the block is full;
- the buffer form of `read_file`, which resets the size out-parameter, fails
  with NULL for a file that cannot be opened, and otherwise zeroes `n + 1`
  bytes of the caller's buffer, copies the file's `n` bytes in and leaves a
  NUL at index `n`;
- the allocator forms of `read_file` and `copy_file`, which allocate
  `n + 1` bytes from the allocator only for a non-empty file.

Three modules follow that structure:

- `Machine` (`machine.dfy`): the 64-bit C types (`size_t` as `SizeT`,
  `int` as `Int32`, `char` as `Byte`), a NULL-or-value `Option`, and C's
  bitwise `&` on unsigned values, modelled bit by bit as `BitAnd`, with the
  proof that `x & ~7` clears the three low bits of a `size_t`.
- `BumpAllocation` (`bump_allocator.dfy`): `Align8`, the class
  `BumpAllocator` with the fields `capacity`, `used` and `memory` (an
  `array?<bv8>`, `null` when `malloc` failed) and a ghost record `Grants` of
  the aligned size of every piece handed out. `Valid()` keeps
  `used <= capacity`, `memory.Length == capacity` and `used` equal to the sum
  of the pieces; lemmas show the pieces are 8-aligned, in bounds and pairwise
  disjoint. A pure function `AllocAsWritten` models `bumb_alloc` with the
  64-bit wrap-around of its two additions (see Findings).
- `FileAccess` (`file_access.dfy`): the file system as a
  `map<string, seq<bv8>>` (an absent path is a file `fopen` cannot open),
  `FileSize` (`get_file_size`), `ReadFile`, `ReadFileArena` and
  `CopyFileArena`.

Modelling choices:

- `malloc` is an input: `BumpAllocator.Make` takes `None` for a NULL result,
  or `Some(bytes)` holding the block's uninitialised contents, so the
  `memset` to zero is visible.
- A C pointer into a buffer is the pair (array, offset). `ReadFile` writes
  at `buffer + at`; the allocator forms call it on the allocator's block at
  the offset that `Alloc` returned. A returned pointer is `Some(offset)`,
  NULL is `None`.
- `SM_ASSERT` reports and execution goes on. So a refused `bumb_alloc`
  returns NULL and leaves `used` unchanged, and a failed `malloc` leaves the
  zero-initialised struct (`capacity == 0`, `used == 0`, `memory == null`).
- The allocator form of `read_file` does not write `*fileSize` for an empty
  or missing file, so the caller keeps its previous value. The model follows
  the code: `ReadFileArena` takes that previous value as `sizeBefore` and
  returns it unchanged. Because a missing file also counts as size 0 there,
  an empty file and a missing file cannot be told apart by that form
  (`EmptyAndMissingLookAlike`). The buffer form does distinguish them: it
  returns the buffer for an empty file and NULL for a missing one.
- When `bumb_alloc` refuses inside an allocator form, the code passes NULL on
  to the buffer form, whose assertion reports it; the buffer form then opens
  the file, stores its length `n` in `*fileSize` and zeroes the NULL buffer,
  which is undefined. The model stops at the last defined step:
  `ReadFileArena` returns `None` with size `n` and the block untouched, and
  `CopyFileArena` reports `AllocatorFull`.
- `FileSize` is the file-system view of `get_file_size`: the length of the
  file's contents, or 0 for a path that cannot be opened. It is a plain
  definition with no contract of its own; the readers' contracts are stated
  in terms of it.
- `BumpAllocator.Alloc` computes with unbounded integers, so it cannot wrap;
  it is the corrected allocator the file readers use.
  `AllocAsWrittenWithoutWrap` proves that the code as written does exactly
  the same whenever `size + 7` and `used + alligendSize` stay below 2^64.

## Model

| member | source | states |
|---|---|---|
| `Machine.BitAnd` | src/engine_lib.h:112 | C's unsigned `&`: the result is at most each operand |
| `Machine.MaskClearsLowBits` | src/engine_lib.h:112 | for every 64-bit `x`, `x & ~7` (with `~7` as the `size_t` value 2^64 - 8) equals `x - x % 8` |
| `BumpAllocation.Align8` | src/engine_lib.h:112 | the aligned size is divisible by 8, at least the request and less than the request plus 8 |
| `BumpAllocation.Align8IsLeast` | src/engine_lib.h:112 | no multiple of 8 that covers the request is smaller than the aligned size |
| `BumpAllocation.AlignedSizeAsWrittenRoundsUp` | src/engine_lib.h:112 | when `size + 7` does not wrap, `(size + 7) & ~7` computed in 64 bits equals `Align8(size)`, so it is divisible by 8 and within `[size, size + 8)` |
| `BumpAllocation.AlignedSizeAsWritten` | src/engine_lib.h:112 | `(size + 7) & ~7` in 64-bit `size_t`; its contract states only that the result is a multiple of 8 and at most the wrapped `size + 7`; `AlignedSizeAsWrittenRoundsUp` ties it to `Align8` when nothing wraps and `HugeRequestRoundsToZero` shows that it can fall below the request when `size + 7` wraps |
| `BumpAllocation.AllocAsWritten` | src/engine_lib.h:109-122 | `bumb_alloc` with both additions taken modulo 2^64; its contract states only that a grant is at offset `used`, leaves the new `used` within `capacity` and keeps it congruent to the old `used` modulo 8 (it does not promise that `used` grows); `AllocAsWrittenWithoutWrap` ties it to `Alloc` when nothing wraps and `WrappedSumShrinksUsed` shows `used` shrinking when the sum wraps |
| `BumpAllocation.BumpAllocator.Make` | src/engine_lib.h:95-107 | on success `capacity == size`, `used == 0` and every byte of a fresh block is 0; when `malloc` returns NULL, `memory == null` and `capacity == used == 0` |
| `BumpAllocation.BumpAllocator.Alloc` | src/engine_lib.h:109-122 | if `used + Align8(size) <= capacity` it returns the old `used` as offset (8-aligned) and advances `used` by exactly the aligned size; otherwise it returns NULL and `used` is unchanged; `used <= capacity` is kept, `capacity` and the block's bytes never change |
| `BumpAllocation.BumpAllocator.PiecesSound` | src/engine_lib.h:114-116 | every two pieces the allocator has handed out start 8-aligned, the earlier ends before the later starts, and both end within `capacity` |
| `BumpAllocation.PieceInside` | src/engine_lib.h:114-116 | the k-th piece of a run of allocations whose total fits starts at an 8-aligned offset and ends within `capacity` |
| `BumpAllocation.PiecesDisjoint` | src/engine_lib.h:115-116 | piece i of a run of allocations ends at or before the offset of every later piece j |
| `BumpAllocation.TwoTenByteAllocations` | src/engine_lib.h:109-122 | two 10-byte requests on a fresh 64-byte allocator get offsets 0 and 16 and leave `used == 32` |
| `BumpAllocation.ExhaustedAllocatorRefuses` | src/engine_lib.h:114-121 | on a 100-byte allocator a second 50-byte request (56 aligned) is refused with NULL and `used` stays 56 |
| `BumpAllocation.AllocAsWrittenWithoutWrap` | src/engine_lib.h:112-116 | whenever neither `size + 7` nor `used + alligendSize` wraps, the 64-bit code grants exactly when `used + Align8(size) <= capacity`, at offset `used`, with new `used` equal to `used + Align8(size)` |
| `BumpAllocation.HugeRequestRoundsToZero` | src/engine_lib.h:112 | for a request of 2^64 - 3 bytes the 64-bit aligned size is 0 and the request is granted without using any byte |
| `BumpAllocation.WrappedSumShrinksUsed` | src/engine_lib.h:114-116 | with 16 of 64 bytes used, a request of 2^64 - 8 bytes is granted at offset 16 and sets `used` back to 8 |
| `FileAccess.ReadFile` | src/engine_lib.h:162-184 | a file that cannot be opened gives NULL and size 0 and leaves the buffer alone; otherwise it returns the buffer, the size is the length `n`, bytes `[0, n)` are the file's contents, byte `n` is 0 and no other byte changes |
| `FileAccess.ReadFileArena` | src/engine_lib.h:186-196 | an empty or missing file gives NULL, keeps the caller's size and does not touch the allocator; otherwise `used` advances by `Align8(n + 1)` and the file is read, NUL-terminated, into the new piece at the old `used`; a refused allocation gives NULL and size `n` with the allocator and its block unchanged |
| `FileAccess.CopyFileArena` | src/engine_lib.h:231-240 | an empty or missing file returns false without allocating; otherwise it requests `n + 1` bytes, advancing `used` by `Align8(n + 1)` and handing the piece at the old `used` to the buffer form, or reports the allocator full with `used` unchanged |
| `FileAccess.ReadHello` | src/engine_lib.h:162-184 | reading the 5-byte file `hello` into a 6-byte buffer leaves `hello\0` in it and size 5 |
| `FileAccess.EmptyAndMissingLookAlike` | src/engine_lib.h:186-196 | the allocator form returns the same NULL and unchanged size for an empty and a missing file, and allocates nothing for either |
| `FileAccess.ReadTooLargeThenSmall` | src/engine_lib.h:186-196 | a 100-byte file is refused by a 64-byte allocator without using space; a 20-byte file then lands at offset 0 and uses 24 bytes |

## Left out

- Logging (`_log`, the colour table, `SM_TRACE`, `SM_WARN`, `SM_ERROR`, lines 22-77): console formatting and output only; diagnostics are not modelled, a failure is visible only through the NULL, false or 0 result.
- `DEBUG_BREAK` and the trap in `SM_ASSERT` (lines 9-15, 79-86): platform-specific; the model continues after the macro as the code does.
- The `SM_ASSERT` checks that `filePath`, `fileSize` and `buffer` are not NULL (lines 163-165, 132, 145): Dafny arrays and strings cannot be NULL, so these checks cannot fail in the model.
- `get_timestamp`, `file_exists` and `write_file` (lines 125-142, 198-209): thin wrappers over `stat` and `fopen`/`fwrite` with no logic of their own.
- The buffer form of `copy_file` (lines 211-229): its opening and writing of the destination file is OS I/O; `CopyFileArena` stops where that form takes over.
- The `fopen`/`fseek`/`ftell`/`fread` sequences: the file's contents are an input, and `fread` is taken to read the whole file.
- The `BIT`, `KB`, `MB` and `GB` macros (lines 17-20): textual macros whose meaning depends on where they are expanded.
- Releasing the block: the code never frees it, and there is no reset operation.
- Thread safety: the code is single-threaded.
- `ReadFile`: requires the file to be shorter than `INT_MAX` bytes, because the code stores its size in an `int` and adds 1 to it; the code truncates larger sizes, and that is not modelled.
- `ReadFileArena`: requires the file to be shorter than `INT_MAX` bytes, for the same reason; and when the allocator refuses, the code's zeroing of, and reading into, the NULL buffer is not modelled.
- 64-bit `long`: the model assumes a target where `long` is 64 bits (Linux, macOS); on the `_WIN32` target `long` is 32 bits, so `LONG_MAX` and the truncation of `ftell`'s result there are not modelled.
- `CopyFileArena`: requires the file to be shorter than `LONG_MAX` bytes, because `get_file_size` returns a `long` and 1 is added to it; the result of the buffer form it delegates to is not modelled.
- `BumpAllocation.BumpAllocator.Alloc`: on an allocator whose `malloc` failed, a 0-byte request is granted as `Some(0)`, although the C pointer `memory + 0` is then NULL; it is modelled without 64-bit wrap-around, which is reported under Findings.

## Findings

| source | as written | input that shows it | evidently intended | confidence | as-written member | corrected member |
|---|---|---|---|---|---|---|
| src/engine_lib.h:112 | `size + 7` is computed in 64-bit `size_t` and wraps for requests of 2^64 - 7 bytes or more, so the aligned size becomes 0 | `size = 2^64 - 3` gives aligned size 0; on a 64-byte allocator the request is granted at offset 0 with `used` still 0 | refuse any request that does not fit the remaining space | not executed | `BumpAllocation.HugeRequestRoundsToZero` | `BumpAllocation.BumpAllocator.Alloc` |
| src/engine_lib.h:114-116 | `ba->used + alligendSize` wraps around 2^64, so the capacity test can pass and `used` can decrease | `used = 16`, `capacity = 64`, `size = 2^64 - 8`: granted at offset 16 and `used` becomes 8, so the next piece overlaps | refuse the request and keep `used` | not executed | `BumpAllocation.WrappedSumShrinksUsed` | `BumpAllocation.BumpAllocator.Alloc` |
