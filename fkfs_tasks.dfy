/**
 * The counter logic of src/fkfs_tasks.cpp: FkfsIterator, which walks a file
 * of the fkfs flash file system block by block, and FkfsStreamingIterator,
 * which cuts those blocks into reads of a requested size. The fkfs library
 * calls are not part of this model: what each would report is an input
 * (FsReport), and the blocks the iterator would yield are inputs too.
 * millis() is `now`; the counters are uint32 values.
 */
module FkfsTasks {
  import opened Basics

  /** DataBlock{ptr, size}: no block (a null pointer) or a block of bytes. */
  datatype DataBlock = NoBlock | Block(bytes: seq<uint8>) {
    /** The block's size field: 0 for no block. */
    function Size(): nat {
      if NoBlock? then 0 else |bytes|
    }
  }

  /** The block source of FkfsStreamingIterator: the block it holds and the read position in it. */
  datatype StreamState = StreamState(block: DataBlock, position: nat)

  /** read() takes a new block when it has none or the one it has is used up. */
  predicate NeedsBlock(s: StreamState) {
    s.block.NoBlock? || s.position >= s.block.Size()
  }

  /**
   * read(bytes) with `next` the block iterator.move() would return: the
   * block in use, the slice of it from the position on, at most `bytes`
   * long, and the position after it.
   */
  function ReadStep(s: StreamState, bytes: nat, next: DataBlock): (StreamState, DataBlock)
    requires s.position <= s.block.Size()
  {
    var block := if NeedsBlock(s) then next else s.block;
    var position := if NeedsBlock(s) then 0 else s.position;
    var size := Min(bytes, block.Size() - position);
    (StreamState(block, position + size),
     if block.NoBlock? then NoBlock else Block(block.bytes[position..position + size]))
  }

  /**
   * The size of a read is the smaller of the request and what is left of
   * the block; the position moves by that much and stays within the block;
   * a new block is taken exactly when there was none or it was used up.
   */
  lemma ReadRule(s: StreamState, bytes: nat, next: DataBlock)
    requires s.position <= s.block.Size()
    ensures var (t, r) := ReadStep(s, bytes, next);
      var start := if NeedsBlock(s) then 0 else s.position;
      t.block == (if NeedsBlock(s) then next else s.block) &&
      r.Size() == Min(bytes, t.block.Size() - start) &&
      t.position == start + r.Size() <= t.block.Size() &&
      (r.Block? <==> t.block.Block?)
  {
  }

  /**
   * Two reads from one block without a new fetch between them return
   * adjacent slices: together they are the block's bytes from the first
   * read's position on.
   */
  lemma ContiguousReads(s: StreamState, a: nat, b: nat, next1: DataBlock, next2: DataBlock)
    requires s.position <= s.block.Size() && !NeedsBlock(s)
    requires !NeedsBlock(ReadStep(s, a, next1).0)
    ensures var (t, r1) := ReadStep(s, a, next1);
      var (u, r2) := ReadStep(t, b, next2);
      r1.Block? && r2.Block? && u.block == s.block &&
      r1.bytes + r2.bytes == s.block.bytes[s.position..u.position]
  {
    var (t, r1) := ReadStep(s, a, next1);
    var (u, r2) := ReadStep(t, b, next2);
    assert s.block.bytes[s.position..u.position] ==
      s.block.bytes[s.position..t.position] + s.block.bytes[t.position..u.position];
  }

  class FkfsStreamingIterator {
    var block: DataBlock
    var position: nat

    ghost predicate Valid()
      reads this
    {
      position <= block.Size()
    }

    function State(): StreamState
      reads this
    {
      StreamState(block, position)
    }

    constructor ()
      ensures Valid() && State() == StreamState(NoBlock, 0)
    {
      block := NoBlock;
      position := 0;
    }

    /** read(bytes); `next` is the block iterator.move() returns when it is called. */
    method Read(bytes: nat, next: DataBlock) returns (r: DataBlock)
      requires Valid()
      modifies this
      ensures Valid() && (State(), r) == ReadStep(old(State()), bytes, next)
    {
      if block.NoBlock? || position >= block.Size() {
        block := next;
        position := 0;
      }
      var blockRemaining := block.Size() - position;
      var size := if bytes > blockRemaining then blockRemaining else bytes;
      r := if block.NoBlock? then NoBlock else Block(block.bytes[position..position + size]);
      position := position + size;
    }
  }

  /**
   * What the fkfs calls of one peek() report: fkfs_get_file (the file's size,
   * or None when it fails), fkfs_file_iterate (the block it yields, or None),
   * fkfs_file_iterator_done, and the file size a fresh iterator reports after
   * a truncation.
   */
  datatype FsReport = FsReport(fileSize: Option<uint32>, iterated: Option<seq<uint8>>, iteratorDone: bool, recreatedSize: uint32)

  /** The counters of FkfsIterator. */
  datatype IteratorState = IteratorState(finished: bool, startedAt: uint32, iteratedBytes: uint32, statusAt: uint32, totalBytes: uint32)

  /** beginning(): all counters cleared, the total taken from the new iterator. */
  function BeginningState(tokenSize: uint32): IteratorState {
    IteratorState(false, 0, 0, 0, tokenSize)
  }

  /** The interval, in milliseconds, between status lines. */
  const StatusInterval: nat := 1000

  /**
   * peek(): unless finished, starts the walk on the first call (a failing
   * file lookup yields no block), refreshes the status time once a second,
   * then returns the next block and counts its bytes or, at the end, marks
   * the walk finished and truncates the file when the byte counts disagree,
   * which starts it over.
   */
  function PeekStep(s: IteratorState, now: uint32, fs: FsReport): (IteratorState, DataBlock)
    requires fs.iterated.Some? ==> |fs.iterated.value| < Uint32Modulus
  {
    if s.finished then (s, NoBlock)
    else if s.startedAt == 0 && fs.fileSize.None? then (s, NoBlock)
    else
      var started :=
        if s.startedAt == 0 then
          s.(startedAt := now, statusAt := now, iteratedBytes := 0,
             totalBytes := if s.totalBytes == 0 then fs.fileSize.value else s.totalBytes)
        else s;
      var timed := if Sub32(now, started.statusAt) > StatusInterval then started.(statusAt := now) else started;
      if fs.iterated.Some? then
        (timed.(iteratedBytes := Add32(timed.iteratedBytes, |fs.iterated.value|)), Block(fs.iterated.value))
      else if fs.iteratorDone then
        if timed.totalBytes != timed.iteratedBytes then (BeginningState(fs.recreatedSize), NoBlock)
        else (timed.(finished := true), NoBlock)
      else (timed, NoBlock)
  }

  /**
   * The byte count grows by exactly the size of each block yielded, counted
   * from zero on the call that starts the walk; only a yielded block is a
   * block; a finished walk yields nothing and stays as it is.
   */
  lemma PeekCounts(s: IteratorState, now: uint32, fs: FsReport)
    requires fs.iterated.Some? ==> |fs.iterated.value| < Uint32Modulus
    ensures var (t, b) := PeekStep(s, now, fs);
      (b.Block? <==> !s.finished && (s.startedAt != 0 || fs.fileSize.Some?) && fs.iterated.Some?) &&
      (b.Block? ==>
         b.bytes == fs.iterated.value &&
         t.iteratedBytes == Add32(if s.startedAt == 0 then 0 else s.iteratedBytes, |b.bytes|)) &&
      (s.finished ==> t == s)
  {
  }

  /**
   * The end of the walk: finished, with the counts as they were, when they
   * agree; otherwise the file is truncated and the walk starts over from
   * cleared counters.
   */
  lemma PeekEnd(s: IteratorState, now: uint32, fs: FsReport)
    requires !s.finished && s.startedAt != 0 && fs.iterated.None? && fs.iteratorDone
    ensures var (t, b) := PeekStep(s, now, fs);
      b.NoBlock? &&
      (s.totalBytes == s.iteratedBytes ==> t.finished && t.iteratedBytes == s.iteratedBytes) &&
      (s.totalBytes != s.iteratedBytes ==> t == BeginningState(fs.recreatedSize) && !t.finished)
  {
  }

  class FkfsIterator {
    var finished: bool
    var startedAt: uint32
    var iteratedBytes: uint32
    var statusAt: uint32
    var totalBytes: uint32
    /** The fkfs_file_iterate_move calls of moveNext(), in order. */
    var moves: nat

    function State(): IteratorState
      reads this
    {
      IteratorState(finished, startedAt, iteratedBytes, statusAt, totalBytes)
    }

    constructor ()
      ensures State() == IteratorState(false, 0, 0, 0, 0) && moves == 0
    {
      finished := false;
      startedAt := 0;
      iteratedBytes := 0;
      statusAt := 0;
      totalBytes := 0;
      moves := 0;
    }

    /** beginning(); `tokenSize` is the size the freshly created fkfs iterator reports. */
    method Beginning(tokenSize: uint32)
      modifies this
      ensures State() == BeginningState(tokenSize) && moves == old(moves)
    {
      finished := false;
      startedAt := 0;
      iteratedBytes := 0;
      statusAt := 0;
      totalBytes := tokenSize;
    }

    /** peek(). */
    method Peek(now: uint32, fs: FsReport) returns (b: DataBlock)
      requires fs.iterated.Some? ==> |fs.iterated.value| < Uint32Modulus
      modifies this
      ensures (State(), b) == PeekStep(old(State()), now, fs) && moves == old(moves)
    {
      b := NoBlock;
      if !finished {
        if startedAt == 0 {
          if fs.fileSize.None? {
            return;
          }
          startedAt := now;
          statusAt := startedAt;
          if totalBytes == 0 {
            totalBytes := fs.fileSize.value;
          }
          iteratedBytes := 0;
        }
        if Sub32(now, statusAt) > StatusInterval {
          statusAt := now;
        }
        if fs.iterated.Some? {
          iteratedBytes := Add32(iteratedBytes, |fs.iterated.value|);
          b := Block(fs.iterated.value);
          return;
        } else if fs.iteratorDone {
          finished := true;
          if totalBytes != iteratedBytes {
            Beginning(fs.recreatedSize);
          }
        }
      }
    }

    /** move(): peek(), and step the fkfs iterator on only when a block came back. */
    method Move(now: uint32, fs: FsReport) returns (b: DataBlock)
      requires fs.iterated.Some? ==> |fs.iterated.value| < Uint32Modulus
      modifies this
      ensures (State(), b) == PeekStep(old(State()), now, fs)
      ensures moves == old(moves) + (if b.Block? then 1 else 0)
    {
      b := Peek(now, fs);
      if b.Block? {
        moves := moves + 1;
      }
    }
  }

  /**
   * A walk over a file of two blocks whose sizes add up to the file's size:
   * both blocks come back in order, the fkfs iterator is stepped twice, the
   * byte count equals the file size, and the walk ends finished.
   */
  method WalkTwoBlocks(first: seq<uint8>, second: seq<uint8>, now: uint32)
    returns (b1: DataBlock, b2: DataBlock, b3: DataBlock, finished: bool, counted: uint32, moves: nat)
    requires 0 < now && |first| + |second| < Uint32Modulus
    ensures b1 == Block(first) && b2 == Block(second) && b3 == NoBlock
    ensures finished && counted == |first| + |second| && moves == 2
  {
    var size: uint32 := |first| + |second|;
    var it := new FkfsIterator();
    it.Beginning(size);
    b1 := it.Move(now, FsReport(Some(size), Some(first), false, 0));
    b2 := it.Move(now, FsReport(Some(size), Some(second), false, 0));
    b3 := it.Move(now, FsReport(Some(size), None, true, 0));
    finished := it.finished;
    counted := it.iteratedBytes;
    moves := it.moves;
  }
}
