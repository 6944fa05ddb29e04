/** The page builder of the operator layer: one block builder per output channel, filled by
    callers through `GetBlockBuilder`, plus a position counter for pages with no channels. */
module Operator {
  import opened Wrappers
  import opened JavaInts

  /** 4 megabytes, in bytes (a DataSize megabyte is 1024 * 1024 bytes). */
  const DEFAULT_MAX_PAGE_SIZE: nat := 4 * 1024 * 1024

  /** The layout of one channel's values; PageBuilder only passes it on to the builders. */
  datatype TupleInfo = TupleInfo(types: seq<string>)

  /** A byte count reported by a block builder: a non-negative JVM `int`. */
  type BuilderSize = x: int | 0 <= x <= INT_MAX

  /** A finished block: the layout it was built with and the bytes it holds. */
  datatype Block = Block(tupleInfo: TupleInfo, sizeInBytes: nat)

  /** A page either only counts positions (no channels) or carries one block per channel. */
  datatype Page = PositionsOnly(positionCount: int) | WithBlocks(blocks: seq<Block>)

  /** What PageBuilder observes of a block builder at one instant. */
  datatype BuilderState = BuilderState(tupleInfo: TupleInfo, size: BuilderSize, full: bool, empty: bool)
  {
    /** The block that `build()` produces from a builder in this state. */
    function Build(): Block
    {
      Block(tupleInfo, size)
    }
  }

  /** A block builder. How values are appended to it is not part of this model: callers change
      `size`, `full` and `empty` through the reference that `GetBlockBuilder` hands out. */
  class BlockBuilder {
    const tupleInfo: TupleInfo
    const maxBlockSize: int
    var size: BuilderSize
    var full: bool
    var empty: bool

    /** A new builder holds nothing yet. */
    constructor (tupleInfo: TupleInfo, maxBlockSize: int)
      ensures IsNew(this, tupleInfo, maxBlockSize)
    {
      this.tupleInfo := tupleInfo;
      this.maxBlockSize := maxBlockSize;
      size := 0;
      full := false;
      empty := true;
    }

    function State(): BuilderState
      reads this
    {
      BuilderState(tupleInfo, size, full, empty)
    }
  }

  /** `b` is in the state of a builder just created for `tupleInfo` with the given block limit. */
  ghost predicate IsNew(b: BlockBuilder, tupleInfo: TupleInfo, maxBlockSize: int)
    reads b
  {
    b.tupleInfo == tupleInfo && b.maxBlockSize == maxBlockSize && b.size == 0 && b.empty
  }

  /** The per-channel block limit: the page limit shared out evenly over the channels, stored
      through a narrowing `(int)` cast of the `long` quotient; 0 when there are no channels. */
  function MaxBlockSize(channels: nat, maxSizeInBytes: nat): (r: int)
    ensures IsInt(r)
    ensures channels == 0 ==> r == 0
    ensures channels > 0 && maxSizeInBytes / channels <= INT_MAX ==> r == maxSizeInBytes / channels
    ensures channels > 0 ==> (maxSizeInBytes / channels - r) % INT_MODULUS == 0
  {
    if channels == 0 then 0 else WrapInt(maxSizeInBytes / channels)
  }

  /** With the default 4 MB page every channel gets an exact, non-negative share. */
  lemma DefaultMaxBlockSize(channels: nat)
    requires channels > 0
    ensures MaxBlockSize(channels, DEFAULT_MAX_PAGE_SIZE) == DEFAULT_MAX_PAGE_SIZE / channels
    ensures 0 <= MaxBlockSize(channels, DEFAULT_MAX_PAGE_SIZE) <= DEFAULT_MAX_PAGE_SIZE
  {
    assert DEFAULT_MAX_PAGE_SIZE / channels <= DEFAULT_MAX_PAGE_SIZE / 1;
  }

  /** The cast is not saturating: a single channel with a 4 GiB page gets a block limit of 0. */
  lemma OversizedPageWrapsBlockSize()
    ensures MaxBlockSize(1, INT_MODULUS) == 0
    ensures MaxBlockSize(1, INT_MAX + 1) == INT_MIN
  {
  }

  /** The sum of the builders' sizes. */
  function TotalSize(s: seq<BuilderState>): nat
  {
    if |s| == 0 then 0 else TotalSize(s[..|s| - 1]) + s[|s| - 1].size
  }

  predicate AnyFull(s: seq<BuilderState>)
  {
    exists i :: 0 <= i < |s| && s[i].full
  }

  /** The scan in `isFull` stops with `true` at builder `k`: it is full, or the running size
      total up to and including it exceeds the page limit. */
  predicate StopsAt(s: seq<BuilderState>, k: nat, maxSizeInBytes: int)
    requires k < |s|
  {
    s[k].full || TotalSize(s[..k + 1]) > maxSizeInBytes
  }

  /** What the early-exit scan of `isFull` reports. */
  predicate ScanReportsFull(declaredPositions: int, s: seq<BuilderState>, maxSizeInBytes: int)
  {
    declaredPositions == INT_MAX || exists k :: 0 <= k < |s| && StopsAt(s, k, maxSizeInBytes)
  }

  /** Running totals only grow along the builders, since sizes are non-negative. */
  lemma {:induction false} TotalSizeOfPrefixGrows(s: seq<BuilderState>, j: nat, k: nat)
    requires j <= k <= |s|
    ensures TotalSize(s[..j]) <= TotalSize(s[..k])
    decreases k - j
  {
    if j < k {
      TotalSizeOfPrefixGrows(s, j, k - 1);
      assert s[..k][..k - 1] == s[..k - 1];
    }
  }

  /** The early exit does not change the answer: the page is full exactly when the position
      counter is saturated, some builder is full, or all builders together exceed the limit. */
  lemma ScanReportsFullClosedForm(declaredPositions: int, s: seq<BuilderState>, maxSizeInBytes: int)
    requires maxSizeInBytes >= 0
    ensures ScanReportsFull(declaredPositions, s, maxSizeInBytes)
        <==> declaredPositions == INT_MAX || AnyFull(s) || TotalSize(s) > maxSizeInBytes
  {
    if k :| 0 <= k < |s| && StopsAt(s, k, maxSizeInBytes) {
      if !s[k].full {
        TotalSizeOfPrefixGrows(s, k + 1, |s|);
        assert s[..|s|] == s;
      }
    }
    if i :| 0 <= i < |s| && s[i].full {
      assert StopsAt(s, i, maxSizeInBytes);
    }
    if TotalSize(s) > maxSizeInBytes {
      assert |s| > 0;
      assert s[..|s|] == s;
      assert StopsAt(s, |s| - 1, maxSizeInBytes);
    }
  }

  /** Every builder size fits an `int`, so the `long` running totals cannot overflow. */
  lemma {:induction false} TotalSizeBound(s: seq<BuilderState>)
    ensures TotalSize(s) <= |s| * INT_MAX
  {
    if |s| > 0 {
      TotalSizeBound(s[..|s| - 1]);
    }
  }

  /** Builders that hold nothing add up to nothing. */
  lemma {:induction false} TotalSizeOfEmptyBuilders(s: seq<BuilderState>)
    requires forall i :: 0 <= i < |s| ==> s[i].size == 0
    ensures TotalSize(s) == 0
  {
    if |s| > 0 {
      TotalSizeOfEmptyBuilders(s[..|s| - 1]);
    }
  }

  lemma TotalSizeFitsLong(s: seq<BuilderState>)
    requires |s| <= INT_MAX
    ensures TotalSize(s) <= LONG_MAX
  {
    TotalSizeBound(s);
    assert |s| * INT_MAX <= INT_MAX * INT_MAX;
  }

  class PageBuilder {
    const blockBuilders: array<BlockBuilder>
    const maxSizeInBytes: int
    const maxBlockSize: int
    var declaredPositions: int

    /** The counter is an `int`, the limits fit their Java types, and every channel has a
        builder of its own. */
    ghost predicate Valid()
      reads this, blockBuilders
    {
      && IsInt(declaredPositions) && blockBuilders.Length <= INT_MAX && 0 <= maxSizeInBytes <= LONG_MAX
      && forall i, j :: 0 <= i < j < blockBuilders.Length ==> blockBuilders[i] != blockBuilders[j]
    }

    /** The states of the builders, in channel order. */
    ghost function Builders(): (s: seq<BuilderState>)
      reads this, blockBuilders, blockBuilders[..]
      ensures |s| == blockBuilders.Length
      ensures forall i :: 0 <= i < |s| ==> s[i] == blockBuilders[i].State()
    {
      seq(blockBuilders.Length, i requires 0 <= i < blockBuilders.Length reads blockBuilders, blockBuilders[..] =>
        blockBuilders[i].State())
    }

    /** One new builder per tuple info, in order. */
    static method NewBuilders(tupleInfos: seq<TupleInfo>, maxBlockSize: int) returns (a: array<BlockBuilder>)
      ensures fresh(a) && a.Length == |tupleInfos|
      ensures forall i :: 0 <= i < a.Length ==> fresh(a[i]) && IsNew(a[i], tupleInfos[i], maxBlockSize)
      ensures forall i, j :: 0 <= i < j < a.Length ==> a[i] != a[j]
    {
      var built: seq<BlockBuilder> := [];
      for i := 0 to |tupleInfos|
        invariant |built| == i
        invariant forall k :: 0 <= k < i ==> fresh(built[k]) && IsNew(built[k], tupleInfos[k], maxBlockSize)
        invariant forall k, l :: 0 <= k < l < i ==> built[k] != built[l]
      {
        var b := new BlockBuilder(tupleInfos[i], maxBlockSize);
        built := built + [b];
      }
      a := new BlockBuilder[|built|](i requires 0 <= i < |built| => built[i]);
    }

    constructor (tupleInfos: seq<TupleInfo>, maxSize: nat)
      requires |tupleInfos| <= INT_MAX && maxSize <= LONG_MAX
      ensures Valid() && fresh(blockBuilders)
      ensures maxBlockSize == MaxBlockSize(|tupleInfos|, maxSize) && maxSizeInBytes == maxSize
      ensures declaredPositions == 0
      ensures blockBuilders.Length == |tupleInfos|
      ensures forall i :: 0 <= i < |tupleInfos| ==>
                fresh(blockBuilders[i]) && IsNew(blockBuilders[i], tupleInfos[i], maxBlockSize)
      ensures IsEmpty()
    {
      var limit := MaxBlockSize(|tupleInfos|, maxSize);
      maxBlockSize := limit;
      var builders := PageBuilder.NewBuilders(tupleInfos, limit);
      blockBuilders := builders;
      maxSizeInBytes := maxSize;
      declaredPositions := 0;
    }

    constructor WithDefaultMaxSize(tupleInfos: seq<TupleInfo>)
      requires |tupleInfos| <= INT_MAX
      ensures Valid() && fresh(blockBuilders)
      ensures maxBlockSize == MaxBlockSize(|tupleInfos|, DEFAULT_MAX_PAGE_SIZE)
      ensures maxSizeInBytes == DEFAULT_MAX_PAGE_SIZE
      ensures declaredPositions == 0
      ensures blockBuilders.Length == |tupleInfos|
      ensures forall i :: 0 <= i < |tupleInfos| ==>
                fresh(blockBuilders[i]) && IsNew(blockBuilders[i], tupleInfos[i], maxBlockSize)
      ensures IsEmpty()
    {
      var limit := MaxBlockSize(|tupleInfos|, DEFAULT_MAX_PAGE_SIZE);
      maxBlockSize := limit;
      var builders := PageBuilder.NewBuilders(tupleInfos, limit);
      blockBuilders := builders;
      maxSizeInBytes := DEFAULT_MAX_PAGE_SIZE;
      declaredPositions := 0;
    }

    /** Clears the counter; unless the page is empty, replaces every builder by a new one for
        the same tuple info. Emptiness is judged by builder 0 alone. */
    method Reset()
      requires Valid()
      modifies this`declaredPositions, blockBuilders
      ensures Valid() && declaredPositions == 0 && IsEmpty()
      ensures old(blockBuilders.Length == 0 || blockBuilders[0].empty) ==>
                blockBuilders[..] == old(blockBuilders[..])
      ensures old(blockBuilders.Length > 0 && !blockBuilders[0].empty) ==>
                forall i :: 0 <= i < blockBuilders.Length ==>
                  fresh(blockBuilders[i]) && IsNew(blockBuilders[i], old(blockBuilders[i].tupleInfo), maxBlockSize)
      ensures old(blockBuilders.Length > 0 && !blockBuilders[0].empty) ==> TotalSize(Builders()) == 0
    {
      declaredPositions := 0;
      if IsEmpty() {
        return;
      }
      for i := 0 to blockBuilders.Length
        invariant declaredPositions == 0
        invariant forall k :: 0 <= k < i ==>
                    fresh(blockBuilders[k]) && IsNew(blockBuilders[k], old(blockBuilders[k].tupleInfo), maxBlockSize)
        invariant forall k :: i <= k < blockBuilders.Length ==> blockBuilders[k] == old(blockBuilders[k])
        invariant forall k, l :: 0 <= k < l < blockBuilders.Length ==> blockBuilders[k] != blockBuilders[l]
      {
        var blockBuilder := blockBuilders[i];
        blockBuilders[i] := new BlockBuilder(blockBuilder.tupleInfo, maxBlockSize);
      }
      TotalSizeOfEmptyBuilders(Builders());
    }

    /** The builder that callers fill for `channel`. */
    function GetBlockBuilder(channel: int): Option<BlockBuilder>
      reads this, blockBuilders
    {
      if 0 <= channel < blockBuilders.Length then Some(blockBuilders[channel]) else None
    }

    /** Every channel hands out a builder of its own, and what a caller puts into channel `c`'s
        builder is what `Builders`, and so `IsFull`, `GetSize` and `Build`, see at position `c`. */
    lemma ChannelsHaveOwnBuilders()
      requires Valid()
      ensures forall c :: GetBlockBuilder(c).Some? <==> 0 <= c < blockBuilders.Length
      ensures forall c, d :: 0 <= c < d < blockBuilders.Length ==> GetBlockBuilder(c).value != GetBlockBuilder(d).value
      ensures forall c :: 0 <= c < blockBuilders.Length ==> Builders()[c] == GetBlockBuilder(c).value.State()
    {
    }

    /** Counts one position of a page with no channels; `int` arithmetic wraps at the maximum. */
    method DeclarePosition()
      requires Valid()
      modifies this`declaredPositions
      ensures Valid()
      ensures declaredPositions == WrapInt(old(declaredPositions) + 1)
    {
      declaredPositions := WrapInt(declaredPositions + 1);
    }

    method IsFull() returns (full: bool)
      requires Valid()
      ensures full == ScanReportsFull(declaredPositions, Builders(), maxSizeInBytes)
      ensures full <==> declaredPositions == INT_MAX || AnyFull(Builders()) || TotalSize(Builders()) > maxSizeInBytes
    {
      ScanReportsFullClosedForm(declaredPositions, Builders(), maxSizeInBytes);
      if declaredPositions == INT_MAX {
        return true;
      }
      ghost var s := Builders();
      var sizeInBytes := 0;
      var i := 0;
      while i < blockBuilders.Length
        invariant 0 <= i <= blockBuilders.Length
        invariant sizeInBytes == TotalSize(s[..i])
        invariant forall k :: 0 <= k < i ==> !StopsAt(s, k, maxSizeInBytes)
      {
        var blockBuilder := blockBuilders[i];
        if blockBuilder.full {
          assert StopsAt(s, i, maxSizeInBytes);
          return true;
        }
        sizeInBytes := sizeInBytes + blockBuilder.size;
        assert s[..i + 1][..i] == s[..i];
        if sizeInBytes > maxSizeInBytes {
          assert StopsAt(s, i, maxSizeInBytes);
          return true;
        }
        i := i + 1;
      }
      return false;
    }

    /** Judged by builder 0 alone when there are channels. */
    function IsEmpty(): bool
      reads this, blockBuilders, blockBuilders[..]
    {
      if blockBuilders.Length == 0 then declaredPositions == 0 else blockBuilders[0].empty
    }

    method GetSize() returns (sizeInBytes: int)
      requires Valid()
      ensures sizeInBytes == TotalSize(Builders())
      ensures 0 <= sizeInBytes <= LONG_MAX
    {
      ghost var s := Builders();
      TotalSizeFitsLong(s);
      sizeInBytes := 0;
      for i := 0 to blockBuilders.Length
        invariant sizeInBytes == TotalSize(s[..i])
      {
        sizeInBytes := sizeInBytes + blockBuilders[i].size;
        assert s[..i + 1][..i] == s[..i];
      }
      assert s[..blockBuilders.Length] == s;
    }

    method Build() returns (page: Page)
      requires Valid()
      ensures blockBuilders.Length == 0 ==> page == PositionsOnly(declaredPositions)
      ensures blockBuilders.Length > 0 ==>
                page.WithBlocks? && |page.blocks| == blockBuilders.Length &&
                forall i :: 0 <= i < |page.blocks| ==> page.blocks[i] == Builders()[i].Build()
    {
      if blockBuilders.Length == 0 {
        return PositionsOnly(declaredPositions);
      }
      var blocks := new Block[blockBuilders.Length];
      for i := 0 to blocks.Length
        invariant forall k :: 0 <= k < i ==> blocks[k] == blockBuilders[k].State().Build()
      {
        blocks[i] := blockBuilders[i].State().Build();
      }
      return WithBlocks(blocks[..]);
    }
  }
}
