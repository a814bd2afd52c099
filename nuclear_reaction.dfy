/**
  The "nuclear reaction" range-splitting reduction of
  ch_24_concurrency_templates/nuclear_reaction.cpp.

  Three versions compute the same total, the sum of `value + 42` over a vector:
  - `MotivationExample` is the plain sequential fold (namespace `motivation`);
  - `Reaction.BasicsWorker` recursively bisects the index range `[from, to)`
    (namespace `basics`);
  - `Reaction.MiddleWorker` first keeps a self portion of `size / MaxThreadCount`
    elements and bisects the rest (namespace `middle`).
  The recursive versions add into one shared `sum` and bump `threadCount` by 2 at
  every split. Threads only carry the branches; here the two children of a split
  run one after the other, which is one schedule the joins allow.
*/
module NuclearReaction {

  /** Number of values in every demo vector. */
  const ValuesCount: nat := 1000

  /** Cap on `threadCount` above which every branch becomes a leaf. */
  const MaxThreadCount: int := 8

  /** Ranges with fewer elements than this are never split. */
  const MinChunk: int := 10

  /** What one element adds to the total. */
  function Contribution(value: int): int {
    value + 42
  }

  /** The sequential fold: the sum of `Contribution` over `s`, left to right. */
  function Total(s: seq<int>): int
    decreases |s|
  {
    if s == [] then 0 else Total(s[..|s| - 1]) + Contribution(s[|s| - 1])
  }

  /** The total of the index range `[from, to)` of `values`. */
  function RangeSum(values: seq<int>, from: int, to: int): int
    requires 0 <= from <= to <= |values|
  {
    Total(values[from..to])
  }

  /** The all-zero vector the demos start from. */
  function Zeros(n: nat): (s: seq<int>)
    ensures |s| == n && forall k :: 0 <= k < n ==> s[k] == 0
  {
    seq(n, _ => 0)
  }

  lemma {:induction false} TotalAppend(a: seq<int>, b: seq<int>)
    ensures Total(a + b) == Total(a) + Total(b)
    decreases |b|
  {
    if b == [] {
      assert a + b == a;
    } else {
      var b' := b[..|b| - 1];
      assert (a + b)[..|a + b| - 1] == a + b';
      TotalAppend(a, b');
    }
  }

  /** Splitting a range at any point splits its total. */
  lemma RangeSumSplit(values: seq<int>, from: int, mid: int, to: int)
    requires 0 <= from <= mid <= to <= |values|
    ensures RangeSum(values, from, to) == RangeSum(values, from, mid) + RangeSum(values, mid, to)
  {
    assert values[from..to] == values[from..mid] + values[mid..to];
    TotalAppend(values[from..mid], values[mid..to]);
  }

  /** A vector of `n` zeros totals `42 * n`. */
  lemma {:induction false} TotalOfZeros(n: nat)
    ensures Total(Zeros(n)) == 42 * n
  {
    if n > 0 {
      assert Zeros(n)[..n - 1] == Zeros(n - 1);
      TotalOfZeros(n - 1);
    }
  }

  /** A half-open index range `[from, to)`. */
  datatype Range = Range(from: int, to: int) {
    predicate Contains(k: int) {
      from <= k < to
    }
  }

  /** `pieces`, taken in order, are adjacent ranges that exactly tile `[lo, hi)`. */
  ghost predicate Tiles(pieces: seq<Range>, lo: int, hi: int)
    decreases |pieces|
  {
    if pieces == [] then lo == hi
    else pieces[0].from == lo && pieces[0].from <= pieces[0].to && Tiles(pieces[1..], pieces[0].to, hi)
  }

  lemma {:induction false} TilesAppend(a: seq<Range>, b: seq<Range>, lo: int, mid: int, hi: int)
    requires Tiles(a, lo, mid) && Tiles(b, mid, hi)
    ensures Tiles(a + b, lo, hi)
    decreases |a|
  {
    if a != [] {
      assert Tiles(a[1..], a[0].to, mid);
      TilesAppend(a[1..], b, a[0].to, mid, hi);
      assert (a + b)[0] == a[0];
      assert (a + b)[1..] == a[1..] + b;
      assert Tiles((a + b)[1..], (a + b)[0].to, hi);
    } else {
      assert a + b == b;
    }
  }

  /** Every piece of a tiling lies inside the tiled range, and earlier pieces end
      before later ones start, so no index belongs to two pieces. */
  lemma {:induction false} TilesDisjoint(pieces: seq<Range>, lo: int, hi: int)
    requires Tiles(pieces, lo, hi)
    ensures lo <= hi
    ensures forall j :: 0 <= j < |pieces| ==> lo <= pieces[j].from <= pieces[j].to <= hi
    ensures forall i, j :: 0 <= i < j < |pieces| ==> pieces[i].to <= pieces[j].from
    decreases |pieces|
  {
    if pieces != [] {
      var rest := pieces[1..];
      TilesDisjoint(rest, pieces[0].to, hi);
      forall j | 0 < j < |pieces|
        ensures pieces[0].to <= pieces[j].from
      {
        assert pieces[j] == rest[j - 1];
      }
    }
  }

  /** Every index of the tiled range lies in some piece of the tiling. */
  lemma {:induction false} TilesCover(pieces: seq<Range>, lo: int, hi: int, k: int)
    requires Tiles(pieces, lo, hi) && lo <= k < hi
    ensures exists j :: 0 <= j < |pieces| && pieces[j].Contains(k)
    decreases |pieces|
  {
    if !pieces[0].Contains(k) {
      TilesCover(pieces[1..], pieces[0].to, hi, k);
      var j :| 0 <= j < |pieces[1..]| && pieces[1..][j].Contains(k);
      assert pieces[j + 1].Contains(k);
    }
  }

  /** The sum of the totals of some pieces of `values`. */
  function PiecesSum(values: seq<int>, pieces: seq<Range>): int
    requires forall j :: 0 <= j < |pieces| ==> 0 <= pieces[j].from <= pieces[j].to <= |values|
    decreases |pieces|
  {
    if pieces == [] then 0
    else RangeSum(values, pieces[0].from, pieces[0].to) + PiecesSum(values, pieces[1..])
  }

  /** However a range is tiled, the totals of the pieces add up to the total of
      the range: the partition chosen by the splitting never changes the result. */
  lemma {:induction false} TilesSum(values: seq<int>, pieces: seq<Range>, lo: int, hi: int)
    requires Tiles(pieces, lo, hi) && 0 <= lo <= hi <= |values|
    ensures forall j :: 0 <= j < |pieces| ==> 0 <= pieces[j].from <= pieces[j].to <= |values|
    ensures PiecesSum(values, pieces) == RangeSum(values, lo, hi)
    decreases |pieces|
  {
    TilesDisjoint(pieces, lo, hi);
    if pieces != [] {
      TilesSum(values, pieces[1..], pieces[0].to, hi);
      RangeSumSplit(values, lo, pieces[0].to, hi);
    }
  }

  /** The leaf rule: a branch reduces its whole range itself when the thread
      budget is spent or the range is too small to split. */
  predicate IsLeaf(threadCount: int, size: int) {
    threadCount > MaxThreadCount || size < MinChunk
  }

  /** The split point of the basics variant: `from + size / 2`. */
  function BisectAt(from: int, to: int): (middle: int)
    requires from <= to
    ensures from <= middle <= to
    ensures middle - from <= to - middle <= middle - from + 1
    ensures to - from >= 2 ==> from < middle < to
  {
    from + (to - from) / 2
  }

  /** The split points of the middle variant: the self portion `[from, selfTo)`
      holds `size / MaxThreadCount` elements and the remainder `[selfTo, to)` is
      bisected at `middle`. */
  function SelfSplitAt(from: int, to: int): (r: (int, int))
    requires from <= to
    ensures from <= r.0 <= r.1 <= to
    ensures (r.0 - from) * MaxThreadCount <= to - from < (r.0 - from + 1) * MaxThreadCount
    ensures r.1 - r.0 <= to - r.1 <= r.1 - r.0 + 1
    ensures to - from >= MinChunk ==> from < r.0 < r.1 < to
  {
    var selfTo := from + (to - from) / MaxThreadCount;
    (selfTo, selfTo + (to - selfTo) / 2)
  }

  /** The worker lambda: the sum of `value + 42` over `[from, to)`. */
  method Worker(values: seq<int>, from: nat, to: nat) returns (localSum: int)
    requires from <= to <= |values|
    ensures localSum == RangeSum(values, from, to)
    ensures from == to ==> localSum == 0
  {
    localSum := 0;
    var i := from;
    while i < to
      invariant from <= i <= to
      invariant localSum == Total(values[from..i])
    {
      assert values[from..i + 1][..i - from] == values[from..i];
      localSum := localSum + Contribution(values[i]);
      i := i + 1;
    }
  }

  /** The `for_each` of `motivation::example`: the sequential oracle. */
  method SequentialSum(values: seq<int>) returns (sum: int)
    ensures sum == Total(values)
  {
    sum := 0;
    var i := 0;
    while i < |values|
      invariant 0 <= i <= |values|
      invariant sum == Total(values[..i])
    {
      assert values[..i + 1][..i] == values[..i];
      sum := sum + Contribution(values[i]);
      i := i + 1;
    }
    assert values[..i] == values;
  }

  /** `motivation::example`: 1000 zeros sum to 42000. */
  method MotivationExample() returns (sum: int)
    ensures sum == 42000
  {
    var values := Zeros(ValuesCount);
    sum := SequentialSum(values);
    TotalOfZeros(ValuesCount);
  }

  /** The state the `nuclearWorker` closures share: the values, the atomic `sum`
      and the atomic `threadCount`. `splits` counts the splits made so far and
      `leaves` records, in order, each range a worker call reduced. */
  class Reaction {
    const values: seq<int>
    var sum: int
    var threadCount: int
    ghost var splits: nat
    ghost var leaves: seq<Range>

    /** `threadCount` starts at 1 and only ever grows by 2 per split, and a split
        happens only while `threadCount <= MaxThreadCount`; with an even cap this
        keeps `threadCount` odd and at most `MaxThreadCount + 1`. */
    ghost predicate Valid()
      reads this
    {
      threadCount == 1 + 2 * splits && threadCount <= MaxThreadCount + 1
    }

    constructor (values: seq<int>)
      ensures Valid()
      ensures this.values == values && sum == 0 && threadCount == 1
      ensures splits == 0 && leaves == []
    {
      this.values := values;
      sum := 0;
      threadCount := 1;
      splits := 0;
      leaves := [];
    }

    /** `nuclearWorker` of namespace `basics`. */
    method BasicsWorker(lo: int, hi: int)
      requires Valid() && 0 <= lo <= hi <= |values|
      modifies this
      ensures Valid() && splits <= 4
      ensures sum == old(sum) + RangeSum(values, lo, hi)
      ensures threadCount >= old(threadCount) && splits >= old(splits)
      ensures IsLeaf(old(threadCount), hi - lo) <==> threadCount == old(threadCount)
      ensures IsLeaf(old(threadCount), hi - lo) ==> leaves == old(leaves) + [Range(lo, hi)]
      ensures |old(leaves)| <= |leaves| && leaves[..|old(leaves)|] == old(leaves)
      ensures Tiles(leaves[|old(leaves)|..], lo, hi)
      decreases hi - lo
    {
      var size: int := hi - lo;
      if threadCount > MaxThreadCount || size < MinChunk {
        var localSum := Worker(values, lo, hi);
        sum := sum + localSum;
        leaves := leaves + [Range(lo, hi)];
        assert leaves[|old(leaves)|..] == [Range(lo, hi)];
        assert Tiles([Range(lo, hi)][1..], hi, hi);
      } else {
        var middle := BisectAt(lo, hi);
        threadCount := threadCount + 2;
        splits := splits + 1;
        ghost var before := leaves;
        BasicsWorker(lo, middle);
        ghost var between := leaves;
        BasicsWorker(middle, hi);
        RangeSumSplit(values, lo, middle, hi);
        assert between == before + between[|before|..];
        assert leaves == between + leaves[|between|..];
        assert leaves[..|before|] == before;
        assert leaves[|before|..] == between[|before|..] + leaves[|between|..];
        TilesAppend(between[|before|..], leaves[|between|..], lo, middle, hi);
      }
    }

    /** `nuclearWorker` of namespace `middle`. The self portion is reduced before
        the children run, one of the orders the source's threads allow. */
    method MiddleWorker(lo: int, hi: int)
      requires Valid() && 0 <= lo <= hi <= |values|
      modifies this
      ensures Valid() && splits <= 4
      ensures sum == old(sum) + RangeSum(values, lo, hi)
      ensures threadCount >= old(threadCount) && splits >= old(splits)
      ensures IsLeaf(old(threadCount), hi - lo) <==> threadCount == old(threadCount)
      ensures IsLeaf(old(threadCount), hi - lo) ==> leaves == old(leaves) + [Range(lo, hi)]
      ensures |old(leaves)| <= |leaves| && leaves[..|old(leaves)|] == old(leaves)
      ensures Tiles(leaves[|old(leaves)|..], lo, hi)
      decreases hi - lo
    {
      var size: int := hi - lo;
      if threadCount > MaxThreadCount || size < MinChunk {
        var localSum := Worker(values, lo, hi);
        sum := sum + localSum;
        leaves := leaves + [Range(lo, hi)];
        assert leaves[|old(leaves)|..] == [Range(lo, hi)];
        assert Tiles([Range(lo, hi)][1..], hi, hi);
      } else {
        var split := SelfSplitAt(lo, hi);
        var selfTo, middle := split.0, split.1;
        assert lo < selfTo < middle < hi;
        threadCount := threadCount + 2;
        splits := splits + 1;
        var selfSum := Worker(values, lo, selfTo);
        sum := sum + selfSum;
        ghost var before := leaves;
        leaves := leaves + [Range(lo, selfTo)];
        ghost var afterSelf := leaves;
        MiddleWorker(selfTo, middle);
        ghost var between := leaves;
        MiddleWorker(middle, hi);
        RangeSumSplit(values, lo, selfTo, hi);
        RangeSumSplit(values, selfTo, middle, hi);
        assert between == afterSelf + between[|afterSelf|..];
        assert leaves == between + leaves[|between|..];
        assert leaves == before + [Range(lo, selfTo)] + between[|afterSelf|..] + leaves[|between|..];
        assert leaves[..|before|] == before;
        assert leaves[|before|..] == [Range(lo, selfTo)] + between[|afterSelf|..] + leaves[|between|..];
        TilesAppend(between[|afterSelf|..], leaves[|between|..], selfTo, middle, hi);
        ghost var children := between[|afterSelf|..] + leaves[|between|..];
        assert Tiles([Range(lo, selfTo)], lo, selfTo);
        TilesAppend([Range(lo, selfTo)], children, lo, selfTo, hi);
        assert leaves[|old(leaves)|..] == [Range(lo, selfTo)] + children;
      }
    }
  }

  /** `basics::nuclearReaction` on any vector: the final `sum` is the sequential
      fold, and `threadCount` ends odd and at most `MaxThreadCount + 1`. */
  method BasicsReduce(values: seq<int>) returns (sum: int, threadCount: int)
    ensures sum == Total(values)
    ensures threadCount % 2 == 1 && 1 <= threadCount <= MaxThreadCount + 1
  {
    var reaction := new Reaction(values);
    reaction.BasicsWorker(0, |values|);
    assert values[0..|values|] == values;
    sum, threadCount := reaction.sum, reaction.threadCount;
  }

  /** `middle::nuclearReaction` on any vector, with the same guarantees. */
  method MiddleReduce(values: seq<int>) returns (sum: int, threadCount: int)
    ensures sum == Total(values)
    ensures threadCount % 2 == 1 && 1 <= threadCount <= MaxThreadCount + 1
  {
    var reaction := new Reaction(values);
    reaction.MiddleWorker(0, |values|);
    assert values[0..|values|] == values;
    sum, threadCount := reaction.sum, reaction.threadCount;
  }

  /** `basics::nuclearReaction` as the demo runs it: 1000 zeros give 42000. */
  method BasicsNuclearReaction() returns (sum: int)
    ensures sum == 42000
  {
    var threadCount;
    sum, threadCount := BasicsReduce(Zeros(ValuesCount));
    TotalOfZeros(ValuesCount);
  }

  /** `middle::nuclearReaction` as the demo runs it: 1000 zeros give 42000. */
  method MiddleNuclearReaction() returns (sum: int)
    ensures sum == 42000
  {
    var threadCount;
    sum, threadCount := MiddleReduce(Zeros(ValuesCount));
    TotalOfZeros(ValuesCount);
  }
}
